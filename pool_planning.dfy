/**
 * The sizing and configuration planning that `run_tasks` performs before it
 * creates anything: tasks per node, the automatic VM size ladder with its
 * confirm-or-replace prompt, the default pool and job names and the image and
 * platform settings it writes into the POOL and ACR sections of the
 * configuration. The `input()` prompts are replaced by their replies.
 */
module PoolPlanning {
  import opened Wrappers
  import opened Strings

  datatype PlanError =
    | NoConfigFile    // ValueError: no configuration file at the given path
    | ZeroDivision    // ZeroDivisionError: low_pri_nodes + dedicated_nodes == 0

  /** Arguments of `run_tasks`. A string argument left at None (or given empty) is "";
      `numTasks` is 0 when not given. */
  datatype RunArgs = RunArgs(
    taskToRun: string,
    numTasks: int,
    lowPriNodes: int,
    dedicatedNodes: int,
    poolName: string,
    jobName: string,
    vmSku: string,
    imageName: string,
    imageVersion: string,
    platform: string)

  /** The answers typed at the prompts of `run_tasks`, each consulted only when the code asks. */
  datatype Replies = Replies(taskToRun: string, numTasks: int, vmSku: string, confirmSku: string)

  /** The ACR section of the configuration file as `run_tasks` finds it. */
  datatype AcrDefaults = AcrDefaults(platform: string, imageName: string, imageVersion: string)

  /** What `run_tasks` writes into the configuration and passes on to `batch_main`. */
  datatype PoolPlan = PoolPlan(
    command: string,
    numTasks: int,
    tasksPerNode: int,
    lowPriNodes: int,
    dedicatedNodes: int,
    vmSize: string,
    poolId: string,
    jobName: string,
    imageName: string,
    imageVersion: string,
    platform: string,
    windowsImage: bool)

  function Max(a: int, b: int): int { if a >= b then a else b }

  /** `ceil(n / d)` over the reals, for a non-zero divisor of either sign. */
  function CeilDiv(n: int, d: int): (q: int)
    requires d != 0
    ensures d > 0 ==> (q - 1) * d < n <= q * d
    ensures d < 0 ==> q * d <= n < (q - 1) * d
  {
    if d > 0 then -((-n) / d) else -(n / (-d))
  }

  /** `max(ceil(float(num_tasks) / total_nodes), 1)` (batch_containers.py:595). */
  function TasksPerNode(numTasks: int, totalNodes: int): (r: Result<int, PlanError>)
    ensures r.Ok? <==> totalNodes != 0
    ensures r.Ok? ==> r.value >= 1
    ensures r.Ok? && totalNodes > 0 ==> r.value * totalNodes >= numTasks
    ensures r.Ok? && totalNodes > 0 ==> r.value == 1 || (r.value - 1) * totalNodes < numTasks
  {
    if totalNodes == 0 then Err(ZeroDivision) else Ok(Max(CeilDiv(numTasks, totalNodes), 1))
  }

  lemma MulLeft(a: int, b: int, c: int)
    requires a <= b && c >= 0
    ensures a * c <= b * c
  {
    assert b * c - a * c == (b - a) * c;
  }

  lemma MulRight(c: int, a: int, b: int)
    requires a <= b && c >= 0
    ensures c * a <= c * b
  {
    assert c * b - c * a == c * (b - a);
  }

  /** More nodes never mean more tasks per node. */
  lemma TasksPerNodeMonotone(numTasks: int, fewer: int, more: int)
    requires 0 < fewer <= more
    ensures TasksPerNode(numTasks, more).value <= TasksPerNode(numTasks, fewer).value
  {
    var c1 := TasksPerNode(numTasks, fewer).value;
    var c2 := TasksPerNode(numTasks, more).value;
    if c2 > c1 {
      assert c1 * fewer >= numTasks;
      assert (c2 - 1) * more < numTasks;
      MulLeft(c1, c2 - 1, more);
      MulRight(c1, fewer, more);
      assert false;
    }
  }

  // --- the VM size ladder (batch_containers.py:613-631) ----------------------

  /** The five VM sizes of the ladder, smallest first. */
  const SkuLadder: seq<string> :=
    ["Standard_E2s_v3", "Standard_E8s_v3", "Standard_E16s_v3", "Standard_E32s_v3", "Standard_E64s_v3"]

  /** The largest tasks-per-node count each of the first four sizes is chosen for. */
  const TierCapacity: seq<int> := [8, 16, 32, 75]

  /** Index into `SkuLadder` of the smallest size whose capacity covers `tasksPerNode`. */
  function SkuTier(tasksPerNode: int): (t: nat)
    ensures t < |SkuLadder|
    ensures t < |TierCapacity| ==> tasksPerNode <= TierCapacity[t]
    ensures t > 0 ==> tasksPerNode > TierCapacity[t - 1]
  {
    if tasksPerNode <= 8 then 0
    else if tasksPerNode <= 16 then 1
    else if tasksPerNode <= 32 then 2
    else if tasksPerNode <= 75 then 3
    else 4
  }

  /** The ladder is a monotone step function of tasks per node. */
  lemma SkuTierMonotone(a: int, b: int)
    requires a <= b
    ensures SkuTier(a) <= SkuTier(b)
  {
  }

  /** The automatically selected VM size. */
  function AutoSku(tasksPerNode: int): (sku: string)
    ensures sku in SkuLadder
    ensures tasksPerNode <= 8 <==> sku == "Standard_E2s_v3"
    ensures tasksPerNode > 75 <==> sku == "Standard_E64s_v3"
  {
    SkuLadder[SkuTier(tasksPerNode)]
  }

  /** The VM size `run_tasks` works with before the ladder: the argument, or the prompt's reply when the argument is empty. */
  function GivenSku(vmSku: string, skuReply: string): string {
    if vmSku != "" then vmSku else skuReply
  }

  /** `vm_sku.lower() == "none" or vm_sku.lower() == ""`: the size is left to the ladder. */
  predicate IsAutoSentinel(sku: string) {
    Lower(sku) == "none" || Lower(sku) == ""
  }

  /** The value written to `VM_SIZE` (batch_containers.py:609-642). */
  function ChooseVmSize(vmSku: string, skuReply: string, tasksPerNode: int, confirmReply: string): (r: string)
    // a size the user supplied is kept as given
    ensures !IsAutoSentinel(GivenSku(vmSku, skuReply)) ==> r == GivenSku(vmSku, skuReply)
    // an automatic size is kept when no confirmation is needed or the reply is "yes" in any case
    ensures (IsAutoSentinel(GivenSku(vmSku, skuReply)) && (tasksPerNode <= 8 || Lower(confirmReply) == "yes"))
            ==> r == AutoSku(tasksPerNode)
    // any other reply to the confirmation prompt becomes the size
    ensures (IsAutoSentinel(GivenSku(vmSku, skuReply)) && tasksPerNode > 8 && Lower(confirmReply) != "yes")
            ==> r == confirmReply
  {
    var sku := GivenSku(vmSku, skuReply);
    if IsAutoSentinel(sku) then
      var auto := AutoSku(tasksPerNode);
      if tasksPerNode > 8 && Lower(confirmReply) != "yes" then confirmReply else auto
    else sku
  }

  /** The confirmation reply matters only for an automatically chosen size above the smallest tier. */
  lemma ConfirmationOnlyForCostlyAutoSku(vmSku: string, skuReply: string, tasksPerNode: int, c1: string, c2: string)
    requires !IsAutoSentinel(GivenSku(vmSku, skuReply)) || tasksPerNode <= 8
    ensures ChooseVmSize(vmSku, skuReply, tasksPerNode, c1) == ChooseVmSize(vmSku, skuReply, tasksPerNode, c2)
  {
  }

  // --- names and platform (batch_containers.py:586-599, 644-669) ------------

  /** `POOL_ID`: the given pool name, or image name + "pool" + total node count. */
  function PoolIdFor(poolName: string, imageName: string, totalNodes: int): string {
    if poolName != "" then poolName else imageName + "pool" + IntToString(totalNodes)
  }

  /** `JOB_NAME`: the given job name, or image name + "job" + task count. */
  function JobNameFor(jobName: string, imageName: string, numTasks: int): string {
    if jobName != "" then jobName else imageName + "job" + IntToString(numTasks)
  }

  /** Default pool ids of one image tell node counts apart. */
  lemma DefaultPoolIdsDistinguishNodeCounts(imageName: string, n1: int, n2: int)
    requires PoolIdFor("", imageName, n1) == PoolIdFor("", imageName, n2)
    ensures n1 == n2
  {
    CancelPrefix(imageName + "pool", IntToString(n1), IntToString(n2));
    IntToStringInjective(n1, n2);
  }

  /** Default job names of one image tell task counts apart. */
  lemma DefaultJobNamesDistinguishTaskCounts(imageName: string, n1: int, n2: int)
    requires JobNameFor("", imageName, n1) == JobNameFor("", imageName, n2)
    ensures n1 == n2
  {
    CancelPrefix(imageName + "job", IntToString(n1), IntToString(n2));
    IntToStringInjective(n1, n2);
  }

  /** The platform as the code computes it (lines 586, 597-599): the reassignment from the
      configuration at line 586 discards the `platform` argument before it is consulted. */
  function PlatformAsWritten(argument: string, configured: string): (p: string)
    ensures p == configured
  {
    configured
  }

  /** An explicit `platform` argument is never the platform the code as written uses. */
  lemma PlatformArgumentIgnored()
    ensures PlatformAsWritten("windows", "linux") == "linux"
  {
  }

  /** The platform the argument and the log message at line 598 describe: an explicit argument is
      written into the configuration, otherwise the configured value stays. */
  function EffectivePlatform(argument: string, configured: string): (p: string)
    ensures argument != "" ==> p == argument
    ensures argument == "" ==> p == configured
  {
    if argument != "" then argument else configured
  }

  // --- the whole plan --------------------------------------------------------

  /** The plan of `run_tasks` for a given platform: what it writes to the configuration, or the
      exception it raises first. */
  function PlanFor(args: RunArgs, replies: Replies, acr: AcrDefaults, configFound: bool, platform: string)
    : Result<PoolPlan, PlanError>
  {
    if !configFound then Err(NoConfigFile)
    else
      var command := if args.taskToRun != "" then args.taskToRun else replies.taskToRun;
      var numTasks := if args.numTasks != 0 then args.numTasks else replies.numTasks;
      var totalNodes := args.lowPriNodes + args.dedicatedNodes;
      match TasksPerNode(numTasks, totalNodes)
      case Err(e) => Err(e)
      case Ok(tasksPerNode) =>
        var vmSize := ChooseVmSize(args.vmSku, replies.vmSku, tasksPerNode, replies.confirmSku);
        var imageName := if args.imageName != "" then args.imageName else acr.imageName;
        var imageVersion := if args.imageVersion != "" then args.imageVersion else acr.imageVersion;
        Ok(PoolPlan(
          command, numTasks, tasksPerNode, args.lowPriNodes, args.dedicatedNodes, vmSize,
          PoolIdFor(args.poolName, imageName, totalNodes),
          JobNameFor(args.jobName, imageName, numTasks),
          imageName, imageVersion, platform, Lower(platform) == "windows"))
  }

  /**
   * The configuration `run_tasks` writes, or the exception it raises first. The
   * platform is the configured one, as the code computes it (see
   * `PlatformAsWritten`); the `platform` argument has no effect.
   */
  function Plan(args: RunArgs, replies: Replies, acr: AcrDefaults, configFound: bool): (r: Result<PoolPlan, PlanError>)
    ensures !configFound ==> r == Err(NoConfigFile)
    ensures configFound ==> (r.Err? <==> args.lowPriNodes + args.dedicatedNodes == 0)
    ensures r.Ok? ==> r.value.command == (if args.taskToRun != "" then args.taskToRun else replies.taskToRun)
    ensures r.Ok? ==> r.value.numTasks == (if args.numTasks != 0 then args.numTasks else replies.numTasks)
    ensures r.Ok? ==> TasksPerNode(r.value.numTasks, args.lowPriNodes + args.dedicatedNodes) == Ok(r.value.tasksPerNode)
    ensures r.Ok? ==> r.value.tasksPerNode >= 1
    ensures r.Ok? && args.lowPriNodes + args.dedicatedNodes > 0 ==>
              r.value.tasksPerNode * (args.lowPriNodes + args.dedicatedNodes) >= r.value.numTasks
    ensures r.Ok? ==> r.value.lowPriNodes == args.lowPriNodes && r.value.dedicatedNodes == args.dedicatedNodes
    ensures r.Ok? ==> r.value.vmSize == ChooseVmSize(args.vmSku, replies.vmSku, r.value.tasksPerNode, replies.confirmSku)
    ensures r.Ok? ==> r.value.imageName == (if args.imageName != "" then args.imageName else acr.imageName)
    ensures r.Ok? ==> r.value.imageVersion == (if args.imageVersion != "" then args.imageVersion else acr.imageVersion)
    ensures r.Ok? ==> r.value.poolId == PoolIdFor(args.poolName, r.value.imageName, args.lowPriNodes + args.dedicatedNodes)
    ensures r.Ok? ==> r.value.jobName == JobNameFor(args.jobName, r.value.imageName, r.value.numTasks)
    ensures r.Ok? && args.poolName != "" ==> r.value.poolId == args.poolName
    ensures r.Ok? && args.jobName != "" ==> r.value.jobName == args.jobName
    ensures r.Ok? ==> r.value.platform == acr.platform
    ensures r.Ok? ==> r.value.windowsImage == (Lower(acr.platform) == "windows")
  {
    PlanFor(args, replies, acr, configFound, PlatformAsWritten(args.platform, acr.platform))
  }

  /** The plan the `platform` argument and the log message at line 598 describe: an explicit
      platform is written into the configuration and decides whether the Windows image is used. */
  function PlanIntended(args: RunArgs, replies: Replies, acr: AcrDefaults, configFound: bool): (r: Result<PoolPlan, PlanError>)
    ensures r.Ok? && args.platform != "" ==> r.value.platform == args.platform
    ensures r.Ok? && args.platform == "" ==> r.value.platform == acr.platform
    ensures r.Ok? ==> r.value.windowsImage == (Lower(r.value.platform) == "windows")
  {
    PlanFor(args, replies, acr, configFound, EffectivePlatform(args.platform, acr.platform))
  }

  /** The intended plan fails exactly when the written one does, and differs from it only in
      the platform and the choice of the Windows image. */
  lemma PlanIntendedDiffersOnlyInPlatform(args: RunArgs, replies: Replies, acr: AcrDefaults, configFound: bool)
    ensures PlanIntended(args, replies, acr, configFound).Ok? <==> Plan(args, replies, acr, configFound).Ok?
    ensures Plan(args, replies, acr, configFound).Ok? ==>
              var p := EffectivePlatform(args.platform, acr.platform);
              PlanIntended(args, replies, acr, configFound).value
              == Plan(args, replies, acr, configFound).value.(platform := p, windowsImage := Lower(p) == "windows")
  {
  }

  /** On the input of the finding, the written plan keeps the Linux image while the intended one
      switches to Windows. */
  lemma PlanIgnoresWindowsArgument(args: RunArgs, replies: Replies, acr: AcrDefaults)
    requires args.platform == "windows" && acr.platform == "linux"
    requires args.lowPriNodes + args.dedicatedNodes != 0
    ensures Plan(args, replies, acr, true).Ok? && !Plan(args, replies, acr, true).value.windowsImage
    ensures PlanIntended(args, replies, acr, true).Ok? && PlanIntended(args, replies, acr, true).value.windowsImage
  {
    assert Lower("linux") == "linux";
    assert Lower("windows") == "windows";
  }

  /** Runs that differ only in their task count size their pools differently but give them the
      same default pool id, so that `create_pool(skip_if_exists=True)` re-uses the pool sized
      for the earlier count. */
  lemma PoolIdIgnoresTaskCount(args: RunArgs, n1: int, n2: int, replies: Replies, acr: AcrDefaults)
    requires Plan(args.(numTasks := n1), replies, acr, true).Ok?
    ensures Plan(args.(numTasks := n2), replies, acr, true).Ok?
    ensures Plan(args.(numTasks := n1), replies, acr, true).value.poolId
            == Plan(args.(numTasks := n2), replies, acr, true).value.poolId
  {
  }
}
