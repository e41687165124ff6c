/**
 * `AzureBatchContainers`, the object that creates a Batch pool, adds a job to
 * it, submits one container task per simulator and waits for them, and the
 * `run_tasks` entry point that plans the pool, writes the configuration and
 * drives the object. The Batch service is the `BatchBackend.State` held in the
 * `backend` field; every client call is one `BatchBackend.Send…` transition.
 */
module BatchContainers {
  import opened Wrappers
  import opened Strings
  import opened BatchBackend
  import PoolPlanning

  // --- configuration -----------------------------------------------------------

  /** The POOL section of the configuration file; the entries read with `int(...)` are integers. */
  datatype PoolSection = PoolSection(
    poolId: string,
    vmSize: string,
    tasksPerNode: int,
    lowPriNodes: int,
    dedicatedNodes: int,
    agentSku: string,
    publisher: string,
    offer: string,
    sku: string,
    version: string,
    jobName: string,
    numTasks: int)

  datatype AcrSection = AcrSection(
    server: string, userName: string, password: string,
    imageName: string, imageVersion: string, platform: string)

  datatype StorageSection = StorageSection(accountName: string, url: string, accountKey: string)

  datatype Config = Config(pool: PoolSection, acr: AcrSection, storage: StorageSection)

  /** The POOL section of the Windows configuration file that `run_tasks` copies for Windows images. */
  datatype WindowsPool = WindowsPool(publisher: string, offer: string, sku: string, version: string, agentSku: string)

  const WindowsPublisher: string := "MicrosoftWindowsServer"
  const LinuxMountOptions: string := "-o vers=3.0,dir_mode=0777,file_mode=0777,sec=ntlmssp"
  const WindowsMountOptions: string := "-Persist"
  const DefaultStartDir: string := "src"
  const DefaultCommand: string := "python main.py"
  /** `datetime.timedelta(hours=2)`, the wait of `batch_main`, in seconds. */
  const BatchMainTimeout: int := 7200

  /** `image_name + ":" + image_version` as the constructor derives them from the ACR section. */
  function ContainerImage(acr: AcrSection): string {
    StripQuotes(acr.server) + "/" + StripQuotes(acr.imageName) + ":" + StripQuotes(acr.imageVersion)
  }

  function Registry(acr: AcrSection): ContainerRegistry {
    ContainerRegistry(StripQuotes(acr.server), StripQuotes(acr.userName), StripQuotes(acr.password))
  }

  function ImageRef(pool: PoolSection): ImageReference {
    ImageReference(StripQuotes(pool.publisher), StripQuotes(pool.offer), StripQuotes(pool.sku), StripQuotes(pool.version))
  }

  /** The drive letter or directory the file share is mounted at; the ACR platform is compared verbatim. */
  function MountPath(platform: string): string {
    if platform == "windows" then "S" else "azfiles"
  }

  function MountOptions(platform: string): string {
    if platform == "windows" then WindowsMountOptions else LinuxMountOptions
  }

  /** The pool `create_pool` asks for. */
  function NewPool(cfg: Config, useFileshare: bool): PoolSpec {
    var share := AzureFileShare(
      cfg.storage.accountName, cfg.storage.url, cfg.storage.accountKey,
      MountPath(cfg.acr.platform), MountOptions(cfg.acr.platform));
    PoolSpec(
      StripQuotes(cfg.pool.poolId), StripQuotes(cfg.pool.vmSize), ImageRef(cfg.pool),
      [ContainerImage(cfg.acr)], [Registry(cfg.acr)], StripQuotes(cfg.pool.agentSku),
      cfg.pool.tasksPerNode, cfg.pool.dedicatedNodes, cfg.pool.lowPriNodes,
      if useFileshare then Some([share]) else None)
  }

  // --- create_pool ---------------------------------------------------------------

  /** What `create_pool` sends: a pool addition, unless `skipIfExists` holds and the pool exists. */
  function CreatePoolOnBackend(st: State, cfg: Config, skipIfExists: bool, useFileshare: bool): Reply {
    var pool := NewPool(cfg, useFileshare);
    if !skipIfExists || pool.id !in st.pools then SendAddPool(st, pool) else Reply(st, None)
  }

  lemma CountAddPoolAppend(reqs: seq<Request>, req: Request)
    ensures CountAddPool(reqs + [req]) == CountAddPool(reqs) + (if req.AddPool? then 1 else 0)
  {
    assert (reqs + [req])[..|reqs|] == reqs;
  }

  /** `create_pool` sends exactly one pool addition when `skipIfExists` is false or the pool is
      absent, and none otherwise; only a forced addition of an existing pool is refused, and
      otherwise the pool exists afterwards. */
  lemma CreatePoolAddsIff(st: State, cfg: Config, skipIfExists: bool, useFileshare: bool)
    ensures var r := CreatePoolOnBackend(st, cfg, skipIfExists, useFileshare);
            var id := NewPool(cfg, useFileshare).id;
            && CountAddPool(r.state.requests)
               == CountAddPool(st.requests) + (if !skipIfExists || id !in st.pools then 1 else 0)
            && (r.fault.Some? <==> !skipIfExists && id in st.pools)
            && (r.fault.None? ==> id in r.state.pools)
            && (id !in st.pools ==> r.state.pools[id] == NewPool(cfg, useFileshare))
            && r.state.jobs == st.jobs
  {
    var pool := NewPool(cfg, useFileshare);
    if !skipIfExists || pool.id !in st.pools {
      CountAddPoolAppend(st.requests, AddPool(pool));
    }
  }

  /** Two `create_pool` calls with `skipIfExists` add the pool at most once, the second call
      sends nothing, and the pool keeps the mount settings of the first call. */
  lemma CreatePoolTwiceAddsAtMostOnce(st: State, cfg: Config, firstShare: bool, secondShare: bool)
    ensures var r1 := CreatePoolOnBackend(st, cfg, true, firstShare);
            var r2 := CreatePoolOnBackend(r1.state, cfg, true, secondShare);
            && CountAddPool(r2.state.requests) <= CountAddPool(st.requests) + 1
            && r2.state == r1.state
            && r2.fault.None?
  {
    CreatePoolAddsIff(st, cfg, true, firstShare);
    var r1 := CreatePoolOnBackend(st, cfg, true, firstShare);
    CreatePoolAddsIff(r1.state, cfg, true, secondShare);
  }

  // --- add_job ---------------------------------------------------------------------

  /** The value of `datetime.datetime.now()` that names a default job. */
  datatype DateTime = DateTime(year: nat, month: nat, day: nat, hour: nat, minute: nat, second: nat)

  /** The timestamp format of the source: year, month, day, hour, minute and second joined by `-`. */
  function Timestamp(t: DateTime): string {
    PadNat(t.year, 4) + "-" + PadNat(t.month, 2) + "-" + PadNat(t.day, 2) + "-"
    + PadNat(t.hour, 2) + "-" + PadNat(t.minute, 2) + "-" + PadNat(t.second, 2)
  }

  function DefaultJobId(configuredJobName: string, now: DateTime): string {
    "Job-" + StripQuotes(configuredJobName) + "-" + Timestamp(now)
  }

  /** The job id `add_job` uses: the given name, or one made from the configured job name and the time. */
  function JobIdFor(jobName: string, configuredJobName: string, now: DateTime): (id: string)
    ensures jobName != "" ==> id == jobName
    ensures jobName == "" ==> StartsWith(id, "Job-" + StripQuotes(configuredJobName) + "-")
    ensures jobName == "" ==>
              && |id| == |"Job-" + StripQuotes(configuredJobName) + "-"| + |Timestamp(now)|
              && id[|id| - |Timestamp(now)|..] == Timestamp(now)
  {
    if jobName != "" then jobName else DefaultJobId(configuredJobName, now)
  }

  /** A time `datetime.datetime.now()` can return. */
  predicate ValidDateTime(t: DateTime) {
    1 <= t.year <= 9999 && 1 <= t.month <= 12 && 1 <= t.day <= 31 && t.hour < 24 && t.minute < 60 && t.second < 60
  }

  lemma PadTwo(n: nat)
    requires n < 100
    ensures |PadNat(n, 2)| == 2
  {
    assert Pow10(2) == 100 by {
      assert Pow10(0) == 1;
      assert Pow10(1) == 10;
    }
    NatToStringLength(n, 2);
  }

  lemma PadFour(n: nat)
    requires n < 10000
    ensures |PadNat(n, 4)| == 4
  {
    assert Pow10(4) == 10000 by {
      assert Pow10(0) == 1;
      assert Pow10(1) == 10;
      assert Pow10(2) == 100;
      assert Pow10(3) == 1000;
    }
    NatToStringLength(n, 4);
  }

  /** Equal strings `a + "-" + p` with parts `p` of one length have equal parts. */
  lemma CancelDashPart(a1: string, p1: string, a2: string, p2: string)
    requires |p1| == |p2| && a1 + "-" + p1 == a2 + "-" + p2
    ensures a1 == a2 && p1 == p2
  {
    CancelSuffix(a1 + "-", p1, a2 + "-", p2);
    CancelSuffix(a1, "-", a2, "-");
  }

  /** Distinct times give distinct timestamps. */
  lemma TimestampInjective(t1: DateTime, t2: DateTime)
    requires ValidDateTime(t1) && ValidDateTime(t2) && Timestamp(t1) == Timestamp(t2)
    ensures t1 == t2
  {
    PadFour(t1.year); PadFour(t2.year);
    PadTwo(t1.month); PadTwo(t2.month);
    PadTwo(t1.day); PadTwo(t2.day);
    PadTwo(t1.hour); PadTwo(t2.hour);
    PadTwo(t1.minute); PadTwo(t2.minute);
    PadTwo(t1.second); PadTwo(t2.second);
    var y1, mo1, d1, h1, mi1 := PadNat(t1.year, 4), PadNat(t1.month, 2), PadNat(t1.day, 2), PadNat(t1.hour, 2), PadNat(t1.minute, 2);
    var y2, mo2, d2, h2, mi2 := PadNat(t2.year, 4), PadNat(t2.month, 2), PadNat(t2.day, 2), PadNat(t2.hour, 2), PadNat(t2.minute, 2);
    CancelDashPart(y1 + "-" + mo1 + "-" + d1 + "-" + h1 + "-" + mi1, PadNat(t1.second, 2),
                   y2 + "-" + mo2 + "-" + d2 + "-" + h2 + "-" + mi2, PadNat(t2.second, 2));
    CancelDashPart(y1 + "-" + mo1 + "-" + d1 + "-" + h1, mi1, y2 + "-" + mo2 + "-" + d2 + "-" + h2, mi2);
    CancelDashPart(y1 + "-" + mo1 + "-" + d1, h1, y2 + "-" + mo2 + "-" + d2, h2);
    CancelDashPart(y1 + "-" + mo1, d1, y2 + "-" + mo2, d2);
    CancelDashPart(y1, mo1, y2, mo2);
    PadNatValue(t1.year, 4); PadNatValue(t2.year, 4);
    PadNatValue(t1.month, 2); PadNatValue(t2.month, 2);
    PadNatValue(t1.day, 2); PadNatValue(t2.day, 2);
    PadNatValue(t1.hour, 2); PadNatValue(t2.hour, 2);
    PadNatValue(t1.minute, 2); PadNatValue(t2.minute, 2);
    PadNatValue(t1.second, 2); PadNatValue(t2.second, 2);
  }

  /** Default job ids made at distinct times are distinct, so a later `batch_main` does not
      collide with the job of an earlier one over the same configuration. */
  lemma DefaultJobIdsDistinct(configuredJobName: string, t1: DateTime, t2: DateTime)
    requires ValidDateTime(t1) && ValidDateTime(t2) && t1 != t2
    ensures DefaultJobId(configuredJobName, t1) != DefaultJobId(configuredJobName, t2)
  {
    if DefaultJobId(configuredJobName, t1) == DefaultJobId(configuredJobName, t2) {
      CancelPrefix("Job-" + StripQuotes(configuredJobName) + "-", Timestamp(t1), Timestamp(t2));
      TimestampInjective(t1, t2);
    }
  }

  // --- add_task ----------------------------------------------------------------------

  function StartDir(startDir: string): string {
    if startDir != "" then startDir else DefaultStartDir
  }

  /** The `container_run_options` of a task: the working directory inside the container and, with
      the file share in use, the volume that maps it into each task's log directory. */
  function RunOptions(publisher: string, startDir: string, useFileshare: bool): string {
    var d := StartDir(startDir);
    var windows := publisher == WindowsPublisher;
    var workdir := if windows then "-w C:\\" + d + "\\" else "--workdir /" + d + "/";
    if !useFileshare then workdir
    else workdir + " --volume " + (if windows then "S:\\:C:\\" + d + "\\logs" else "/azfileshare/:/" + d + "/logs")
  }

  /** The Docker arguments the run options stand for, word by word. */
  function RunOptionWords(publisher: string, startDir: string, useFileshare: bool): seq<string> {
    var d := StartDir(startDir);
    if publisher == WindowsPublisher then
      ["-w", "C:\\" + d + "\\"] + (if useFileshare then ["--volume", "S:\\:C:\\" + d + "\\logs"] else [])
    else
      ["--workdir", "/" + d + "/"] + (if useFileshare then ["--volume", "/azfileshare/:/" + d + "/logs"] else [])
  }

  lemma WordsOfTwo(a: string, b: string)
    requires IsToken(a) && IsToken(b)
    ensures Words(a + " " + b) == [a, b]
  {
    WordsCons(a, b);
    WordsOfToken(b);
  }

  lemma WordsOfFour(a: string, b: string, c: string, e: string)
    requires IsToken(a) && IsToken(b) && IsToken(c) && IsToken(e)
    ensures Words(a + " " + (b + " " + (c + " " + e))) == [a, b, c, e]
  {
    var r2 := c + " " + e;
    var r1 := b + " " + r2;
    WordsOfTwo(c, e);
    WordsCons(b, r2);
    WordsCons(a, r1);
  }

  lemma JoinRegroup(a: string, b: string, c: string)
    ensures a + " " + b + " --volume " + c == a + " " + (b + " " + ("--volume" + " " + c))
  {
    assert " --volume " == " " + "--volume" + " ";
  }

  /** The shape shared by both platforms: a flag and a directory, then optionally the volume
      flag and a mapping. */
  lemma RunOptionShape(flag: string, dir: string, mount: string, useFileshare: bool)
    requires IsToken(flag) && IsToken(dir) && IsToken(mount)
    ensures Words(if useFileshare then flag + " " + dir + " --volume " + mount else flag + " " + dir)
            == [flag, dir] + (if useFileshare then ["--volume", mount] else [])
  {
    if useFileshare {
      JoinRegroup(flag, dir, mount);
      WordsOfFour(flag, dir, "--volume", mount);
    } else {
      WordsOfTwo(flag, dir);
    }
  }

  lemma WindowsRunOptionTokens(d: string)
    requires IsToken(d)
    ensures IsToken("C:\\" + d + "\\") && IsToken("S:\\:C:\\" + d + "\\logs")
    ensures "-w C:\\" + d + "\\" == "-w" + " " + ("C:\\" + d + "\\")
  {
    TokenConcat("C:\\", d);
    TokenConcat("C:\\" + d, "\\");
    TokenConcat("S:\\:C:\\", d);
    TokenConcat("S:\\:C:\\" + d, "\\logs");
  }

  lemma LinuxRunOptionTokens(d: string)
    requires IsToken(d)
    ensures IsToken("/" + d + "/") && IsToken("/azfileshare/:/" + d + "/logs")
    ensures "--workdir /" + d + "/" == "--workdir" + " " + ("/" + d + "/")
  {
    TokenConcat("/", d);
    TokenConcat("/" + d, "/");
    TokenConcat("/azfileshare/:/", d);
    TokenConcat("/azfileshare/:/" + d, "/logs");
  }

  /** A start directory without whitespace reaches Docker as the words of `RunOptionWords`:
      splitting the run-option string gives back exactly the flag, the working directory and,
      with the file share, the volume flag and its mapping. */
  lemma RunOptionsWords(publisher: string, startDir: string, useFileshare: bool)
    requires startDir == "" || IsToken(startDir)
    ensures Words(RunOptions(publisher, startDir, useFileshare)) == RunOptionWords(publisher, startDir, useFileshare)
  {
    var d := StartDir(startDir);
    assert IsToken(d);
    if publisher == WindowsPublisher {
      WindowsRunOptionTokens(d);
      RunOptionShape("-w", "C:\\" + d + "\\", "S:\\:C:\\" + d + "\\logs", useFileshare);
    } else {
      LinuxRunOptionTokens(d);
      RunOptionShape("--workdir", "/" + d + "/", "/azfileshare/:/" + d + "/logs", useFileshare);
    }
  }

  /** The Batch task that `add_task` submits. */
  function TaskFor(cfg: Config, workspace: string, accessKey: string, useFileshare: bool,
                   command: string, name: string, startDir: string): TaskSpec
  {
    TaskSpec(
      name, command, ContainerImage(cfg.acr), RunOptions(cfg.pool.publisher, startDir, useFileshare),
      [EnvSetting("SIM_WORKSPACE", workspace), EnvSetting("SIM_ACCESS_KEY", accessKey)],
      AutoUser(Admin, TaskScope))
  }

  // --- batch_main's task loop --------------------------------------------------------

  function TaskName(i: nat, configuredJobName: string): string {
    "job_number" + NatToString(i) + "_" + StripQuotes(configuredJobName)
  }

  /** Different task numbers give different task names. */
  lemma TaskNamesDistinct(i: nat, j: nat, configuredJobName: string)
    requires TaskName(i, configuredJobName) == TaskName(j, configuredJobName)
    ensures i == j
  {
    var a, b, tail := NatToString(i), NatToString(j), "_" + StripQuotes(configuredJobName);
    assert "job_number" + a + "_" + StripQuotes(configuredJobName) == "job_number" + (a + tail);
    assert "job_number" + b + "_" + StripQuotes(configuredJobName) == "job_number" + (b + tail);
    CancelPrefix("job_number", a + tail, b + tail);
    assert |a| == |b|;
    assert a == (a + tail)[..|a|] == (b + tail)[..|b|] == b;
    NatToStringInjective(i, j);
  }

  function TaskCommand(command: string): string {
    if command != "" then command else DefaultCommand
  }

  /** `range(int(NUM_TASKS))` is empty for a negative count. */
  function TaskCount(cfg: Config): nat {
    if cfg.pool.numTasks > 0 then cfg.pool.numTasks else 0
  }

  /** The first `n` tasks of `batch_main`'s submission loop. */
  function SubmittedTasks(cfg: Config, workspace: string, accessKey: string, useFileshare: bool,
                          command: string, startDir: string, n: nat): seq<TaskSpec>
  {
    seq(n, i requires 0 <= i < n =>
      TaskFor(cfg, workspace, accessKey, useFileshare, TaskCommand(command), TaskName(i, cfg.pool.jobName), startDir))
  }

  /** The submitted tasks: `n` of them with pairwise distinct names `job_number{i}_{JOB_NAME}`,
      the given command or "python main.py", exactly the two simulator settings in their
      environment and an elevated task-scoped auto user. */
  lemma SubmittedTasksFacts(cfg: Config, workspace: string, accessKey: string, useFileshare: bool,
                            command: string, startDir: string, n: nat)
    ensures var ts := SubmittedTasks(cfg, workspace, accessKey, useFileshare, command, startDir, n);
            && |ts| == n
            && (forall i, j :: 0 <= i < j < n ==> ts[i].id != ts[j].id)
            && (forall i :: 0 <= i < n ==> ts[i].id == TaskName(i, cfg.pool.jobName))
            && (forall i :: 0 <= i < n ==> ts[i].commandLine == (if command == "" then "python main.py" else command))
            && (forall i :: 0 <= i < n ==>
                  |ts[i].environmentSettings| == 2
                  && ts[i].environmentSettings[0] == EnvSetting("SIM_WORKSPACE", workspace)
                  && ts[i].environmentSettings[1] == EnvSetting("SIM_ACCESS_KEY", accessKey)
                  && ts[i].userIdentity == AutoUser(Admin, TaskScope))
  {
    var ts := SubmittedTasks(cfg, workspace, accessKey, useFileshare, command, startDir, n);
    forall i, j | 0 <= i < j < n
      ensures ts[i].id != ts[j].id
    {
      if ts[i].id == ts[j].id {
        TaskNamesDistinct(i, j, cfg.pool.jobName);
      }
    }
  }

  function AddTaskRequests(jobId: string, tasks: seq<TaskSpec>): seq<Request> {
    seq(|tasks|, i requires 0 <= i < |tasks| => AddTask(jobId, tasks[i]))
  }

  /** The service once `tasks` have been added, in order, to the fresh job `jobId`. */
  function WithTasks(st: State, jobId: string, poolId: string, tasks: seq<TaskSpec>): State {
    st.(jobs := st.jobs[jobId := Job(poolId, tasks)], requests := st.requests + AddTaskRequests(jobId, tasks))
  }

  /** One more pass of the submission loop appends the next task. */
  lemma SubmittedTasksStep(cfg: Config, workspace: string, accessKey: string, useFileshare: bool,
                           command: string, startDir: string, i: nat)
    ensures SubmittedTasks(cfg, workspace, accessKey, useFileshare, command, startDir, i + 1)
            == SubmittedTasks(cfg, workspace, accessKey, useFileshare, command, startDir, i)
               + [TaskFor(cfg, workspace, accessKey, useFileshare, TaskCommand(command), TaskName(i, cfg.pool.jobName), startDir)]
  {
  }

  /** The next task's name is not among those already submitted. */
  lemma NextTaskNameFresh(cfg: Config, workspace: string, accessKey: string, useFileshare: bool,
                          command: string, startDir: string, i: nat)
    ensures var ts := SubmittedTasks(cfg, workspace, accessKey, useFileshare, command, startDir, i);
            forall k :: 0 <= k < i ==> ts[k].id != TaskName(i, cfg.pool.jobName)
  {
    var ts := SubmittedTasks(cfg, workspace, accessKey, useFileshare, command, startDir, i);
    forall k | 0 <= k < i
      ensures ts[k].id != TaskName(i, cfg.pool.jobName)
    {
      if ts[k].id == TaskName(i, cfg.pool.jobName) {
        TaskNamesDistinct(k, i, cfg.pool.jobName);
      }
    }
  }

  /** Adding a task with a fresh id to the job extends it and the request log by that task. */
  lemma AddNextTask(st: State, jobId: string, poolId: string, tasks: seq<TaskSpec>, t: TaskSpec)
    requires forall k :: 0 <= k < |tasks| ==> tasks[k].id != t.id
    ensures SendAddTask(WithTasks(st, jobId, poolId, tasks), jobId, t) == Reply(WithTasks(st, jobId, poolId, tasks + [t]), None)
  {
    assert AddTaskRequests(jobId, tasks + [t]) == AddTaskRequests(jobId, tasks) + [Request.AddTask(jobId, t)];
  }

  // --- wait_for_tasks_to_complete ---------------------------------------------------

  datatype TaskState = Active | Preparing | Running | Completed

  /** One pass of the wait loop: the seconds elapsed when the deadline is checked, and the
      states of the job's tasks that the listing in that pass returns. */
  datatype Poll = Poll(elapsed: int, states: seq<TaskState>)

  predicate AllCompleted(states: seq<TaskState>) {
    forall i :: 0 <= i < |states| ==> states[i] == Completed
  }

  /** How the wait ends: the index of the pass that found every task completed, or the number
      of listings made before the deadline passed. */
  datatype WaitOutcome = CompletedAt(pass: nat) | TimedOutAfter(listings: nat)

  /** The wait loop from pass `k` on. */
  function WaitFrom(polls: seq<Poll>, timeout: int, k: nat): WaitOutcome
    requires k <= |polls|
    decreases |polls| - k
  {
    if k == |polls| || polls[k].elapsed >= timeout then TimedOutAfter(k)
    else if AllCompleted(polls[k].states) then CompletedAt(k)
    else WaitFrom(polls, timeout, k + 1)
  }

  /** The wait succeeds exactly at the first pass before the deadline whose listing has no
      incomplete task. */
  lemma {:induction false} WaitCompletesAtFirstCompletePass(polls: seq<Poll>, timeout: int, k: nat, n: nat)
    requires k <= |polls|
    ensures WaitFrom(polls, timeout, k) == CompletedAt(n) <==>
              && k <= n < |polls|
              && polls[n].elapsed < timeout && AllCompleted(polls[n].states)
              && (forall j :: k <= j < n ==> polls[j].elapsed < timeout && !AllCompleted(polls[j].states))
    decreases |polls| - k
  {
    if k < |polls| && polls[k].elapsed < timeout && !AllCompleted(polls[k].states) {
      WaitCompletesAtFirstCompletePass(polls, timeout, k + 1, n);
    }
  }

  /** The wait fails exactly when the deadline passes (or the readings run out) after `n`
      listings, all of which showed an incomplete task. */
  lemma {:induction false} WaitTimesOutAfterIncompletePasses(polls: seq<Poll>, timeout: int, k: nat, n: nat)
    requires k <= |polls|
    ensures WaitFrom(polls, timeout, k) == TimedOutAfter(n) <==>
              && k <= n <= |polls|
              && (n == |polls| || polls[n].elapsed >= timeout)
              && (forall j :: k <= j < n ==> polls[j].elapsed < timeout && !AllCompleted(polls[j].states))
    decreases |polls| - k
  {
    if k < |polls| && polls[k].elapsed < timeout && !AllCompleted(polls[k].states) {
      WaitTimesOutAfterIncompletePasses(polls, timeout, k + 1, n);
    }
  }

  // --- batch_main ---------------------------------------------------------------------

  datatype BatchFault =
    | Service(fault: Fault)                        // BatchErrorException from the service
    | MissingJobId                                 // the client refuses `job.delete(None)`
    | PriceLookupFailed                            // the price lookup raised while `show_price` is set
    | TasksIncomplete(timeout: int)                // RuntimeError of the wait
    | LogCallRejected                              // TypeError of a `logger.info` call given `end=`
    | InvalidLogFlag(text: string)                 // ValueError of `strtobool`
    | Planning(planError: PoolPlanning.PlanError)  // raised by `run_tasks` before anything is created

  /** What `batch_main` leaves behind and what it raises, once the wait's own fault is fixed:
      the pool is created or re-used, a job named from the configuration and the time is added,
      and then, unless the price lookup fails, one task per simulator is submitted; a wait that
      raises `waitFault` ends the call with it. */
  function BatchMainOutcomeWith(st: State, cfg: Config, workspace: string, accessKey: string, command: string,
                                waitForTasks: bool, logIterations: bool, workdir: string,
                                showPrice: bool, priceLookupFails: bool, now: DateTime, waitFault: Option<BatchFault>)
    : (Result<(), BatchFault>, State)
  {
    var created := CreatePoolOnBackend(st, cfg, true, logIterations);
    var poolId := NewPool(cfg, logIterations).id;
    var jobId := DefaultJobId(cfg.pool.jobName, now);
    var added := SendAddJob(created.state, jobId, poolId);
    if added.fault.Some? then (Err(Service(added.fault.value)), added.state)
    else if showPrice && priceLookupFails then (Err(PriceLookupFailed), added.state)
    else
      var tasks := SubmittedTasks(cfg, workspace, accessKey, logIterations, command, workdir, TaskCount(cfg));
      var done := WithTasks(added.state, jobId, poolId, tasks);
      if waitForTasks && waitFault.Some? then (Err(waitFault.value), done)
      else (Ok(()), done)
  }

  /** `batch_main` as written: the wait raises `LogCallRejected` before it lists anything. */
  function BatchMainOutcome(st: State, cfg: Config, workspace: string, accessKey: string, command: string,
                            waitForTasks: bool, logIterations: bool, workdir: string,
                            showPrice: bool, priceLookupFails: bool, now: DateTime)
    : (Result<(), BatchFault>, State)
  {
    BatchMainOutcomeWith(st, cfg, workspace, accessKey, command, waitForTasks, logIterations, workdir,
                         showPrice, priceLookupFails, now, Some(LogCallRejected))
  }

  /** `batch_main` as intended: the wait polls (`polls`) and raises only when the deadline passes. */
  function BatchMainOutcomeIntended(st: State, cfg: Config, workspace: string, accessKey: string, command: string,
                                    waitForTasks: bool, logIterations: bool, workdir: string,
                                    showPrice: bool, priceLookupFails: bool, now: DateTime, polls: seq<Poll>)
    : (Result<(), BatchFault>, State)
  {
    BatchMainOutcomeWith(st, cfg, workspace, accessKey, command, waitForTasks, logIterations, workdir,
                         showPrice, priceLookupFails, now,
                         if WaitFrom(polls, BatchMainTimeout, 0).TimedOutAfter? then Some(TasksIncomplete(BatchMainTimeout)) else None)
  }

  /** Whatever the wait raises: a job id already in use is the only service fault, and once the
      job is added and priced, the pool exists and the job holds exactly `NUM_TASKS` tasks with
      distinct names `job_number{i}_{JOB_NAME}`, after which only the wait can fail. */
  lemma BatchMainOutcomeWithFacts(st: State, cfg: Config, workspace: string, accessKey: string, command: string,
                                  waitForTasks: bool, logIterations: bool, workdir: string,
                                  showPrice: bool, priceLookupFails: bool, now: DateTime, waitFault: Option<BatchFault>)
    requires waitFault.Some? ==> !waitFault.value.Service? && !waitFault.value.PriceLookupFailed?
    ensures var out := BatchMainOutcomeWith(st, cfg, workspace, accessKey, command, waitForTasks, logIterations,
                                            workdir, showPrice, priceLookupFails, now, waitFault);
            var jobId := DefaultJobId(cfg.pool.jobName, now);
            var poolId := NewPool(cfg, logIterations).id;
            && (out.0 == Err(Service(JobExists(jobId))) <==> jobId in st.jobs)
            && (out.0 == Err(PriceLookupFailed) <==> jobId !in st.jobs && showPrice && priceLookupFails)
            && (out.0.Ok? <==>
                  jobId !in st.jobs && !(showPrice && priceLookupFails) && !(waitForTasks && waitFault.Some?))
            && (jobId !in st.jobs && !(showPrice && priceLookupFails) && waitForTasks && waitFault.Some? ==>
                  out.0 == Err(waitFault.value))
            && (jobId !in st.jobs && !(showPrice && priceLookupFails) ==>
                  && poolId in out.1.pools
                  && jobId in out.1.jobs
                  && out.1.jobs[jobId].poolId == poolId
                  && |out.1.jobs[jobId].tasks| == TaskCount(cfg)
                  && (forall i :: 0 <= i < TaskCount(cfg) ==> out.1.jobs[jobId].tasks[i].id == TaskName(i, cfg.pool.jobName))
                  && (forall i, j :: 0 <= i < j < TaskCount(cfg) ==>
                        out.1.jobs[jobId].tasks[i].id != out.1.jobs[jobId].tasks[j].id))
  {
    CreatePoolAddsIff(st, cfg, true, logIterations);
    SubmittedTasksFacts(cfg, workspace, accessKey, logIterations, command, workdir, TaskCount(cfg));
  }

  /** `batch_main` as written fails on a job id already in use, on a failed price lookup and on
      every run that waits, and on nothing else; the tasks are submitted before the wait fails. */
  lemma BatchMainOutcomeFacts(st: State, cfg: Config, workspace: string, accessKey: string, command: string,
                              waitForTasks: bool, logIterations: bool, workdir: string,
                              showPrice: bool, priceLookupFails: bool, now: DateTime)
    ensures var out := BatchMainOutcome(st, cfg, workspace, accessKey, command, waitForTasks, logIterations,
                                        workdir, showPrice, priceLookupFails, now);
            var jobId := DefaultJobId(cfg.pool.jobName, now);
            var poolId := NewPool(cfg, logIterations).id;
            && (out.0 == Err(Service(JobExists(jobId))) <==> jobId in st.jobs)
            && (out.0 == Err(PriceLookupFailed) <==> jobId !in st.jobs && showPrice && priceLookupFails)
            && (out.0 == Err(LogCallRejected) <==> jobId !in st.jobs && !(showPrice && priceLookupFails) && waitForTasks)
            && (out.0.Ok? <==> jobId !in st.jobs && !(showPrice && priceLookupFails) && !waitForTasks)
            && (jobId !in st.jobs && !(showPrice && priceLookupFails) ==>
                  && poolId in out.1.pools
                  && jobId in out.1.jobs
                  && out.1.jobs[jobId].poolId == poolId
                  && |out.1.jobs[jobId].tasks| == TaskCount(cfg)
                  && (forall i :: 0 <= i < TaskCount(cfg) ==> out.1.jobs[jobId].tasks[i].id == TaskName(i, cfg.pool.jobName))
                  && (forall i, j :: 0 <= i < j < TaskCount(cfg) ==>
                        out.1.jobs[jobId].tasks[i].id != out.1.jobs[jobId].tasks[j].id))
  {
    BatchMainOutcomeWithFacts(st, cfg, workspace, accessKey, command, waitForTasks, logIterations, workdir,
                              showPrice, priceLookupFails, now, Some(LogCallRejected));
  }

  /** `batch_main` as intended fails on a job id already in use, on a failed price lookup and on
      a wait that times out, and on nothing else, with the same tasks submitted. */
  lemma BatchMainIntendedFacts(st: State, cfg: Config, workspace: string, accessKey: string, command: string,
                               waitForTasks: bool, logIterations: bool, workdir: string,
                               showPrice: bool, priceLookupFails: bool, now: DateTime, polls: seq<Poll>)
    ensures var out := BatchMainOutcomeIntended(st, cfg, workspace, accessKey, command, waitForTasks, logIterations,
                                                workdir, showPrice, priceLookupFails, now, polls);
            var jobId := DefaultJobId(cfg.pool.jobName, now);
            var poolId := NewPool(cfg, logIterations).id;
            && (out.0 == Err(Service(JobExists(jobId))) <==> jobId in st.jobs)
            && (out.0 == Err(PriceLookupFailed) <==> jobId !in st.jobs && showPrice && priceLookupFails)
            && (out.0 == Err(TasksIncomplete(BatchMainTimeout)) <==>
                  jobId !in st.jobs && !(showPrice && priceLookupFails)
                  && waitForTasks && WaitFrom(polls, BatchMainTimeout, 0).TimedOutAfter?)
            && (out.0.Ok? <==>
                  jobId !in st.jobs && !(showPrice && priceLookupFails)
                  && (!waitForTasks || WaitFrom(polls, BatchMainTimeout, 0).CompletedAt?))
            && (jobId !in st.jobs && !(showPrice && priceLookupFails) ==>
                  && poolId in out.1.pools
                  && jobId in out.1.jobs
                  && out.1.jobs[jobId].poolId == poolId
                  && |out.1.jobs[jobId].tasks| == TaskCount(cfg))
  {
    BatchMainOutcomeWithFacts(st, cfg, workspace, accessKey, command, waitForTasks, logIterations, workdir, showPrice,
                              priceLookupFails, now,
                              if WaitFrom(polls, BatchMainTimeout, 0).TimedOutAfter? then Some(TasksIncomplete(BatchMainTimeout)) else None);
  }

  /** The two differ on every run that waits for a job whose tasks all complete at once: as
      written it raises `LogCallRejected`, as intended it succeeds at the first pass. */
  lemma WaitingBatchMainRaises(st: State, cfg: Config, workspace: string, accessKey: string, command: string,
                               logIterations: bool, workdir: string, now: DateTime)
    requires DefaultJobId(cfg.pool.jobName, now) !in st.jobs
    ensures BatchMainOutcome(st, cfg, workspace, accessKey, command, true, logIterations, workdir,
                             false, false, now).0 == Err(LogCallRejected)
    ensures BatchMainOutcomeIntended(st, cfg, workspace, accessKey, command, true, logIterations, workdir,
                                     false, false, now, [Poll(0, [])]).0 == Ok(())
  {
    BatchMainOutcomeFacts(st, cfg, workspace, accessKey, command, true, logIterations, workdir, false, false, now);
    BatchMainIntendedFacts(st, cfg, workspace, accessKey, command, true, logIterations, workdir, false, false, now,
                           [Poll(0, [])]);
  }

  function DeletePoolRequests(ids: seq<string>): seq<Request> {
    seq(|ids|, i requires 0 <= i < |ids| => DeletePool(ids[i]))
  }

  function DeleteJobRequests(ids: seq<string>): seq<Request> {
    seq(|ids|, i requires 0 <= i < |ids| => DeleteJob(ids[i]))
  }

  // --- the orchestrator object ------------------------------------------------------

  class AzureBatchContainers {
    const config: Config
    const workspace: string
    const accessKey: string
    var useFileshare: bool
    var mountPath: Option<string>
    var poolId: Option<string>
    var jobId: Option<string>
    var taskId: Option<string>
    var backend: State

    /** The workspace and access key are read from the `.env` file (`dotEnv`) unless both are given. */
    constructor (config: Config, workspace: string, accessKey: string, dotEnv: (string, string), backend: State)
      ensures this.config == config && this.backend == backend
      ensures workspace != "" && accessKey != "" ==> this.workspace == workspace && this.accessKey == accessKey
      ensures !(workspace != "" && accessKey != "") ==> this.workspace == dotEnv.0 && this.accessKey == dotEnv.1
      ensures !useFileshare && mountPath == None && poolId == None && jobId == None && taskId == None
    {
      this.config := config;
      if workspace != "" && accessKey != "" {
        this.workspace, this.accessKey := workspace, accessKey;
      } else {
        this.workspace, this.accessKey := dotEnv.0, dotEnv.1;
      }
      useFileshare := false;
      mountPath, poolId, jobId, taskId := None, None, None, None;
      this.backend := backend;
    }

    method CreatePool(skipIfExists: bool, useFileshare: bool) returns (fault: Option<Fault>)
      modifies this`useFileshare, this`mountPath, this`poolId, this`backend
      ensures this.useFileshare == useFileshare
      ensures mountPath == Some(MountPath(config.acr.platform))
      ensures Reply(backend, fault) == CreatePoolOnBackend(old(backend), config, skipIfExists, useFileshare)
      ensures poolId == if fault.None? then Some(NewPool(config, useFileshare).id) else old(poolId)
    {
      var pool := NewPool(config, useFileshare);
      this.useFileshare := useFileshare;
      mountPath := Some(MountPath(config.acr.platform));
      fault := None;
      if !skipIfExists || pool.id !in backend.pools {
        var reply := SendAddPool(backend, pool);
        backend, fault := reply.state, reply.fault;
        if fault.Some? {
          return;
        }
      }
      poolId := Some(pool.id);
    }

    /** The job id is recorded before the service is asked, so it is set even when the addition fails. */
    method AddJob(jobName: string, now: DateTime) returns (fault: Option<Fault>)
      requires poolId.Some?
      modifies this`jobId, this`backend
      ensures jobId == Some(JobIdFor(jobName, config.pool.jobName, now))
      ensures Reply(backend, fault) == SendAddJob(old(backend), jobId.value, poolId.value)
    {
      jobId := Some(JobIdFor(jobName, config.pool.jobName, now));
      var reply := SendAddJob(backend, jobId.value, poolId.value);
      backend, fault := reply.state, reply.fault;
    }

    /** `delete_job`: without a job id the client refuses the call before sending anything. */
    method DeleteJob(jobName: Option<string>) returns (fault: Option<BatchFault>)
      modifies this`backend
      ensures jobName.None? ==> fault == Some(MissingJobId) && backend == old(backend)
      ensures jobName.Some? ==>
                var reply := SendDeleteJob(old(backend), jobName.value);
                backend == reply.state && fault == if reply.fault.Some? then Some(Service(reply.fault.value)) else None
    {
      if jobName.None? {
        return Some(MissingJobId);
      }
      var reply := SendDeleteJob(backend, jobName.value);
      backend := reply.state;
      fault := if reply.fault.Some? then Some(Service(reply.fault.value)) else None;
    }

    method AddTask(command: string, name: string, startDir: string) returns (fault: Option<Fault>)
      requires jobId.Some? && poolId.Some?
      modifies this`taskId, this`backend
      ensures taskId == Some(name)
      ensures Reply(backend, fault)
              == SendAddTask(old(backend), jobId.value, TaskFor(config, workspace, accessKey, useFileshare, command, name, startDir))
    {
      taskId := Some(name);
      var task := TaskFor(config, workspace, accessKey, useFileshare, command, name, startDir);
      var reply := SendAddTask(backend, jobId.value, task);
      backend, fault := reply.state, reply.fault;
    }

    /** `wait_for_tasks_to_complete` as written: its first statement after the deadline is set
        is a `logger.info` call given the `print` keyword `end`, which `Logger._log` does not
        accept; INFO is enabled by the module's logging set-up, so the call raises TypeError
        before the job's tasks are listed even once. */
    method WaitForTasksToComplete(timeout: int) returns (r: Result<bool, BatchFault>, listings: nat)
      ensures r == Err(LogCallRejected) && listings == 0
    {
      return Err(LogCallRejected), 0;
    }

    /** The wait as intended: polls the job's tasks until all are completed or the clock passes
        the deadline; `polls` holds the clock reading and the listing of each pass, the last
        reading past the deadline. Returns the outcome and the number of listings made. */
    method WaitForTasksToCompleteIntended(timeout: int, polls: seq<Poll>) returns (r: Result<bool, BatchFault>, listings: nat)
      requires jobId.Some?
      requires |polls| > 0 && polls[|polls| - 1].elapsed >= timeout
      ensures r.Ok? ==> r.value && listings > 0 && WaitFrom(polls, timeout, 0) == CompletedAt(listings - 1)
      ensures r.Err? ==> r.error == TasksIncomplete(timeout) && WaitFrom(polls, timeout, 0) == TimedOutAfter(listings)
    {
      var k := 0;
      while polls[k].elapsed < timeout
        invariant 0 <= k < |polls|
        invariant WaitFrom(polls, timeout, k) == WaitFrom(polls, timeout, 0)
        decreases |polls| - k
      {
        if AllCompleted(polls[k].states) {
          return Ok(true), k + 1;
        }
        k := k + 1;
      }
      return Err(TasksIncomplete(timeout)), k;
    }

    /** `batch_main`; `priceLookupFails` stands for the outcome of the price lookup, which is not
        caught. */
    method BatchMain(command: string, waitForTasks: bool, logIterations: bool, workdir: string,
                     showPrice: bool, priceLookupFails: bool, now: DateTime)
      returns (r: Result<(), BatchFault>)
      modifies this`useFileshare, this`mountPath, this`poolId, this`jobId, this`taskId, this`backend
      ensures (r, backend) == BatchMainOutcome(old(backend), config, workspace, accessKey, command, waitForTasks,
                                               logIterations, workdir, showPrice, priceLookupFails, now)
      ensures poolId == Some(NewPool(config, logIterations).id) && useFileshare == logIterations
      ensures jobId == Some(DefaultJobId(config.pool.jobName, now))
      ensures mountPath == Some(MountPath(config.acr.platform))
      ensures taskId == if (r.Ok? || r.error.LogCallRejected?) && TaskCount(config) > 0
                        then Some(TaskName(TaskCount(config) - 1, config.pool.jobName)) else old(taskId)
    {
      ghost var created := CreatePoolOnBackend(backend, config, true, logIterations);
      CreatePoolAddsIff(backend, config, true, logIterations);
      var createFault := CreatePool(true, logIterations);
      assert createFault.None?;
      var addFault := AddJob("", now);
      var jid, pid := jobId.value, poolId.value;
      assert jid == DefaultJobId(config.pool.jobName, now) && pid == NewPool(config, logIterations).id;
      assert Reply(backend, addFault) == SendAddJob(created.state, jid, pid);
      if addFault.Some? {
        return Err(Service(addFault.value));
      }
      if showPrice && priceLookupFails {
        return Err(PriceLookupFailed);
      }
      SubmitTasks(command, workdir);
      r := Ok(());
      if waitForTasks {
        var waited, _ := WaitForTasksToComplete(BatchMainTimeout);
        if waited.Err? {
          r := Err(waited.error);
        }
      }
    }

    /** The loop of `batch_main` that submits `int(NUM_TASKS)` tasks to the current job; the
        default command replaces an empty one. No submission is refused, since the job starts
        empty and all task names are pairwise distinct. */
    method SubmitTasks(command: string, workdir: string)
      requires jobId.Some? && poolId.Some?
      requires jobId.value in backend.jobs && backend.jobs[jobId.value] == Job(poolId.value, [])
      modifies this`taskId, this`backend
      ensures backend == WithTasks(old(backend), jobId.value, poolId.value,
                                   SubmittedTasks(config, workspace, accessKey, useFileshare, command, workdir, TaskCount(config)))
      ensures taskId == if TaskCount(config) > 0 then Some(TaskName(TaskCount(config) - 1, config.pool.jobName)) else old(taskId)
    {
      ghost var start := backend;
      var jid, pid := jobId.value, poolId.value;
      var n := TaskCount(config);
      var cmd := command;
      var i := 0;
      assert WithTasks(start, jid, pid, SubmittedTasks(config, workspace, accessKey, useFileshare, command, workdir, 0)) == start;
      while i < n
        invariant 0 <= i <= n
        invariant TaskCommand(cmd) == TaskCommand(command)
        invariant backend == WithTasks(start, jid, pid, SubmittedTasks(config, workspace, accessKey, useFileshare, command, workdir, i))
        invariant taskId == if i > 0 then Some(TaskName(i - 1, config.pool.jobName)) else old(taskId)
      {
        if cmd == "" {
          cmd := DefaultCommand;
        }
        var name := TaskName(i, config.pool.jobName);
        SubmittedTasksStep(config, workspace, accessKey, useFileshare, command, workdir, i);
        NextTaskNameFresh(config, workspace, accessKey, useFileshare, command, workdir, i);
        AddNextTask(start, jid, pid, SubmittedTasks(config, workspace, accessKey, useFileshare, command, workdir, i),
                    TaskFor(config, workspace, accessKey, useFileshare, cmd, name, workdir));
        var fault := AddTask(cmd, name, workdir);
        i := i + 1;
      }
    }

    /** `delete_pool`: with `deleteAll` every listed pool is deleted, one call per pool, in the
        listing's order; otherwise the named pool, or the configured POOL_ID taken verbatim. */
    method DeletePool(poolName: Option<string>, deleteAll: bool) returns (fault: Option<Fault>, deleted: seq<string>)
      modifies this`backend
      ensures deleteAll ==>
                && fault.None?
                && backend.pools == map[]
                && backend.jobs == old(backend.jobs)
                && |deleted| == |old(backend.pools).Keys|
                && (forall id :: id in deleted <==> id in old(backend.pools))
                && (forall i, j :: 0 <= i < j < |deleted| ==> deleted[i] != deleted[j])
                && backend.requests == old(backend.requests) + DeletePoolRequests(deleted)
      ensures !deleteAll ==>
                && deleted == []
                && Reply(backend, fault) == SendDeletePool(old(backend), if poolName.Some? then poolName.value else config.pool.poolId)
    {
      deleted := [];
      if deleteAll {
        var remaining := backend.pools.Keys;
        while remaining != {}
          invariant remaining == backend.pools.Keys
          invariant forall id :: id in old(backend.pools) <==> id in remaining || id in deleted
          invariant forall id :: id in remaining ==> id !in deleted
          invariant |deleted| + |remaining| == |old(backend.pools).Keys|
          invariant forall i, j :: 0 <= i < j < |deleted| ==> deleted[i] != deleted[j]
          invariant backend.jobs == old(backend.jobs)
          invariant backend.requests == old(backend.requests) + DeletePoolRequests(deleted)
          decreases |remaining|
        {
          var id :| id in remaining;
          var reply := SendDeletePool(backend, id);
          backend := reply.state;
          deleted := deleted + [id];
          remaining := remaining - {id};
        }
        assert backend.pools.Keys == {};
        return None, deleted;
      }
      var name := if poolName.Some? then poolName.value else config.pool.poolId;
      var reply := SendDeletePool(backend, name);
      backend, fault := reply.state, reply.fault;
    }

    /** `delete_all_tasks`: tries to delete every listed job, ignoring refusals; returns the ids tried. */
    method DeleteAllTasks() returns (attempted: seq<string>)
      modifies this`backend
      ensures backend.jobs == map[] && backend.pools == old(backend.pools)
      ensures |attempted| == |old(backend.jobs).Keys|
      ensures forall id :: id in attempted <==> id in old(backend.jobs)
      ensures forall i, j :: 0 <= i < j < |attempted| ==> attempted[i] != attempted[j]
      ensures backend.requests == old(backend.requests) + DeleteJobRequests(attempted)
    {
      attempted := [];
      var remaining := backend.jobs.Keys;
      while remaining != {}
        invariant remaining == backend.jobs.Keys
        invariant forall id :: id in old(backend.jobs) <==> id in remaining || id in attempted
        invariant forall id :: id in remaining ==> id !in attempted
        invariant |attempted| + |remaining| == |old(backend.jobs).Keys|
        invariant forall i, j :: 0 <= i < j < |attempted| ==> attempted[i] != attempted[j]
        invariant backend.pools == old(backend.pools)
        invariant backend.requests == old(backend.requests) + DeleteJobRequests(attempted)
        decreases |remaining|
      {
        var id :| id in remaining;
        var reply := SendDeleteJob(backend, id);
        backend := reply.state;
        attempted := attempted + [id];
        remaining := remaining - {id};
      }
      assert backend.jobs.Keys == {};
    }

    /** `resize_pool`: the named pool, or the configured POOL_ID taken verbatim. */
    method ResizePool(poolName: Option<string>, dedicatedNodes: int, lowPriNodes: int) returns (fault: Option<Fault>)
      modifies this`backend
      ensures Reply(backend, fault)
              == SendResizePool(old(backend), if poolName.Some? then poolName.value else config.pool.poolId, dedicatedNodes, lowPriNodes)
    {
      var name := if poolName.Some? then poolName.value else config.pool.poolId;
      var reply := SendResizePool(backend, name, dedicatedNodes, lowPriNodes);
      backend, fault := reply.state, reply.fault;
    }
  }

  // --- run_tasks ---------------------------------------------------------------------

  /** The `log_iterations` argument of `run_tasks`: a flag, or text that `strtobool` reads. */
  datatype LogFlag = Flag(on: bool) | FlagText(text: string)

  const TrueSpellings: seq<string> := ["y", "yes", "t", "true", "on", "1"]
  const FalseSpellings: seq<string> := ["n", "no", "f", "false", "off", "0"]

  /** `distutils.util.strtobool`, or None where it raises ValueError. */
  function StrToBool(text: string): Option<bool> {
    var t := Lower(text);
    if t in TrueSpellings then Some(true) else if t in FalseSpellings then Some(false) else None
  }

  function LogIterationsValue(flag: LogFlag): Option<bool> {
    match flag
    case Flag(on) => Some(on)
    case FlagText(text) => StrToBool(text)
  }

  /** The workspace and access key the constructor settles on. */
  function Credentials(workspace: string, accessKey: string, dotEnv: (string, string)): (string, string) {
    if workspace != "" && accessKey != "" then (workspace, accessKey) else dotEnv
  }

  function AcrDefaultsOf(cfg: Config): PoolPlanning.AcrDefaults {
    PoolPlanning.AcrDefaults(cfg.acr.platform, cfg.acr.imageName, cfg.acr.imageVersion)
  }

  /** The configuration `run_tasks` writes back: the planned POOL entries, the Windows image
      entries for a Windows platform, and the image name, version and platform of the ACR section. */
  function ConfigAfterPlan(cfg: Config, plan: PoolPlanning.PoolPlan, win: WindowsPool): Config {
    var pool := cfg.pool.(
      numTasks := plan.numTasks, tasksPerNode := plan.tasksPerNode,
      lowPriNodes := plan.lowPriNodes, dedicatedNodes := plan.dedicatedNodes,
      vmSize := plan.vmSize, poolId := plan.poolId, jobName := plan.jobName);
    var pool' :=
      if plan.windowsImage then
        pool.(publisher := win.publisher, offer := win.offer, sku := win.sku, version := win.version, agentSku := win.agentSku)
      else pool;
    Config(pool', cfg.acr.(imageName := plan.imageName, imageVersion := plan.imageVersion, platform := plan.platform), cfg.storage)
  }

  /** The configuration `run_tasks` writes keeps the configured platform, whatever the `platform`
      argument says, and takes the Windows image entries exactly when that platform is Windows. */
  lemma WrittenConfigKeepsPlatform(args: PoolPlanning.RunArgs, replies: PoolPlanning.Replies, cfg: Config,
                                   configFound: bool, win: WindowsPool)
    requires PoolPlanning.Plan(args, replies, AcrDefaultsOf(cfg), configFound).Ok?
    ensures var written := ConfigAfterPlan(cfg, PoolPlanning.Plan(args, replies, AcrDefaultsOf(cfg), configFound).value, win);
            && written.acr.platform == cfg.acr.platform
            && (Lower(cfg.acr.platform) == "windows" ==>
                  written.pool.publisher == win.publisher && written.pool.offer == win.offer && written.pool.sku == win.sku
                  && written.pool.version == win.version && written.pool.agentSku == win.agentSku)
            && (Lower(cfg.acr.platform) != "windows" ==>
                  written.pool.publisher == cfg.pool.publisher && written.pool.offer == cfg.pool.offer
                  && written.pool.sku == cfg.pool.sku && written.pool.version == cfg.pool.version
                  && written.pool.agentSku == cfg.pool.agentSku)
  {
  }

  /** `run_tasks`: plan the pool, write the configuration, build the orchestrator on it and run
      `batch_main` without waiting. Returns what it raises and the service afterwards. */
  method RunTasks(args: PoolPlanning.RunArgs, replies: PoolPlanning.Replies, cfg: Config, configFound: bool,
                  win: WindowsPool, workspace: string, accessKey: string, dotEnv: (string, string),
                  logIterations: LogFlag, workdir: string, showPrice: bool, priceLookupFails: bool,
                  now: DateTime, backend: State)
    returns (r: Result<(), BatchFault>, after: State)
    ensures var plan := PoolPlanning.Plan(args, replies, AcrDefaultsOf(cfg), configFound);
            plan.Err? ==> r == Err(Planning(plan.error)) && after == backend
    ensures var plan := PoolPlanning.Plan(args, replies, AcrDefaultsOf(cfg), configFound);
            plan.Ok? && LogIterationsValue(logIterations).None? ==>
              r == Err(InvalidLogFlag(logIterations.text)) && after == backend
    ensures var plan := PoolPlanning.Plan(args, replies, AcrDefaultsOf(cfg), configFound);
            var creds := Credentials(workspace, accessKey, dotEnv);
            plan.Ok? && LogIterationsValue(logIterations).Some? ==>
              (r, after) == BatchMainOutcome(backend, ConfigAfterPlan(cfg, plan.value, win), creds.0, creds.1,
                                             plan.value.command, false, LogIterationsValue(logIterations).value,
                                             workdir, showPrice, priceLookupFails, now)
  {
    var plan := PoolPlanning.Plan(args, replies, AcrDefaultsOf(cfg), configFound);
    if plan.Err? {
      return Err(Planning(plan.error)), backend;
    }
    var written := ConfigAfterPlan(cfg, plan.value, win);
    var batchRun := new AzureBatchContainers(written, workspace, accessKey, dotEnv, backend);
    var flag := LogIterationsValue(logIterations);
    if flag.None? {
      return Err(InvalidLogFlag(logIterations.text)), batchRun.backend;
    }
    r := batchRun.BatchMain(plan.value.command, false, flag.value, workdir, showPrice, priceLookupFails, now);
    after := batchRun.backend;
  }

  /** A run of `batch_main` on a written plan whose task slots cover its task count, as every plan
      of `PoolPlanning.Plan` does: when it
      succeeds, the job holds the planned number of tasks and, on a freshly created pool, the
      pool's task slots (tasks per node times nodes) hold them all. */
  lemma PlannedRunHoldsAllTasks(plan: PoolPlanning.PoolPlan, cfg: Config, win: WindowsPool,
                                workspace: string, accessKey: string, logIterations: bool, workdir: string,
                                showPrice: bool, priceLookupFails: bool, now: DateTime, st: State)
    requires plan.tasksPerNode >= 1
    requires plan.lowPriNodes + plan.dedicatedNodes > 0 ==>
               plan.tasksPerNode * (plan.lowPriNodes + plan.dedicatedNodes) >= plan.numTasks
    ensures var out := BatchMainOutcome(st, ConfigAfterPlan(cfg, plan, win), workspace, accessKey, plan.command,
                                        false, logIterations, workdir, showPrice, priceLookupFails, now);
            var jobId := DefaultJobId(plan.jobName, now);
            var poolId := StripQuotes(plan.poolId);
            && (out.0.Ok? <==> jobId !in st.jobs && !(showPrice && priceLookupFails))
            && (out.0.Ok? ==>
                  && jobId in out.1.jobs && out.1.jobs[jobId].poolId == poolId && poolId in out.1.pools
                  && |out.1.jobs[jobId].tasks| == (if plan.numTasks > 0 then plan.numTasks else 0))
            && (out.0.Ok? && poolId !in st.pools && plan.lowPriNodes + plan.dedicatedNodes > 0 ==>
                  var pool := out.1.pools[poolId];
                  pool.maxTasksPerNode * (pool.targetDedicatedNodes + pool.targetLowPriorityNodes)
                  >= |out.1.jobs[jobId].tasks|)
  {
    var written := ConfigAfterPlan(cfg, plan, win);
    BatchMainOutcomeFacts(st, written, workspace, accessKey, plan.command, false, logIterations, workdir,
                          showPrice, priceLookupFails, now);
    var poolId := StripQuotes(plan.poolId);
    var out := BatchMainOutcome(st, written, workspace, accessKey, plan.command,
                                false, logIterations, workdir, showPrice, priceLookupFails, now);
    if out.0.Ok? && poolId !in st.pools && plan.lowPriNodes + plan.dedicatedNodes > 0 {
      var pool := out.1.pools[poolId];
      assert pool == NewPool(written, logIterations);
      assert pool.targetDedicatedNodes + pool.targetLowPriorityNodes == plan.lowPriNodes + plan.dedicatedNodes;
      MulRightNonNegative(plan.tasksPerNode, plan.lowPriNodes + plan.dedicatedNodes);
    }
  }

  lemma MulRightNonNegative(a: int, b: int)
    requires a >= 1 && b > 0
    ensures a * b > 0
  {
  }
}
