/**
 * The Azure Batch service as the orchestrator sees it through its client: the
 * pools and jobs that exist, and every request the client has sent, in order.
 * Each `Send…` function is one client call; a call on a missing or a duplicate
 * id is rejected with the fault the service raises, and the request is still
 * recorded as sent.
 */
module BatchBackend {
  import opened Wrappers

  datatype ContainerRegistry = ContainerRegistry(registryServer: string, userName: string, password: string)

  datatype ImageReference = ImageReference(publisher: string, offer: string, sku: string, version: string)

  /** An Azure file share mounted on every node of a pool. */
  datatype MountConfig = AzureFileShare(
    accountName: string, azureFileUrl: string, accountKey: string,
    relativeMountPath: string, mountOptions: string)

  /** The `PoolAddParameter` of `create_pool`. */
  datatype PoolSpec = PoolSpec(
    id: string,
    vmSize: string,
    imageReference: ImageReference,
    containerImageNames: seq<string>,
    containerRegistries: seq<ContainerRegistry>,
    nodeAgentSku: string,
    maxTasksPerNode: int,
    targetDedicatedNodes: int,
    targetLowPriorityNodes: int,
    mountConfiguration: Option<seq<MountConfig>>)

  datatype ElevationLevel = Admin | NonAdmin

  datatype AutoUserScope = TaskScope | PoolScope

  datatype UserIdentity = AutoUser(elevationLevel: ElevationLevel, scope: AutoUserScope)

  datatype EnvSetting = EnvSetting(name: string, value: string)

  /** The `TaskAddParameter` of `add_task`. */
  datatype TaskSpec = TaskSpec(
    id: string,
    commandLine: string,
    imageName: string,
    containerRunOptions: string,
    environmentSettings: seq<EnvSetting>,
    userIdentity: UserIdentity)

  datatype Job = Job(poolId: string, tasks: seq<TaskSpec>)

  /** One call of the Batch client. */
  datatype Request =
    | AddPool(pool: PoolSpec)
    | DeletePool(poolId: string)
    | ResizePool(poolId: string, targetDedicatedNodes: int, targetLowPriorityNodes: int)
    | AddJob(jobId: string, poolId: string)
    | DeleteJob(jobId: string)
    | AddTask(jobId: string, task: TaskSpec)

  /** The errors the service answers with. */
  datatype Fault =
    | PoolExists(poolId: string)
    | PoolNotFound(poolId: string)
    | JobExists(jobId: string)
    | JobNotFound(jobId: string)
    | TaskExists(jobId: string, taskId: string)

  datatype State = State(pools: map<string, PoolSpec>, jobs: map<string, Job>, requests: seq<Request>)

  /** The service after a call, and the fault the call raised, if any. */
  datatype Reply = Reply(state: State, fault: Option<Fault>)

  function Sent(st: State, req: Request): State {
    st.(requests := st.requests + [req])
  }

  function SendAddPool(st: State, pool: PoolSpec): Reply {
    var st' := Sent(st, AddPool(pool));
    if pool.id in st.pools then Reply(st', Some(PoolExists(pool.id)))
    else Reply(st'.(pools := st.pools[pool.id := pool]), None)
  }

  function SendDeletePool(st: State, poolId: string): Reply {
    var st' := Sent(st, DeletePool(poolId));
    if poolId !in st.pools then Reply(st', Some(PoolNotFound(poolId)))
    else Reply(st'.(pools := st.pools - {poolId}), None)
  }

  function SendResizePool(st: State, poolId: string, dedicated: int, lowPriority: int): Reply {
    var st' := Sent(st, ResizePool(poolId, dedicated, lowPriority));
    if poolId !in st.pools then Reply(st', Some(PoolNotFound(poolId)))
    else
      var pool := st.pools[poolId].(targetDedicatedNodes := dedicated, targetLowPriorityNodes := lowPriority);
      Reply(st'.(pools := st.pools[poolId := pool]), None)
  }

  function SendAddJob(st: State, jobId: string, poolId: string): Reply {
    var st' := Sent(st, AddJob(jobId, poolId));
    if jobId in st.jobs then Reply(st', Some(JobExists(jobId)))
    else Reply(st'.(jobs := st.jobs[jobId := Job(poolId, [])]), None)
  }

  function SendDeleteJob(st: State, jobId: string): Reply {
    var st' := Sent(st, DeleteJob(jobId));
    if jobId !in st.jobs then Reply(st', Some(JobNotFound(jobId)))
    else Reply(st'.(jobs := st.jobs - {jobId}), None)
  }

  predicate HasTask(job: Job, taskId: string) {
    exists i :: 0 <= i < |job.tasks| && job.tasks[i].id == taskId
  }

  function SendAddTask(st: State, jobId: string, task: TaskSpec): Reply {
    var st' := Sent(st, AddTask(jobId, task));
    if jobId !in st.jobs then Reply(st', Some(JobNotFound(jobId)))
    else if HasTask(st.jobs[jobId], task.id) then Reply(st', Some(TaskExists(jobId, task.id)))
    else
      var job := st.jobs[jobId];
      Reply(st'.(jobs := st.jobs[jobId := job.(tasks := job.tasks + [task])]), None)
  }

  /** Number of pool-creation requests among `reqs`. */
  function CountAddPool(reqs: seq<Request>): nat {
    if reqs == [] then 0
    else CountAddPool(reqs[..|reqs| - 1]) + (if reqs[|reqs| - 1].AddPool? then 1 else 0)
  }
}
