// The mutable payload of one synchronisation (internal/sync/payload.go).
module Payload {
  import opened Docker
  import opened Engine
  import opened Rotation
  import opened Rollout
  import opened Grouping
  import opened ExternalStorage

  datatype SyncResult = SyncResult(
    created: nat,
    removedSecrets: nat,
    removedSecretVersions: nat,
    updated: nat,
    skipped: nat)

  datatype UpdatedSecret = UpdatedSecret(
    path: string,
    value: string,
    description: string,
    externalPath: string,
    externalId: string)

  datatype VersionRemoval = VersionRemoval(secret: GroupView, removeParent: bool)

  // What step 3 has done and queued so far.
  datatype Work = Work(
    groups: map<string, GroupView>,
    queue: Queue,
    removals: seq<VersionRemoval>,
    restores: seq<UpdatedSecret>,
    result: SyncResult,
    run: map<string, Action>)

  // The pending update of one service; step 4 overwrites `refs` in place.
  class ServiceTask {
    const service: LoadedService
    var refs: seq<Ref>
    var secrets: map<SecretId, Replacement>

    constructor (service: LoadedService)
      ensures this.service == service && refs == service.refs && secrets == map[]
    {
      this.service, refs, secrets := service, service.refs, map[];
    }
  }

  // The keyed map and the order slice hold the same tasks, and no service has two.
  ghost predicate Consistent(
    tasks: map<ServiceId, ServiceTask>, order: seq<ServiceTask>, services: seq<LoadedService>,
    position: map<ServiceId, int>)
  {
    position.Keys == tasks.Keys &&
    (forall s :: s in tasks ==>
       tasks[s].service.id == s && tasks[s].service in services &&
       0 <= position[s] < |order| && order[position[s]] == tasks[s]) &&
    (forall k :: 0 <= k < |order| ==> order[k].service.id in tasks && position[order[k].service.id] == k)
  }

  lemma ConsistentMore(
    tasks: map<ServiceId, ServiceTask>, order: seq<ServiceTask>, services: seq<LoadedService>,
    position: map<ServiceId, int>, task: ServiceTask)
    requires Consistent(tasks, order, services, position) && task.service in services && task.service.id !in tasks
    ensures Consistent(
              tasks[task.service.id := task], order + [task], services, position[task.service.id := |order|])
    ensures forall s :: s in tasks ==> tasks[s] != task
  {
  }

  class SyncPayload {
    var result: SyncResult
    var services: seq<LoadedService>
    var groups: map<string, GroupView>
    var externals: map<string, External>
    var tasks: map<ServiceId, ServiceTask>
    var order: seq<ServiceTask>
    var removals: seq<VersionRemoval>
    var restores: seq<UpdatedSecret>
    var offset: nat

    // What has been done at each wanted path so far.
    ghost var run: map<string, Action>
    ghost var queue: Queue
    ghost var position: map<ServiceId, int>

    constructor ()
      ensures result == SyncResult(0, 0, 0, 0, 0) && services == [] && groups == map[] && externals == map[]
      ensures tasks == map[] && order == [] && removals == [] && restores == [] && offset == 0
      ensures run == map[] && queue == map[] && position == map[]
    {
      result := SyncResult(0, 0, 0, 0, 0);
      services, groups, externals, tasks, order := [], map[], map[], map[], [];
      removals, restores, offset, run, queue, position := [], [], 0, map[], map[], map[];
    }

    ghost function CurrentWork(): Work
      reads this`groups, this`queue, this`removals, this`restores, this`result, this`run
    {
      Work(groups, queue, removals, restores, result, run)
    }

    ghost predicate TasksValid()
      reads this`tasks, this`order, this`services, this`position
    {
      Consistent(tasks, order, services, position)
    }

    // `queue` is the value of the tasks.
    ghost predicate QueueValid()
      reads this`tasks, this`order, this`services, this`position, this`queue, tasks.Values
    {
      TasksValid() && queue.Keys == tasks.Keys && forall s :: s in tasks ==> tasks[s].secrets == queue[s]
    }

    // No task has been overwritten yet.
    ghost predicate RefsLoaded()
      reads this`tasks, tasks.Values`refs
    {
      forall s :: s in tasks ==> tasks[s].refs == tasks[s].service.refs
    }

    method AddTask(task: ServiceTask)
      requires QueueValid() && task.service in services && task.service.id !in tasks
      requires task.secrets == map[]
      modifies this`tasks, this`order, this`queue, this`position
      ensures QueueValid()
      ensures tasks == old(tasks)[task.service.id := task] && queue == old(queue)[task.service.id := map[]]
    {
      hide Consistent;
      ConsistentMore(tasks, order, services, position, task);
      tasks := tasks[task.service.id := task];
      position := position[task.service.id := |order|];
      order := order + [task];
      queue := queue[task.service.id := map[]];
    }

    lemma OneTask(task: ServiceTask)
      requires TasksValid()
      ensures forall s :: s in tasks && s != task.service.id ==> tasks[s] != task
    {
    }

    method Replace(task: ServiceTask, oldId: SecretId, replacement: Replacement)
      requires QueueValid() && task.service.id in tasks && tasks[task.service.id] == task
      modifies this`queue, task`secrets
      ensures QueueValid() && queue == Enqueued(old(queue), task.service.id, oldId, replacement)
    {
      hide TasksValid;
      OneTask(task);
      var secrets := task.secrets[oldId := replacement];
      task.secrets := secrets;
      queue := queue[task.service.id := secrets];
    }

    // Finds or creates the pending update of the service, and adds one replacement to it.
    method Enqueue(service: LoadedService, oldId: SecretId, replacement: Replacement)
      requires QueueValid() && RefsLoaded() && service in services
      modifies this`tasks, this`order, this`queue, this`position, tasks.Values
      ensures QueueValid() && RefsLoaded()
      ensures queue == Enqueued(old(queue), service.id, oldId, replacement)
      ensures fresh(tasks.Values - old(tasks.Values))
    {
      hide *;
      Keyed();
      if service.id !in tasks {
        AddNewTask(service);
      }
      Keyed();
      Replace(tasks[service.id], oldId, replacement);
      EnqueuedEmpty(old(queue), service.id, oldId, replacement);
    }

    lemma Keyed()
      requires QueueValid()
      ensures queue.Keys == tasks.Keys && forall s :: s in tasks ==> tasks[s].service.id == s
    {
    }

    method AddNewTask(service: LoadedService)
      requires QueueValid() && RefsLoaded() && service in services && service.id !in tasks
      modifies this`tasks, this`order, this`queue, this`position
      ensures QueueValid() && RefsLoaded() && service.id in tasks
      ensures fresh(tasks[service.id]) && tasks == old(tasks)[service.id := tasks[service.id]]
      ensures tasks[service.id].service == service && queue == old(queue)[service.id := map[]]
    {
      var task := new ServiceTask(service);
      AddTask(task);
    }
  }

  // Services and groups show the state that was loaded; the groups in `run` may have become managed since.
  ghost predicate Loads(
    services: seq<LoadedService>, groups: map<string, GroupView>, run: map<string, Action>, w: World)
  {
    ListsServices(services, w) &&
    (forall p :: p in groups <==> p != "" && Parented(w, p)) &&
    (forall p :: p in groups ==>
       groups[p].path == p && Mirrors(groups[p], w, p) && (p !in run ==> groups[p].managed == Managed(w, p)))
  }
}
