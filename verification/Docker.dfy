// Docker Swarm as the engine client sees it: secrets, services and the requests that change them.
// Every request may fail without an effect. A request to remove a secret is never refused because the
// secret is in use: that such a request is not made is a theorem about the callers.
module Docker {
  import opened Wrappers

  // Docker numbers its secrets here; number 0 is the empty id.
  datatype SecretId = SecretId(serial: int)
  type ServiceId = string

  const NO_ID := SecretId(0)

  datatype FileTarget = FileTarget(name: string, uid: string, gid: string, mode: int)

  datatype Ref = Ref(file: FileTarget, secretName: string, secretId: SecretId)

  // A secret with its labels; a missing logical_path label is the empty string.
  datatype Secret = Secret(
    name: string,
    logicalPath: string,
    externalPath: string,
    externalId: string,
    description: string,
    managed: bool,
    data: string,
    updatedAt: int)

  datatype Service = Service(version: int, refs: seq<Ref>)

  datatype World = World(
    secrets: map<SecretId, Secret>,
    services: map<ServiceId, Service>,
    serial: int,
    now: int)

  predicate NameTaken(w: World, name: string) {
    exists i :: i in w.secrets && w.secrets[i].name == name
  }

  predicate RefersTo(refs: seq<Ref>, id: SecretId) {
    exists k :: 0 <= k < |refs| && refs[k].secretId == id
  }

  predicate InUse(w: World, id: SecretId) {
    exists s :: s in w.services && RefersTo(w.services[s].refs, id)
  }

  function NextId(w: World): SecretId {
    SecretId(w.serial)
  }

  function AddSecret(w: World, secret: Secret): World {
    w.(secrets := w.secrets[NextId(w) := secret.(updatedAt := w.now)], serial := w.serial + 1, now := w.now + 1)
  }

  function DropSecrets(w: World, ids: set<SecretId>): World {
    w.(secrets := w.secrets - ids)
  }

  function PutService(w: World, service: ServiceId, refs: seq<Ref>): World
    requires service in w.services
  {
    w.(services := w.services[service := Service(w.services[service].version + 1, refs)])
  }

  datatype Outcome = Done | Refused | Fault

  // The write requests, with whether a removed secret was in use when its removal was requested.
  datatype Call =
    | CreateCall(secret: Secret, outcome: Outcome)
    | UpdateCall(service: ServiceId, refs: seq<Ref>, outcome: Outcome)
    | RemoveCall(id: SecretId, inUse: bool, outcome: Outcome)

  datatype Removal = Removed | NotFound | RemoveFailed

  datatype ListedSecret = ListedSecret(id: SecretId, secret: Secret)

  // A service as loaded from Swarm, with the secret references of its container spec.
  datatype LoadedService = LoadedService(id: ServiceId, version: int, refs: seq<Ref>)

  // `items` lists the secrets of `ids`, each once.
  ghost predicate Lists(items: seq<ListedSecret>, ids: set<SecretId>, secrets: map<SecretId, Secret>) {
    (forall k :: 0 <= k < |items| ==>
       items[k].id in ids && items[k].id in secrets && secrets[items[k].id] == items[k].secret) &&
    (forall j, k :: 0 <= j < k < |items| ==> items[j].id != items[k].id) &&
    (forall i :: i in ids ==> exists k :: 0 <= k < |items| && items[k].id == i)
  }

  lemma ListsOneMore(items: seq<ListedSecret>, ids: set<SecretId>, secrets: map<SecretId, Secret>, i: SecretId)
    requires Lists(items, ids, secrets) && i in secrets && i !in ids
    ensures Lists(items + [ListedSecret(i, secrets[i])], ids + {i}, secrets)
  {
    var more := items + [ListedSecret(i, secrets[i])];
    assert more[|items|].id == i;
    forall j | j in ids ensures exists k :: 0 <= k < |more| && more[k].id == j {
      var k :| 0 <= k < |items| && items[k].id == j;
      assert more[k].id == j;
    }
  }

  ghost predicate ListsSecrets(items: seq<ListedSecret>, w: World) {
    Lists(items, w.secrets.Keys, w.secrets)
  }

  // `items` lists the services of `ids`, each once.
  ghost predicate ListsSome(items: seq<LoadedService>, ids: set<ServiceId>, services: map<ServiceId, Service>) {
    (forall k :: 0 <= k < |items| ==>
       items[k].id in ids && items[k].id in services &&
       services[items[k].id] == Service(items[k].version, items[k].refs)) &&
    (forall j, k :: 0 <= j < k < |items| ==> items[j].id != items[k].id) &&
    (forall s :: s in ids ==> exists k :: 0 <= k < |items| && items[k].id == s)
  }

  lemma ListsOneMoreService(
    items: seq<LoadedService>, ids: set<ServiceId>, services: map<ServiceId, Service>, s: ServiceId)
    requires ListsSome(items, ids, services) && s in services && s !in ids
    ensures ListsSome(items + [LoadedService(s, services[s].version, services[s].refs)], ids + {s}, services)
  {
    var more := items + [LoadedService(s, services[s].version, services[s].refs)];
    assert more[|items|].id == s;
    forall t | t in ids ensures exists k :: 0 <= k < |more| && more[k].id == t {
      var k :| 0 <= k < |items| && items[k].id == t;
      assert more[k].id == t;
    }
  }

  ghost predicate ListsServices(items: seq<LoadedService>, w: World) {
    ListsSome(items, w.services.Keys, w.services)
  }

  // The journal grows, and no new entry removes a secret that is in use.
  ghost predicate Safe(before: seq<Call>, after: seq<Call>) {
    before <= after &&
    forall k :: |before| <= k < |after| && after[k].RemoveCall? ==> !after[k].inUse
  }

  lemma SafeMore(a: seq<Call>, b: seq<Call>, c: seq<Call>)
    requires Safe(a, b) && Safe(b, c)
    ensures Safe(a, c)
  {
  }

  lemma SafeSame(journal: seq<Call>)
    ensures Safe(journal, journal)
  {
  }

  // Safe, and no service is updated.
  ghost predicate Calm(before: seq<Call>, after: seq<Call>) {
    Safe(before, after) && forall k :: |before| <= k < |after| ==> !after[k].UpdateCall?
  }

  lemma CalmMore(a: seq<Call>, b: seq<Call>, c: seq<Call>)
    requires Calm(a, b) && Calm(b, c)
    ensures Calm(a, c)
  {
  }

  lemma CalmSame(journal: seq<Call>)
    ensures Calm(journal, journal)
  {
  }

  // The last request was to remove a secret, and it failed.
  ghost predicate RemovalFailed(before: seq<Call>, after: seq<Call>) {
    |before| < |after| && after[|after| - 1].RemoveCall? && after[|after| - 1].outcome == Fault
  }

  // The last request was to create a secret, and it failed.
  ghost predicate CreationFailed(before: seq<Call>, after: seq<Call>) {
    |before| < |after| && after[|after| - 1].CreateCall? && after[|after| - 1].outcome == Fault
  }

  class Swarm {
    var world: World
    var journal: seq<Call>
    // failed requests to change something
    var faults: nat
    // failed requests for a list
    var misses: nat

    constructor (w: World)
      ensures world == w && journal == [] && faults == 0 && misses == 0
    {
      world, journal, faults, misses := w, [], 0, 0;
    }

    method SecretCreate(secret: Secret) returns (id: Option<SecretId>)
      modifies this`world, this`journal, this`faults
      ensures id.Some? ==>
                !NameTaken(old(world), secret.name) && id.value == NextId(old(world)) &&
                world == AddSecret(old(world), secret) && faults == old(faults) &&
                journal == old(journal) + [CreateCall(secret, Done)]
      ensures id.None? ==>
                world == old(world) &&
                if faults > old(faults) then journal == old(journal) + [CreateCall(secret, Fault)]
                else NameTaken(world, secret.name) && journal == old(journal) + [CreateCall(secret, Refused)]
      ensures old(faults) <= faults <= old(faults) + 1
    {
      var fault: bool := *;
      if fault {
        faults := faults + 1;
        journal := journal + [CreateCall(secret, Fault)];
        id := None;
      } else if NameTaken(world, secret.name) {
        journal := journal + [CreateCall(secret, Refused)];
        id := None;
      } else {
        id := Some(NextId(world));
        journal := journal + [CreateCall(secret, Done)];
        world := AddSecret(world, secret);
      }
    }

    method SecretRemove(id: SecretId) returns (r: Removal)
      modifies this`world, this`journal, this`faults
      ensures r.Removed? ==>
                id in old(world).secrets && world == DropSecrets(old(world), {id}) && faults == old(faults)
      ensures r.NotFound? ==> id !in world.secrets && world == old(world) && faults == old(faults)
      ensures r.RemoveFailed? ==> world == old(world) && faults == old(faults) + 1
      ensures var o := if r.Removed? then Done else if r.NotFound? then Refused else Fault;
              journal == old(journal) + [RemoveCall(id, InUse(old(world), id), o)]
    {
      var fault: bool := *;
      var used := InUse(world, id);
      if fault {
        faults := faults + 1;
        journal := journal + [RemoveCall(id, used, Fault)];
        r := RemoveFailed;
      } else if id !in world.secrets {
        journal := journal + [RemoveCall(id, used, Refused)];
        r := NotFound;
      } else {
        journal := journal + [RemoveCall(id, used, Done)];
        world := DropSecrets(world, {id});
        r := Removed;
      }
    }

    // Docker refuses an update that does not carry the service's current version.
    method ServiceUpdate(service: ServiceId, version: int, refs: seq<Ref>) returns (ok: bool)
      modifies this`world, this`journal, this`faults
      ensures ok ==>
                service in old(world).services && old(world).services[service].version == version &&
                world == PutService(old(world), service, refs) && faults == old(faults) &&
                journal == old(journal) + [UpdateCall(service, refs, Done)]
      ensures !ok ==>
                world == old(world) &&
                (faults > old(faults) || service !in world.services || world.services[service].version != version)
      ensures !ok ==> exists o :: o != Done && journal == old(journal) + [UpdateCall(service, refs, o)]
      ensures faults >= old(faults)
    {
      var fault: bool := *;
      if fault {
        faults := faults + 1;
        journal := journal + [UpdateCall(service, refs, Fault)];
        ok := false;
      } else if service !in world.services || world.services[service].version != version {
        journal := journal + [UpdateCall(service, refs, Refused)];
        ok := false;
      } else {
        journal := journal + [UpdateCall(service, refs, Done)];
        world := PutService(world, service, refs);
        ok := true;
      }
    }

    // The list comes in no particular order.
    method SecretList() returns (items: Option<seq<ListedSecret>>)
      modifies this`misses
      ensures items.Some? ==> ListsSecrets(items.value, world) && misses == old(misses)
      ensures items.None? ==> misses == old(misses) + 1
    {
      var fault: bool := *;
      if fault {
        misses := misses + 1;
        return None;
      }
      var found := Enumerate(world.secrets);
      items := Some(found);
    }

    static method Enumerate(secrets: map<SecretId, Secret>) returns (found: seq<ListedSecret>)
      ensures Lists(found, secrets.Keys, secrets)
    {
      var todo := secrets.Keys;
      ghost var seen := {};
      found := [];
      while todo != {}
        invariant todo + seen == secrets.Keys && todo !! seen
        invariant Lists(found, seen, secrets)
        decreases todo
      {
        assert exists i :: i in todo;
        var i :| i in todo;
        ListsOneMore(found, seen, secrets, i);
        todo, seen := todo - {i}, seen + {i};
        found := found + [ListedSecret(i, secrets[i])];
      }
    }

    method ServiceList() returns (items: Option<seq<LoadedService>>)
      modifies this`misses
      ensures items.Some? ==> ListsServices(items.value, world) && misses == old(misses)
      ensures items.None? ==> misses == old(misses) + 1
    {
      var fault: bool := *;
      if fault {
        misses := misses + 1;
        return None;
      }
      var found := EnumerateServices(world.services);
      items := Some(found);
    }

    static method EnumerateServices(services: map<ServiceId, Service>) returns (found: seq<LoadedService>)
      ensures ListsSome(found, services.Keys, services)
    {
      var todo := services.Keys;
      ghost var seen := {};
      found := [];
      while todo != {}
        invariant todo + seen == services.Keys && todo !! seen
        invariant ListsSome(found, seen, services)
        decreases todo
      {
        assert exists s :: s in todo;
        var s :| s in todo;
        ListsOneMoreService(found, seen, services, s);
        todo, seen := todo - {s}, seen + {s};
        found := found + [LoadedService(s, services[s].version, services[s].refs)];
      }
    }
  }
}
