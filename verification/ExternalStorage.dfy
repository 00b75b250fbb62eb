// The external storage as a run sees it (internal/providers/contracts), and the snapshot that it gives.
module ExternalStorage {
  import opened Wrappers
  import opened SecretName
  import opened Rotation

  datatype External = External(path: string, fullPath: string, versionId: string, description: string)

  // The external storage. A request may fail; nothing changes the contents during a run.
  class Provider {
    var listing: map<string, External>
    var payloads: map<string, string>
    // failed requests for a payload
    var faults: nat
    // failed requests for the listing
    var misses: nat

    constructor (listing: map<string, External>, payloads: map<string, string>)
      ensures this.listing == listing && this.payloads == payloads && faults == 0 && misses == 0
    {
      this.listing, this.payloads, faults, misses := listing, payloads, 0, 0;
    }

    // Between two runs the contents may change.
    method Change(listing: map<string, External>, payloads: map<string, string>)
      modifies this`listing, this`payloads
      ensures this.listing == listing && this.payloads == payloads
    {
      this.listing, this.payloads := listing, payloads;
    }

    method ListSecrets() returns (secrets: Option<map<string, External>>)
      modifies this`misses
      ensures secrets.Some? ==> secrets.value == listing && misses == old(misses)
      ensures secrets.None? ==> misses == old(misses) + 1
    {
      var fault: bool := *;
      if fault {
        misses := misses + 1;
        return None;
      }
      return Some(listing);
    }

    method GetSecretPayload(path: string) returns (value: Option<string>)
      modifies this`faults
      ensures value.Some? ==> path in payloads && value.value == payloads[path] && faults == old(faults)
      ensures value.None? ==> faults > old(faults) || path !in payloads
      ensures faults >= old(faults)
    {
      var fault: bool := *;
      if fault {
        faults := faults + 1;
        return None;
      }
      return if path in payloads then Some(payloads[path]) else None;
    }
  }

  // The run-independent inputs of a synchronisation; `uuids` are the UUIDs that the run would draw.
  datatype Config = Config(delimiter: char, cleanupOrphaned: bool, uuids: map<string, string>)

  function WantFor(e: External, payloads: map<string, string>, config: Config): Want
    requires e.path in payloads && e.path in config.uuids
  {
    Want(e.versionId, payloads[e.path], e.description, e.fullPath,
         Generate(e.path, config.delimiter, e.versionId, config.uuids[e.path]))
  }

  // `want` is the external snapshot by Docker name; no two external paths share a name.
  ghost predicate Describes(
    want: map<string, Want>, listing: map<string, External>, payloads: map<string, string>, config: Config)
  {
    (forall k :: k in listing ==>
       listing[k].path in payloads && listing[k].path in config.uuids &&
       PreparePath(listing[k].path, config.delimiter) in want &&
       want[PreparePath(listing[k].path, config.delimiter)] == WantFor(listing[k], payloads, config)) &&
    (forall p :: p in want ==> exists k :: k in listing && PreparePath(listing[k].path, config.delimiter) == p) &&
    (forall j, k :: j in listing && k in listing &&
                    PreparePath(listing[j].path, config.delimiter) == PreparePath(listing[k].path, config.delimiter) ==>
                    j == k)
  }

  lemma DescribesAt(
    want: map<string, Want>, listing: map<string, External>, payloads: map<string, string>, config: Config, k: string)
    requires Describes(want, listing, payloads, config) && k in listing
    ensures listing[k].path in payloads && listing[k].path in config.uuids
    ensures PreparePath(listing[k].path, config.delimiter) in want
    ensures want[PreparePath(listing[k].path, config.delimiter)] == WantFor(listing[k], payloads, config)
  {
  }
}
