// Adding a key to a Vault document by check-and-set (internal/providers/vault/api/client_write.go).
module VaultCas {
  import opened Wrappers
  import opened Strings

  const CREATE_SECRET_KEY_ATTEMPTS: nat := 3

  // Version 0 stands for a document that does not exist; every write adds one to the version.
  datatype Document = Document(version: nat, data: map<string, string>)

  type Documents = map<string, Document>

  function Current(docs: Documents, path: string): Document {
    if path in docs then docs[path] else Document(0, map[])
  }

  ghost predicate Valid(docs: Documents) {
    forall path :: Current(docs, path).version == 0 ==> Current(docs, path).data == map[]
  }

  // What other writers can have done: an untouched document, or a later version with any data. Excluded are those that
  // change what is read under an unchanged version: DeleteSecret and others that remove the metadata, so that versions
  // start again, and the soft deletion, restoring or destruction of a version.
  ghost predicate OthersWrote(before: Documents, after: Documents) {
    forall path :: Current(after, path) == Current(before, path) ||
                   Current(after, path).version > Current(before, path).version
  }

  function AddKey(doc: Document, key: string, value: string): Document {
    Document(doc.version + 1, doc.data[key := value])
  }

  // A write that this caller got through.
  datatype Write = Write(path: string, before: Document, after: Document)

  // The answer to a read; the version metadata can be missing from it.
  datatype Read = NotFound | Found(data: map<string, string>, version: Option<nat>) | Unreadable

  datatype Put = Written | Mismatch | PutFailed

  datatype Error = PathEmpty | KeyEmpty | KeyExists | NoMetadata | ReadFailed | WriteFailed | CasConflict

  // The document to write and the version that it was made from.
  datatype Draft = Draft(data: map<string, string>, cas: nat)

  // Vault as one caller sees it: between any two of its calls others may write, and each call may fail.
  class Store {
    var docs: Documents
    ghost var writes: seq<Write>
    ghost var puts: nat
    // calls that failed
    ghost var faults: nat
    // reads that were answered without the version metadata
    ghost var unversioned: nat
    // writes that were refused for their version
    ghost var mismatches: nat

    constructor (docs: Documents)
      requires Valid(docs)
      ensures this.docs == docs && writes == [] && puts == 0
      ensures faults == 0 && unversioned == 0 && mismatches == 0
    {
      this.docs, writes, puts, faults, unversioned, mismatches := docs, [], 0, 0, 0, 0;
    }

    method Others()
      requires Valid(docs)
      modifies this`docs
      ensures Valid(docs) && OthersWrote(old(docs), docs)
    {
      ghost var before := docs;
      var wish: int := *;
      var count := if wish < 0 then 0 else wish;
      for n := 0 to count
        invariant Valid(docs) && OthersWrote(before, docs)
      {
        var path: string, doc: Document := *, *;
        if doc.version > Current(docs, path).version {
          WriteOne(before, docs, path, doc);
          docs := docs[path := doc];
        }
      }
    }

    method Get(path: string) returns (read: Read)
      requires Valid(docs)
      modifies this`docs, this`faults, this`unversioned
      ensures Valid(docs) && OthersWrote(old(docs), docs)
      ensures faults == old(faults) + if read.Unreadable? then 1 else 0
      ensures unversioned == old(unversioned) + if read.Found? && read.version.None? then 1 else 0
      ensures read.NotFound? ==> Current(docs, path).version == 0
      ensures read.Found? ==>
                Current(docs, path).version > 0 && read.data == Current(docs, path).data &&
                (read.version.Some? ==> read.version.value == Current(docs, path).version)
    {
      Others();
      var doc := Current(docs, path);
      if * {
        faults := faults + 1;
        return Unreadable;
      }
      if doc.version == 0 {
        return NotFound;
      }
      var metadata: bool := *;
      unversioned := unversioned + if metadata then 0 else 1;
      return Found(doc.data, if metadata then Some(doc.version) else None);
    }

    // `before` is the state in which the request arrives.
    method CheckAndSet(path: string, data: map<string, string>, cas: nat) returns (put: Put, ghost before: Documents)
      requires Valid(docs)
      modifies this`docs, this`writes, this`puts, this`faults, this`mismatches
      ensures Valid(docs) && Valid(before) && OthersWrote(old(docs), before) && puts == old(puts) + 1
      ensures faults == old(faults) + if put.PutFailed? then 1 else 0
      ensures mismatches == old(mismatches) + if put.Mismatch? then 1 else 0
      ensures put.Written? ==>
                Current(before, path).version == cas && docs == before[path := Document(cas + 1, data)] &&
                writes == old(writes) + [Write(path, Current(before, path), Document(cas + 1, data))]
      ensures !put.Written? ==> docs == before && writes == old(writes)
      ensures put.Mismatch? ==> Current(before, path).version != cas
    {
      Others();
      before, puts := docs, puts + 1;
      if * {
        faults := faults + 1;
        return PutFailed, before;
      }
      if Current(docs, path).version != cas {
        mismatches := mismatches + 1;
        return Mismatch, before;
      }
      var doc := Document(cas + 1, data);
      writes := writes + [Write(path, Current(docs, path), doc)];
      docs := docs[path := doc];
      forall q ensures Current(docs, q).version == 0 ==> Current(docs, q).data == map[] {
        assert q != path ==> Current(docs, q) == Current(before, q);
      }
      put := Written;
    }
  }

  lemma WriteOne(before: Documents, docs: Documents, path: string, doc: Document)
    requires Valid(docs) && OthersWrote(before, docs) && doc.version > Current(docs, path).version
    ensures Valid(docs[path := doc]) && OthersWrote(before, docs[path := doc])
  {
    var after := docs[path := doc];
    forall q
      ensures Current(after, q).version == 0 ==> Current(after, q).data == map[]
      ensures Current(after, q) == Current(before, q) || Current(after, q).version > Current(before, q).version
    {
      assert Current(after, q) == if q == path then doc else Current(docs, q);
      assert Current(docs, q) == Current(before, q) || Current(docs, q).version > Current(before, q).version;
    }
  }

  lemma OthersMore(a: Documents, b: Documents, c: Documents)
    requires OthersWrote(a, b) && OthersWrote(b, c)
    ensures OthersWrote(a, c)
  {
  }

  // The draft that a read allows.
  ghost predicate Drafts(doc: Document, key: string, value: string, draft: Draft) {
    key !in doc.data && draft == Draft(doc.data[key := value], doc.version)
  }

  method SecretDataForCreate(store: Store, path: string, key: string, value: string) returns (r: Result<Draft, Error>)
    requires Valid(store.docs)
    modifies store`docs, store`faults, store`unversioned
    ensures Valid(store.docs) && OthersWrote(old(store.docs), store.docs)
    ensures r.Ok? ==> Drafts(Current(store.docs, path), key, value, r.value)
    ensures r.Err? ==> r.error in {KeyExists, NoMetadata, ReadFailed}
    // Each error has its reason.
    ensures r == Err(KeyExists) ==> key in Current(store.docs, path).data
    ensures r == Err(NoMetadata) ==> key !in Current(store.docs, path).data
    ensures store.faults == old(store.faults) + if r == Err(ReadFailed) then 1 else 0
    ensures store.unversioned >= old(store.unversioned)
    ensures r == Err(NoMetadata) ==> store.unversioned == old(store.unversioned) + 1
    ensures r.Ok? || r == Err(ReadFailed) ==> store.unversioned == old(store.unversioned)
  {
    var read := store.Get(path);
    match read {
      case Unreadable =>
        return Err(ReadFailed);
      case NotFound =>
        return Ok(Draft(map[key := value], 0));
      case Found(found, version) =>
        if key in found {
          return Err(KeyExists);
        }
        if version.None? {
          return Err(NoMetadata);
        }
        var data := CopyWith(found, key, value);
        return Ok(Draft(data, version.value));
    }
  }

  method CopyWith(source: map<string, string>, key: string, value: string) returns (data: map<string, string>)
    requires key !in source
    ensures data == source[key := value]
  {
    data := map[];
    var rest := source.Keys;
    while rest != {}
      invariant rest <= source.Keys && data.Keys == source.Keys - rest
      invariant forall k :: k in data ==> data[k] == source[k]
      decreases |rest|
    {
      assert exists k :: k in rest;
      var k :| k in rest;
      data, rest := data[k := source[k]], rest - {k};
    }
    data := data[key := value];
  }

  // A write made from a read whose version is still current adds exactly the key.
  lemma StillCurrent(
    readAt: Documents, before: Documents, path: string, key: string, value: string, draft: Draft)
    requires Drafts(Current(readAt, path), key, value, draft) && OthersWrote(readAt, before)
    ensures Current(before, path).version == draft.cas ==>
              key !in Current(before, path).data &&
              Document(draft.cas + 1, draft.data) == AddKey(Current(before, path), key, value)
    ensures Current(before, path).version != draft.cas ==>
              Current(before, path).version > Current(readAt, path).version
  {
  }

  // Where a version number can stand for two contents, as after DeleteSecret removed the metadata and the document was
  // made anew, or after the version was soft-deleted, restored or destroyed, a matching version is not enough: the
  // write is an addition exactly when the data are unchanged.
  lemma ReuseExact(readDoc: Document, current: Document, key: string, value: string, draft: Draft)
    requires Drafts(readDoc, key, value, draft) && current.version == draft.cas
    ensures key !in current.data && Document(draft.cas + 1, draft.data) == AddKey(current, key, value) <==>
            current.data == readDoc.data
  {
    if key !in current.data && draft.data == current.data[key := value] {
      assert current.data == draft.data - {key} == readDoc.data;
    }
  }

  // ---------------------------------------------------------------- the calls of one caller

  // Where one caller is: about to read, holding a draft, or back with an outcome (None for success).
  datatype Phase = Reading | Holding(draft: Draft) | Finished(outcome: Option<Error>)

  datatype Creator = Creator(key: string, value: string, puts: nat, phase: Phase)

  ghost predicate ReadStep(c: Creator, doc: Document, c': Creator) {
    && c.phase.Reading? && c' == c.(phase := c'.phase)
    && match c'.phase
       case Reading => false
       case Holding(draft) => Drafts(doc, c.key, c.value, draft)
       case Finished(None) => false
       case Finished(Some(error)) =>
         (error == KeyExists && c.key in doc.data) || (error == NoMetadata && c.key !in doc.data) || error == ReadFailed
  }

  ghost predicate PutStep(c: Creator, doc: Document, c': Creator, doc': Document) {
    && c.phase.Holding? && c' == c.(phase := c'.phase, puts := c.puts + 1)
    && match c'.phase
       case Reading =>
         doc' == doc && c.phase.draft.cas != doc.version && c'.puts < CREATE_SECRET_KEY_ATTEMPTS
       case Holding(_) => false
       case Finished(None) =>
         c.phase.draft.cas == doc.version && doc' == Document(doc.version + 1, c.phase.draft.data)
       case Finished(Some(error)) =>
         doc' == doc &&
         (error == WriteFailed || (error == CasConflict && c.phase.draft.cas != doc.version &&
                                   c'.puts == CREATE_SECRET_KEY_ATTEMPTS))
  }

  ghost predicate OwnStep(c: Creator, doc: Document, c': Creator, doc': Document) {
    (doc' == doc && ReadStep(c, doc, c')) || PutStep(c, doc, c', doc')
  }

  // What others make of the document meanwhile.
  ghost predicate Later(doc: Document, doc': Document) {
    doc' == doc || doc'.version > doc.version
  }

  // One call, with the document when it arrives and after it.
  datatype Moment = Moment(from: Creator, before: Document, to: Creator, after: Document)

  // The calls of a caller take it from `first` to `last`, and others write in between.
  ghost predicate Performs(first: Creator, start: Document, moments: seq<Moment>, last: Creator, end: Document)
    decreases |moments|
  {
    if moments == [] then last == first && Later(start, end)
    else
      var m := moments[|moments| - 1];
      OwnStep(m.from, m.before, m.to, m.after) && m.to == last && Later(m.after, end) &&
      Performs(first, start, moments[..|moments| - 1], m.from, m.before)
  }

  lemma PerformsLater(
    first: Creator, start: Document, moments: seq<Moment>, last: Creator, end: Document, end': Document)
    requires Performs(first, start, moments, last, end) && Later(end, end')
    ensures Performs(first, start, moments, last, end')
  {
  }

  lemma PerformsMore(first: Creator, start: Document, moments: seq<Moment>, m: Moment)
    requires Performs(first, start, moments, m.from, m.before) && OwnStep(m.from, m.before, m.to, m.after)
    ensures Performs(first, start, moments + [m], m.to, m.after)
  {
  }

  lemma LaterAt(a: Documents, b: Documents, path: string)
    requires OthersWrote(a, b)
    ensures Later(Current(a, path), Current(b, path))
  {
  }

  // No lost update: a success turns the document current at write time into that document with the new, until then
  // absent key, by one write; an error means that this caller wrote nothing, and each error has its reason. `moments`
  // are the calls that it makes.
  method CreateSecretKey(store: Store, path: string, key: string, value: string)
    returns (r: Result<(), Error>, ghost before: Documents, ghost moments: seq<Moment>, ghost caller: Creator)
    requires Valid(store.docs)
    modifies store
    ensures Valid(store.docs) && OthersWrote(old(store.docs), before)
    ensures r.Ok? ==>
              var p := TrimSlash(path); var doc := Current(before, p);
              p != "" && key != "" && key !in doc.data && store.docs == before[p := AddKey(doc, key, value)] &&
              store.writes == old(store.writes) + [Write(p, doc, AddKey(doc, key, value))]
    ensures r.Err? ==> store.docs == before && store.writes == old(store.writes)
    ensures r == Err(PathEmpty) <==> TrimSlash(path) == ""
    ensures r == Err(KeyEmpty) <==> TrimSlash(path) != "" && key == ""
    ensures r in {Err(PathEmpty), Err(KeyEmpty)} ==> store.docs == old(store.docs) && store.puts == old(store.puts)
    ensures r == Err(KeyExists) ==> key in Current(store.docs, TrimSlash(path)).data
    ensures r == Err(NoMetadata) <==> store.unversioned > old(store.unversioned) && r != Err(KeyExists)
    ensures store.faults == old(store.faults) + if r in {Err(ReadFailed), Err(WriteFailed)} then 1 else 0
    // A conflict is tried again: giving up takes three refused writes, and three writes of others to the document.
    ensures if r == Err(CasConflict) then store.mismatches == old(store.mismatches) + 3
            else store.mismatches <= old(store.mismatches) + 2
    ensures r == Err(CasConflict) ==>
              Current(store.docs, TrimSlash(path)).version >= Current(old(store.docs), TrimSlash(path)).version + 3
    ensures store.puts <= old(store.puts) + 3
    // When no call fails and nobody else writes the document, the key is created exactly when it is not there yet.
    ensures var p := TrimSlash(path);
            store.faults == old(store.faults) && Current(before, p).version == Current(old(store.docs), p).version ==>
              (r.Ok? <==> p != "" && key != "" && key !in Current(old(store.docs), p).data &&
                          store.unversioned == old(store.unversioned))
    ensures r !in {Err(PathEmpty), Err(KeyEmpty)} ==>
              caller.phase == Finished(if r.Ok? then None else Some(r.error)) &&
              Performs(Creator(key, value, 0, Reading), Current(old(store.docs), TrimSlash(path)), moments, caller,
                       Current(store.docs, TrimSlash(path)))
  {
    hide OthersWrote, Valid, Performs, OwnStep, Later;
    OthersNone(store.docs);
    ghost var first := Creator(key, value, 0, Reading);
    moments, caller := [], first;
    var p := TrimSlash(path);
    if p == "" {
      return Err(PathEmpty), store.docs, moments, caller;
    }
    if key == "" {
      return Err(KeyEmpty), store.docs, moments, caller;
    }
    ghost var start := Current(store.docs, p);
    PerformsNone(first, start);
    for attempt := 0 to CREATE_SECRET_KEY_ATTEMPTS
      invariant Valid(store.docs) && OthersWrote(old(store.docs), store.docs)
      invariant store.writes == old(store.writes) && store.puts == old(store.puts) + attempt
      invariant store.faults == old(store.faults) && store.unversioned == old(store.unversioned)
      invariant store.mismatches == old(store.mismatches) + attempt
      invariant Current(store.docs, p).version >= Current(old(store.docs), p).version + attempt
      invariant Performs(first, start, moments, caller, Current(store.docs, p))
      invariant caller == Creator(key, value, attempt, if attempt < 3 then Reading else Finished(Some(CasConflict)))
    {
      ghost var loaded := store.docs;
      var draft := SecretDataForCreate(store, p, key, value);
      ghost var readAt := store.docs;
      OthersMore(old(store.docs), loaded, readAt);
      VersionGrows(old(store.docs), readAt, p);
      VersionGrows(loaded, readAt, p);
      ghost var reader := caller;
      caller := reader.(phase := if draft.Ok? then Holding(draft.value) else Finished(Some(draft.error)));
      moments := Reads(first, start, moments, reader, caller, loaded, readAt, p);
      if draft.Err? {
        SameVersionSame(old(store.docs), readAt, p);
        return Err(draft.error), store.docs, moments, caller;
      }
      var put;
      put, before := store.CheckAndSet(p, draft.value.data, draft.value.cas);
      OthersMore(old(store.docs), readAt, before);
      VersionGrows(readAt, before, p);
      StillCurrent(readAt, before, p, key, value, draft.value);
      SameVersionSame(old(store.docs), before, p);
      ghost var holder, phase := caller, match put
        case Written => Finished(None)
        case PutFailed => Finished(Some(WriteFailed))
        case Mismatch => if attempt < 2 then Reading else Finished(Some(CasConflict));
      caller := holder.(phase := phase, puts := attempt + 1);
      moments := Puts(first, start, moments, holder, caller, readAt, before, store.docs, p);
      match put {
        case Written =>
          return Ok(()), before, moments, caller;
        case PutFailed =>
          return Err(WriteFailed), before, moments, caller;
        case Mismatch =>
      }
    }
    return Err(CasConflict), store.docs, moments, caller;
  }

  lemma SameVersionSame(a: Documents, b: Documents, path: string)
    requires OthersWrote(a, b)
    ensures Current(b, path).version == Current(a, path).version ==> Current(b, path) == Current(a, path)
  {
  }

  lemma PerformsNone(first: Creator, start: Document)
    ensures Performs(first, start, [], first, start)
  {
  }

  lemma Reads(
    first: Creator, start: Document, moments: seq<Moment>, c: Creator, c': Creator, loaded: Documents,
    readAt: Documents, path: string)
    returns (more: seq<Moment>)
    requires Performs(first, start, moments, c, Current(loaded, path)) && OthersWrote(loaded, readAt)
    requires ReadStep(c, Current(readAt, path), c')
    ensures Performs(first, start, more, c', Current(readAt, path))
  {
    hide OthersWrote, ReadStep, Performs;
    LaterAt(loaded, readAt, path);
    PerformsLater(first, start, moments, c, Current(loaded, path), Current(readAt, path));
    var m := Moment(c, Current(readAt, path), c', Current(readAt, path));
    PerformsMore(first, start, moments, m);
    more := moments + [m];
  }

  lemma Puts(
    first: Creator, start: Document, moments: seq<Moment>, c: Creator, c': Creator, readAt: Documents,
    before: Documents, after: Documents, path: string)
    returns (more: seq<Moment>)
    requires Performs(first, start, moments, c, Current(readAt, path)) && OthersWrote(readAt, before)
    requires PutStep(c, Current(before, path), c', Current(after, path))
    ensures Performs(first, start, more, c', Current(after, path))
  {
    hide OthersWrote, PutStep, Performs;
    LaterAt(readAt, before, path);
    PerformsLater(first, start, moments, c, Current(readAt, path), Current(before, path));
    var m := Moment(c, Current(before, path), c', Current(after, path));
    PerformsMore(first, start, moments, m);
    more := moments + [m];
  }

  lemma OthersNone(docs: Documents)
    ensures OthersWrote(docs, docs)
  {
  }

  lemma VersionGrows(a: Documents, b: Documents, path: string)
    requires OthersWrote(a, b)
    ensures Current(b, path).version >= Current(a, path).version
  {
  }
}
