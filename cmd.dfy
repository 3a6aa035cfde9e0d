/** The secret operations behind the `get`, `list` and `set` commands, in
    their plaintext and encrypted forms, and the two rules that turn
    configuration names into a backend and an engine. */
module Cmd {
  import opened Types
  import opened Backend
  import Keyring
  import opened Secconf

  // ---------------------------------------------------------------------
  // Plaintext: values pass through the store unchanged

  method GetPlain(key: string, store: Store) returns (r: Result<Bytes>)
    modifies store`calls
    ensures store.calls == old(store.calls) + [GetCall(key)]
    ensures r == Answer(store.online, store.Contents(), key)
  {
    r := store.Get(key);
  }

  method SetPlain(key: string, store: Store, d: Bytes) returns (r: Outcome)
    requires store.Valid()
    modifies store`entries, store`calls
    ensures store.Valid()
    ensures store.calls == old(store.calls) + [SetCall(key, d)]
    ensures store.online ==> r == Pass && store.Contents() == old(store.Contents())[key := d]
    ensures !store.online ==> r == Fail(Unavailable) && store.entries == old(store.entries)
  {
    r := store.Set(key, d);
  }

  method ListPlain(prefix: string, store: Store) returns (r: Result<array<KVPair>>)
    requires store.Valid()
    modifies store`calls
    ensures store.calls == old(store.calls) + [ListCall(prefix)]
    ensures !store.online ==> r == Err(Unavailable)
    ensures store.online ==> r.Ok? && fresh(r.value) && r.value[..] == WithPrefix(store.entries, prefix)
    ensures r.Ok? ==> forall kv :: kv in r.value[..] ==>
              prefix <= kv.key && kv.key in store.Contents() && store.Contents()[kv.key] == kv.value
    ensures r.Ok? ==> forall k :: k in store.Contents() && prefix <= k ==>
              exists kv :: kv in r.value[..] && kv.key == k
  {
    r := store.List(prefix);
    ListingIsContents(store.entries, prefix);
  }

  /** setPlain followed by getPlain on the same key gives the data back. */
  method SetThenGetPlain(key: string, d: Bytes, store: Store) returns (w: Outcome, r: Result<Bytes>)
    requires store.Valid()
    modifies store`entries, store`calls
    ensures w == Pass <==> store.online
    ensures w == Pass ==> r == Ok(d)
    ensures w != Pass ==> r == Err(Unavailable)
  {
    w := SetPlain(key, store, d);
    r := GetPlain(key, store);
  }

  // ---------------------------------------------------------------------
  // Encrypted: the keyring is opened first and closed on every way out

  method GetEncrypted(key: string, keyring: string, files: map<string, Bytes>, store: Store, engine: Engine)
    returns (r: Result<Bytes>, ghost kr: Keyring.Handle?)
    modifies store`calls
    ensures keyring !in files ==> r == Err(OpenFailed(keyring)) && kr == null && store.calls == old(store.calls)
    ensures keyring in files ==> kr != null && fresh(kr) && !kr.isOpen && kr.data == files[keyring]
    ensures keyring in files ==> store.calls == old(store.calls) + [GetCall(key)]
    ensures keyring in files ==>
              var stored := Answer(store.online, store.Contents(), key);
              && (stored.Err? ==> r == Err(stored.error) && kr.history == [])
              && (stored.Ok? ==> r == engine.decode(stored.value, files[keyring]) && kr.history == [files[keyring]])
  {
    kr := null;
    var file := Keyring.Open(files, keyring);
    if file.Err? {
      r := Err(file.error);
      return;
    }
    var h := file.value;
    kr := h;
    var data := store.Get(key);
    if data.Err? {
      h.Close();
      r := Err(data.error);
      return;
    }
    r := Decode(engine, data.value, h);
    h.Close();
  }

  method SetEncrypted(key: string, keyring: string, d: Bytes, files: map<string, Bytes>, store: Store, engine: Engine)
    returns (r: Outcome, ghost kr: Keyring.Handle?)
    requires store.Valid()
    modifies store`entries, store`calls
    ensures store.Valid()
    ensures keyring !in files ==> r == Fail(OpenFailed(keyring)) && kr == null && unchanged(store)
    ensures keyring in files ==> kr != null && fresh(kr) && !kr.isOpen && kr.history == [files[keyring]]
    ensures keyring in files && engine.encode(d, files[keyring]).Err? ==>
              r == Fail(engine.encode(d, files[keyring]).error) && unchanged(store)
    ensures keyring in files && engine.encode(d, files[keyring]).Ok? ==>
              var envelope := engine.encode(d, files[keyring]).value;
              && store.calls == old(store.calls) + [SetCall(key, envelope)]
              && (store.online ==> r == Pass && store.Contents() == old(store.Contents())[key := envelope])
              && (!store.online ==> r == Fail(Unavailable) && store.entries == old(store.entries))
  {
    kr := null;
    var file := Keyring.Open(files, keyring);
    if file.Err? {
      r := Fail(file.error);
      return;
    }
    var h := file.value;
    kr := h;
    var secureValue := Encode(engine, d, h);
    if secureValue.Err? {
      h.Close();
      r := Fail(secureValue.error);
      return;
    }
    r := store.Set(key, secureValue.value);
    h.Close();
  }

  /** setEncrypted followed by getEncrypted on the same key gives the data
      back, for an engine that honours the envelope contract on the two
      keyrings. */
  method SetThenGetEncrypted(key: string, d: Bytes, publicKeyring: string, secretKeyring: string,
                             files: map<string, Bytes>, store: Store, engine: Engine)
    returns (w: Outcome, r: Result<Bytes>)
    requires store.Valid()
    requires publicKeyring in files && secretKeyring in files
    requires RoundTrips(engine, files[publicKeyring], files[secretKeyring])
    modifies store`entries, store`calls
    ensures w == Pass <==> store.online && engine.encode(d, files[publicKeyring]).Ok?
    ensures w == Pass ==> r == Ok(d)
  {
    ghost var written, read;
    w, written := SetEncrypted(key, publicKeyring, d, files, store, engine);
    r, read := GetEncrypted(key, secretKeyring, files, store, engine);
  }

  /** What listEncrypted computes from a listing: every value decoded
      against the same identities, or the error of the first entry that
      fails, with nothing partial. */
  function DecodedList(pairs: seq<KVPair>, e: Engine, identities: Bytes): Result<seq<KVPair>>
  {
    if pairs == [] then Ok([])
    else
      var last := pairs[|pairs| - 1];
      match DecodedList(pairs[..|pairs| - 1], e, identities)
      case Err(err) => Err(err)
      case Ok(done) =>
        match e.decode(last.value, identities)
        case Err(err) => Err(err)
        case Ok(v) => Ok(done + [KVPair(last.key, v)])
  }

  /** Entry j is the first whose value the engine cannot decode. */
  predicate FailsFirstAt(pairs: seq<KVPair>, e: Engine, identities: Bytes, j: int)
  {
    && 0 <= j < |pairs|
    && (forall i :: 0 <= i < j ==> e.decode(pairs[i].value, identities).Ok?)
    && e.decode(pairs[j].value, identities).Err?
  }

  /** The list decodes exactly when every entry does, and then it keeps the
      keys, their order and their number, and carries each decoded value. */
  lemma {:induction false} DecodedListSucceeds(pairs: seq<KVPair>, e: Engine, identities: Bytes)
    ensures DecodedList(pairs, e, identities).Ok? <==>
              forall i :: 0 <= i < |pairs| ==> e.decode(pairs[i].value, identities).Ok?
    ensures DecodedList(pairs, e, identities).Ok? ==>
              var out := DecodedList(pairs, e, identities).value;
              && |out| == |pairs|
              && forall i :: 0 <= i < |pairs| ==>
                   out[i] == KVPair(pairs[i].key, e.decode(pairs[i].value, identities).value)
  {
    if pairs != [] {
      var init := pairs[..|pairs| - 1];
      DecodedListSucceeds(init, e, identities);
      assert forall i :: 0 <= i < |init| ==> init[i] == pairs[i];
    }
  }

  /** A list that does not decode fails with the error of its first failing entry. */
  lemma {:induction false} DecodedListFails(pairs: seq<KVPair>, e: Engine, identities: Bytes)
    ensures DecodedList(pairs, e, identities).Err? ==>
              exists j :: FailsFirstAt(pairs, e, identities, j)
                && DecodedList(pairs, e, identities).error == e.decode(pairs[j].value, identities).error
  {
    if pairs != [] {
      var init := pairs[..|pairs| - 1];
      DecodedListFails(init, e, identities);
      assert forall i :: 0 <= i < |init| ==> init[i] == pairs[i];
      if DecodedList(init, e, identities).Err? {
        var j :| FailsFirstAt(init, e, identities, j)
          && DecodedList(init, e, identities).error == e.decode(init[j].value, identities).error;
        assert FailsFirstAt(pairs, e, identities, j);
      } else {
        DecodedListSucceeds(init, e, identities);
        assert FailsFirstAt(pairs, e, identities, |pairs| - 1) || DecodedList(pairs, e, identities).Ok?;
      }
    }
  }

  /** Once a prefix of the listing has failed, the entries after it change nothing. */
  lemma {:induction false} PrefixFailure(pairs: seq<KVPair>, n: nat, e: Engine, identities: Bytes)
    requires n <= |pairs| && DecodedList(pairs[..n], e, identities).Err?
    ensures DecodedList(pairs, e, identities) == DecodedList(pairs[..n], e, identities)
  {
    if n == |pairs| {
      assert pairs[..n] == pairs;
    } else {
      var init := pairs[..|pairs| - 1];
      assert init[..n] == pairs[..n];
      PrefixFailure(init, n, e, identities);
    }
  }

  /** One more entry of the listing, decoded on top of a prefix that decoded. */
  lemma DecodedListStep(pairs: seq<KVPair>, i: nat, e: Engine, identities: Bytes)
    requires i < |pairs| && DecodedList(pairs[..i], e, identities).Ok?
    ensures DecodedList(pairs[..i + 1], e, identities) ==
              match e.decode(pairs[i].value, identities)
              case Err(err) => Err(err)
              case Ok(v) => Ok(DecodedList(pairs[..i], e, identities).value + [KVPair(pairs[i].key, v)])
  {
    assert pairs[..i + 1][..i] == pairs[..i];
  }

  /** The first entry that fails to decode, after a prefix that decoded, decides the list. */
  lemma StopsAt(pairs: seq<KVPair>, i: nat, e: Engine, identities: Bytes)
    requires i < |pairs| && DecodedList(pairs[..i], e, identities).Ok?
    requires e.decode(pairs[i].value, identities).Err?
    ensures DecodedList(pairs, e, identities) == Err(e.decode(pairs[i].value, identities).error)
    ensures FailsFirstAt(pairs, e, identities, i)
  {
    DecodedListSucceeds(pairs[..i], e, identities);
    assert forall j :: 0 <= j < i ==> pairs[..i][j] == pairs[j];
    DecodedListStep(pairs, i, e, identities);
    PrefixFailure(pairs, i + 1, e, identities);
  }

  /** A pass that decodes entry i extends the decoded prefix by that entry. */
  lemma StepDecoded(original: seq<KVPair>, before: seq<KVPair>, after: seq<KVPair>, i: nat, e: Engine, identities: Bytes)
    requires i < |original| == |before|
    requires DecodedList(original[..i], e, identities) == Ok(before[..i])
    requires e.decode(original[i].value, identities).Ok?
    requires after == before[i := original[i].(value := e.decode(original[i].value, identities).value)]
    ensures DecodedList(original[..i + 1], e, identities) == Ok(after[..i + 1])
  {
    DecodedListStep(original, i, e, identities);
    assert after[..i + 1] == before[..i] + [after[i]];
  }

  /** One pass of that loop: decode entry i against the whole keyring,
      write the result back in place, and rewind the keyring. */
  method DecodeEntry(data: array<KVPair>, i: nat, engine: Engine, h: Keyring.Handle) returns (value: Result<Bytes>)
    requires i < data.Length && h.Valid() && h.isOpen && h.offset == 0
    modifies data, h`offset, h`history
    ensures h.Valid() && h.offset == 0
    ensures h.history == old(h.history) + [h.data]
    ensures value == engine.decode(old(data[i]).value, h.data)
    ensures data[..] == old(data[..])[i := old(data[i]).(value := if value.Ok? then value.value else [])]
  {
    var kv := data[i];
    value := Decode(engine, kv.value, h);
    data[i] := kv.(value := if value.Ok? then value.value else []);
    h.Rewind();
  }

  /** The loop of listEncrypted: each value of the listing is replaced in
      place by its decoding, the keyring is rewound after every Decode, and
      the first failure stops the loop. */
  method DecodeInPlace(data: array<KVPair>, engine: Engine, h: Keyring.Handle) returns (err: Option<Error>)
    requires h.Valid() && h.isOpen && h.offset == 0 && h.history == []
    modifies data, h`offset, h`history
    ensures h.Valid() && h.offset == 0
    ensures forall j :: 0 <= j < |h.history| ==> h.history[j] == h.data
    ensures err == None <==> DecodedList(old(data[..]), engine, h.data).Ok?
    ensures err == None ==> data[..] == DecodedList(old(data[..]), engine, h.data).value && |h.history| == data.Length
    ensures err != None ==> err == Some(DecodedList(old(data[..]), engine, h.data).error)
    ensures err != None ==> FailsFirstAt(old(data[..]), engine, h.data, |h.history| - 1)
    ensures err != None ==> engine.decode(old(data[..])[|h.history| - 1].value, h.data) == Err(err.value)
  {
    ghost var original := data[..];
    var i := 0;
    while i < data.Length
      invariant 0 <= i <= data.Length
      invariant h.Valid() && h.isOpen && h.offset == 0
      invariant |h.history| == i && forall j :: 0 <= j < i ==> h.history[j] == h.data
      invariant forall j :: i <= j < data.Length ==> data[j] == original[j]
      invariant DecodedList(original[..i], engine, h.data) == Ok(data[..i])
    {
      ghost var before := data[..];
      var value := DecodeEntry(data, i, engine, h);
      if value.Err? {
        StopsAt(original, i, engine, h.data);
        return Some(value.error);
      }
      StepDecoded(original, before, data[..], i, engine, h.data);
      i := i + 1;
    }
    assert original[..i] == original;
    assert data[..i] == data[..];
    err := None;
  }

  method ListEncrypted(prefix: string, keyring: string, files: map<string, Bytes>, store: Store, engine: Engine)
    returns (r: Result<array<KVPair>>, ghost kr: Keyring.Handle?)
    modifies store`calls
    ensures keyring !in files ==> r == Err(OpenFailed(keyring)) && kr == null && store.calls == old(store.calls)
    ensures keyring in files ==> kr != null && fresh(kr) && !kr.isOpen && kr.offset == 0 && kr.data == files[keyring]
    ensures keyring in files ==> store.calls == old(store.calls) + [ListCall(prefix)]
    ensures keyring in files ==> forall j :: 0 <= j < |kr.history| ==> kr.history[j] == files[keyring]
    ensures keyring in files && !store.online ==> r == Err(Unavailable) && kr.history == []
    ensures keyring in files && store.online ==>
              var listed := WithPrefix(store.entries, prefix);
              var decoded := DecodedList(listed, engine, files[keyring]);
              && (decoded.Ok? ==> r.Ok? && fresh(r.value) && r.value[..] == decoded.value && |kr.history| == |listed|)
              && (decoded.Err? ==> r == Err(decoded.error) && FailsFirstAt(listed, engine, files[keyring], |kr.history| - 1)
                                   && engine.decode(listed[|kr.history| - 1].value, files[keyring]) == Err(r.error))
  {
    kr := null;
    var file := Keyring.Open(files, keyring);
    if file.Err? {
      r := Err(file.error);
      return;
    }
    var h := file.value;
    kr := h;
    var listed := store.List(prefix);
    if listed.Err? {
      h.Close();
      r := Err(listed.error);
      return;
    }
    var data := listed.value;
    var failure := DecodeInPlace(data, engine, h);
    h.Close();
    r := if failure.Some? then Err(failure.value) else Ok(data);
  }

  // ---------------------------------------------------------------------
  // Selection rules

  datatype BackendKind = Etcd | Consul

  /** The client getBackendStore builds: the product, and the machine list handed to it. */
  datatype BackendConfig = BackendConfig(kind: BackendKind, machines: seq<string>)

  function BackendName(kind: BackendKind): string
  {
    match kind
    case Etcd => "etcd"
    case Consul => "consul"
  }

  function GetBackendStore(provider: string, endpoint: string): (r: Result<BackendConfig>)
    ensures r.Ok? <==> provider == "etcd" || provider == "consul"
    ensures r.Ok? ==> BackendName(r.value.kind) == provider
    ensures r.Err? ==> r.error == Invalid("invalid backend " + provider)
    ensures r.Ok? && endpoint != "" ==> r.value.machines == [endpoint]
    ensures r.Ok? && endpoint == "" && provider == "consul" ==> r.value.machines == ["127.0.0.1:8500"]
    ensures r.Ok? && endpoint == "" && provider == "etcd" ==> r.value.machines == ["http://127.0.0.1:4001"]
  {
    var address :=
      if endpoint != "" then endpoint
      else if provider == "consul" then "127.0.0.1:8500"
      else if provider == "etcd" then "http://127.0.0.1:4001"
      else endpoint;
    var machines := [address];
    if provider == "etcd" then Ok(BackendConfig(Etcd, machines))
    else if provider == "consul" then Ok(BackendConfig(Consul, machines))
    else Err(Invalid("invalid backend " + provider))
  }

  function EngineName(kind: EngineKind): string
  {
    match kind
    case Pgp => "pgp"
    case Age => "age"
  }

  function GetEncryptionEngine(name: string): (r: Result<EngineKind>)
    ensures r.Ok? <==> name == "pgp" || name == "age"
    ensures r.Ok? ==> EngineName(r.value) == name
    ensures r.Err? ==> r.error == Invalid("invalid encryption engine " + name)
  {
    if name == "pgp" then Ok(Pgp)
    else if name == "age" then Ok(Age)
    else Err(Invalid("invalid encryption engine " + name))
  }

  /** Each engine is selected by its own name and by no other. */
  lemma EngineNamesSelect(kind: EngineKind)
    ensures GetEncryptionEngine(EngineName(kind)) == Ok(kind)
  {
  }

  /** Each backend is selected by its own name, with the endpoint either kept or defaulted. */
  lemma BackendNamesSelect(kind: BackendKind, endpoint: string)
    ensures GetBackendStore(BackendName(kind), endpoint).Ok?
    ensures GetBackendStore(BackendName(kind), endpoint).value.kind == kind
  {
  }
}
