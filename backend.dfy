/** The key/value store capability the commands are written against
    (Get, Set and List by prefix).  A store is a sequence of pairs in the
    order the backend lists them; its abstract value is the map from each
    key to its value. */
module Backend {
  import opened Types

  datatype KVPair = KVPair(key: string, value: Bytes)

  /** One request made of a store, as recorded in its call log. */
  datatype Call = GetCall(key: string) | SetCall(key: string, value: Bytes) | ListCall(prefix: string)

  /** The map a listing denotes; where a key occurs twice, the first occurrence wins. */
  function ToMap(entries: seq<KVPair>): map<string, Bytes>
  {
    if entries == [] then map[]
    else ToMap(entries[1..])[entries[0].key := entries[0].value]
  }

  /** No key occurs twice. */
  predicate UniqueKeys(entries: seq<KVPair>)
  {
    entries == [] || (entries[0].key !in ToMap(entries[1..]) && UniqueKeys(entries[1..]))
  }

  /** Linear search for a key. */
  function Lookup(entries: seq<KVPair>, key: string): Option<Bytes>
  {
    if entries == [] then None
    else if entries[0].key == key then Some(entries[0].value)
    else Lookup(entries[1..], key)
  }

  /** Overwrite the value of an existing key in place, or append a new pair. */
  function Put(entries: seq<KVPair>, key: string, value: Bytes): seq<KVPair>
  {
    if entries == [] then [KVPair(key, value)]
    else if entries[0].key == key then [KVPair(key, value)] + entries[1..]
    else [entries[0]] + Put(entries[1..], key, value)
  }

  /** The pairs whose key starts with the prefix, in listing order. */
  function WithPrefix(entries: seq<KVPair>, prefix: string): (r: seq<KVPair>)
    ensures |r| <= |entries|
    ensures forall kv :: kv in r ==> kv in entries && prefix <= kv.key
  {
    if entries == [] then []
    else (if prefix <= entries[0].key then [entries[0]] else []) + WithPrefix(entries[1..], prefix)
  }

  /** The answer the store contract gives to Get(key). */
  function Answer(online: bool, contents: map<string, Bytes>, key: string): Result<Bytes>
  {
    if !online then Err(Unavailable)
    else if key in contents then Ok(contents[key])
    else Err(KeyNotFound(key))
  }

  lemma {:induction false} LookupToMap(entries: seq<KVPair>, key: string)
    ensures Lookup(entries, key) == if key in ToMap(entries) then Some(ToMap(entries)[key]) else None
  {
    if entries != [] {
      LookupToMap(entries[1..], key);
    }
  }

  /** Writing a key changes the abstract map at that key and nowhere else. */
  lemma {:induction false} ToMapPut(entries: seq<KVPair>, key: string, value: Bytes)
    ensures ToMap(Put(entries, key, value)) == ToMap(entries)[key := value]
  {
    if entries == [] {
    } else if entries[0].key == key {
      assert Put(entries, key, value)[1..] == entries[1..];
    } else {
      var rest := Put(entries[1..], key, value);
      assert Put(entries, key, value)[1..] == rest;
      ToMapPut(entries[1..], key, value);
    }
  }

  /** Writing keeps every key unique. */
  lemma {:induction false} PutUniqueKeys(entries: seq<KVPair>, key: string, value: Bytes)
    requires UniqueKeys(entries)
    ensures UniqueKeys(Put(entries, key, value))
  {
    if entries == [] {
      assert Put(entries, key, value)[1..] == [];
    } else if entries[0].key == key {
      assert Put(entries, key, value)[1..] == entries[1..];
    } else {
      var rest := Put(entries[1..], key, value);
      assert Put(entries, key, value)[1..] == rest;
      PutUniqueKeys(entries[1..], key, value);
      ToMapPut(entries[1..], key, value);
    }
  }

  /** In a store with unique keys, a stored pair carries the map's value for its key. */
  lemma {:induction false} MemberToMap(entries: seq<KVPair>, kv: KVPair)
    requires UniqueKeys(entries) && kv in entries
    ensures kv.key in ToMap(entries) && ToMap(entries)[kv.key] == kv.value
  {
    if entries[0] != kv {
      assert kv in entries[1..];
      MemberToMap(entries[1..], kv);
    }
  }

  /** Every key of the map that starts with the prefix is listed. */
  lemma {:induction false} WithPrefixComplete(entries: seq<KVPair>, prefix: string, key: string)
    requires key in ToMap(entries) && prefix <= key
    ensures exists kv :: kv in WithPrefix(entries, prefix) && kv.key == key
  {
    if entries[0].key == key {
      assert entries[0] in WithPrefix(entries, prefix);
    } else {
      WithPrefixComplete(entries[1..], prefix, key);
      var kv :| kv in WithPrefix(entries[1..], prefix) && kv.key == key;
      assert kv in WithPrefix(entries, prefix);
    }
  }

  /** A listing by prefix is exactly the part of the map under that prefix. */
  lemma ListingIsContents(entries: seq<KVPair>, prefix: string)
    requires UniqueKeys(entries)
    ensures forall kv :: kv in WithPrefix(entries, prefix) ==>
              prefix <= kv.key && kv.key in ToMap(entries) && ToMap(entries)[kv.key] == kv.value
    ensures forall k :: k in ToMap(entries) && prefix <= k ==>
              exists kv :: kv in WithPrefix(entries, prefix) && kv.key == k
  {
    forall kv | kv in WithPrefix(entries, prefix)
      ensures kv.key in ToMap(entries) && ToMap(entries)[kv.key] == kv.value
    {
      MemberToMap(entries, kv);
    }
    forall k | k in ToMap(entries) && prefix <= k
      ensures exists kv :: kv in WithPrefix(entries, prefix) && kv.key == k
    {
      WithPrefixComplete(entries, prefix, k);
    }
  }

  /** A backend client (etcd or consul).  `online` says whether the backend
      answers; `calls` records every request made of it, in order. */
  class Store {
    var entries: seq<KVPair>
    var online: bool
    ghost var calls: seq<Call>

    ghost predicate Valid()
      reads this
    {
      UniqueKeys(entries)
    }

    /** The store as a map from keys to values. */
    ghost function Contents(): map<string, Bytes>
      reads this
    {
      ToMap(entries)
    }

    constructor (entries: seq<KVPair>, online: bool)
      requires UniqueKeys(entries)
      ensures Valid() && this.entries == entries && this.online == online && calls == []
    {
      this.entries := entries;
      this.online := online;
      calls := [];
    }

    method Get(key: string) returns (r: Result<Bytes>)
      modifies this`calls
      ensures calls == old(calls) + [GetCall(key)]
      ensures r == Answer(online, Contents(), key)
    {
      calls := calls + [GetCall(key)];
      if !online {
        return Err(Unavailable);
      }
      LookupToMap(entries, key);
      var found := Lookup(entries, key);
      r := if found.Some? then Ok(found.value) else Err(KeyNotFound(key));
    }

    method Set(key: string, value: Bytes) returns (r: Outcome)
      requires Valid()
      modifies this`entries, this`calls
      ensures Valid()
      ensures calls == old(calls) + [SetCall(key, value)]
      ensures online ==> r == Pass && Contents() == old(Contents())[key := value]
      ensures !online ==> r == Fail(Unavailable) && entries == old(entries)
    {
      calls := calls + [SetCall(key, value)];
      if !online {
        return Fail(Unavailable);
      }
      PutUniqueKeys(entries, key, value);
      ToMapPut(entries, key, value);
      entries := Put(entries, key, value);
      r := Pass;
    }

    /** The backend hands back a fresh slice of pairs. */
    method List(prefix: string) returns (r: Result<array<KVPair>>)
      modifies this`calls
      ensures calls == old(calls) + [ListCall(prefix)]
      ensures !online ==> r == Err(Unavailable)
      ensures online ==> r.Ok? && fresh(r.value) && r.value[..] == WithPrefix(entries, prefix)
    {
      calls := calls + [ListCall(prefix)];
      if !online {
        return Err(Unavailable);
      }
      var found := WithPrefix(entries, prefix);
      var a := new KVPair[|found|](i requires 0 <= i < |found| => found[i]);
      assert a[..] == found;
      r := Ok(a);
    }
  }
}
