/**
 * The key-value table the server reads and writes through `kv_store.tsx`.
 * That module's code is not part of this model: the table is a map from keys
 * to JSON documents, and each call below is the abstract operation the
 * handlers rely on. When the storage cannot be reached every call fails and
 * changes nothing.
 */
module KvStore {
  import opened Wrappers
  import opened Records

  datatype StoreError = StorageUnavailable

  /** The keys of `m` that start with `prefix`. */
  function Matching(m: map<string, Value>, prefix: string): set<string> {
    set k | k in m && prefix <= k
  }

  /** `keys` names every key of `m` that starts with `prefix`, each once. */
  ghost predicate IsScan(m: map<string, Value>, prefix: string, keys: seq<string>) {
    && (forall i :: 0 <= i < |keys| ==> keys[i] in m && prefix <= keys[i])
    && (forall i, j :: 0 <= i < j < |keys| ==> keys[i] != keys[j])
    && (forall k :: k in m && prefix <= k ==> k in keys)
  }

  /** The documents stored under `keys`, in the same order. */
  function ValuesAt(m: map<string, Value>, keys: seq<string>): (vs: seq<Value>)
    requires forall i :: 0 <= i < |keys| ==> keys[i] in m
    ensures |vs| == |keys|
  {
    seq(|keys|, i requires 0 <= i < |keys| => m[keys[i]])
  }

  /** A scan lists exactly as many documents as there are matching keys. */
  lemma {:induction false} ScanSize(m: map<string, Value>, prefix: string, keys: seq<string>)
    requires IsScan(m, prefix, keys)
    ensures |keys| == |Matching(m, prefix)|
    ensures Matching(m, prefix) == {} <==> keys == []
  {
    if keys != [] {
      var last := keys[|keys| - 1];
      var rest := keys[..|keys| - 1];
      var m' := m - {last};
      assert IsScan(m', prefix, rest) by {
        forall k | k in m' && prefix <= k ensures k in rest {
          assert k in keys && k != last;
        }
      }
      ScanSize(m', prefix, rest);
      assert Matching(m', prefix) == Matching(m, prefix) - {last};
      assert last in Matching(m, prefix);
    } else {
      assert forall k :: k in Matching(m, prefix) ==> k in keys;
    }
  }

  class Store {
    var table: map<string, Value>
    var reachable: bool

    constructor (initial: map<string, Value>, reachable: bool)
      ensures table == initial && this.reachable == reachable
    {
      table := initial;
      this.reachable := reachable;
    }

    /** `kv.get`: the document under `key`, or None for a key never set. */
    method Get(key: string) returns (r: Result<Option<Value>, StoreError>)
      ensures reachable ==> r.Ok? && (r.value.Some? <==> key in table)
      ensures reachable && key in table ==> r.value.value == table[key]
      ensures !reachable ==> r == Err(StorageUnavailable)
    {
      if !reachable {
        return Err(StorageUnavailable);
      }
      r := Ok(if key in table then Some(table[key]) else None);
    }

    /** `kv.set`: replaces the whole document under `key`. */
    method Set(key: string, value: Value) returns (r: Result<(), StoreError>)
      modifies this`table
      ensures r.Ok? == reachable
      ensures table == if reachable then old(table)[key := value] else old(table)
    {
      if !reachable {
        return Err(StorageUnavailable);
      }
      table := table[key := value];
      r := Ok(());
    }

    /** `kv.mdel`: removes every listed key, present or not. */
    method Mdel(keys: seq<string>) returns (r: Result<(), StoreError>)
      modifies this`table
      ensures r.Ok? == reachable
      ensures table == if reachable then old(table) - (set k | k in keys) else old(table)
    {
      if !reachable {
        return Err(StorageUnavailable);
      }
      table := table - (set k | k in keys);
      r := Ok(());
    }

    /** `kv.getByPrefix`: the documents of all keys starting with `prefix`,
        as one sequence; no match gives the empty sequence. The order is the
        backend's and is not modelled: `keys` records the one chosen. */
    method GetByPrefix(prefix: string) returns (r: Result<seq<Value>, StoreError>, ghost keys: seq<string>)
      ensures reachable ==> IsScan(table, prefix, keys) && r == Ok(ValuesAt(table, keys))
      ensures !reachable ==> r == Err(StorageUnavailable)
    {
      keys := [];
      if !reachable {
        return Err(StorageUnavailable), keys;
      }
      var pending := table.Keys;
      var found: seq<Value> := [];
      while pending != {}
        invariant pending <= table.Keys
        invariant forall i :: 0 <= i < |keys| ==> keys[i] in table && prefix <= keys[i] && keys[i] !in pending
        invariant forall i, j :: 0 <= i < j < |keys| ==> keys[i] != keys[j]
        invariant forall k :: k in table && prefix <= k && k !in pending ==> k in keys
        invariant |found| == |keys| && forall i :: 0 <= i < |keys| ==> found[i] == table[keys[i]]
        decreases pending
      {
        var k :| k in pending;
        if prefix <= k {
          keys := keys + [k];
          found := found + [table[k]];
        }
        pending := pending - {k};
      }
      assert found == ValuesAt(table, keys);
      r := Ok(found);
    }
  }
}
