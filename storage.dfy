/** `StorageService`: a wrapper over two independent key/value stores, the general
    AsyncStorage store and the Keychain. Writes, removes and multi-writes rethrow the
    store's failure; reads, key listing and multi-reads swallow it.

    The stores are in memory. Which calls fail is an input: a call on a key in
    `failingItems` (general) or `failingSecure` (Keychain) throws `failMessage`, as does
    listing the general keys when `listingFails`; a multi-key call fails as a whole
    when any of its keys is failing. */
module Storage {
  import opened Wrappers

  /** A value handed to `importData`: a string is written as it is, anything else as
      the JSON text `JSON.stringify` gives for it. */
  datatype ImportValue = Str(s: string) | NonString(json: string)

  /** The string `importData` writes for a value. */
  function ImportText(v: ImportValue): string {
    match v
    case Str(s) => s
    case NonString(j) => j
  }

  /** `Object.entries(data).map(...)` in `importData`. */
  function ImportPairs(data: seq<(string, ImportValue)>): (pairs: seq<(string, string)>)
    ensures |pairs| == |data|
    ensures forall i :: 0 <= i < |data| ==> pairs[i] == (data[i].0, ImportText(data[i].1))
  {
    seq(|data|, i requires 0 <= i < |data| => (data[i].0, ImportText(data[i].1)))
  }

  /** The store after writing `pairs` in order (a later pair for the same key wins). */
  function WriteAll(m: map<string, string>, pairs: seq<(string, string)>): (r: map<string, string>)
    ensures r.Keys == m.Keys + (set i | 0 <= i < |pairs| :: pairs[i].0)
    decreases |pairs|
  {
    if pairs == [] then m else WriteAll(m[pairs[0].0 := pairs[0].1], pairs[1..])
  }

  /** A key that no pair names keeps its value. */
  lemma {:induction false} WriteAllUnwritten(m: map<string, string>, pairs: seq<(string, string)>, k: string)
    requires forall i :: 0 <= i < |pairs| ==> pairs[i].0 != k
    ensures k in m ==> k in WriteAll(m, pairs) && WriteAll(m, pairs)[k] == m[k]
    decreases |pairs|
  {
    if pairs != [] {
      assert pairs[0].0 != k;
      var tail := pairs[1..];
      assert forall j :: 0 <= j < |tail| ==> tail[j] == pairs[j + 1];
      WriteAllUnwritten(m[pairs[0].0 := pairs[0].1], tail, k);
    }
  }

  /** A key holds the value of the last pair that names it. */
  lemma {:induction false} WriteAllLast(m: map<string, string>, pairs: seq<(string, string)>, k: string, i: nat)
    requires i < |pairs| && pairs[i].0 == k
    requires forall j :: i < j < |pairs| ==> pairs[j].0 != k
    ensures k in WriteAll(m, pairs) && WriteAll(m, pairs)[k] == pairs[i].1
    decreases i
  {
    var next := m[pairs[0].0 := pairs[0].1];
    var tail := pairs[1..];
    assert forall j :: 0 <= j < |tail| ==> tail[j] == pairs[j + 1];
    if i == 0 {
      WriteAllUnwritten(next, tail, k);
    } else {
      WriteAllLast(next, tail, k, i - 1);
    }
  }

  /** The last value written for `k` wins; keys not written keep their value. */
  lemma WriteAllLookup(m: map<string, string>, pairs: seq<(string, string)>, k: string)
    ensures (forall i :: 0 <= i < |pairs| ==> pairs[i].0 != k) ==> k in m ==> k in WriteAll(m, pairs) && WriteAll(m, pairs)[k] == m[k]
    ensures forall i :: 0 <= i < |pairs| && pairs[i].0 == k && (forall j :: i < j < |pairs| ==> pairs[j].0 != k)
              ==> WriteAll(m, pairs)[k] == pairs[i].1
  {
    if forall i :: 0 <= i < |pairs| ==> pairs[i].0 != k {
      WriteAllUnwritten(m, pairs, k);
    }
    forall i | 0 <= i < |pairs| && pairs[i].0 == k && (forall j :: i < j < |pairs| ==> pairs[j].0 != k)
      ensures WriteAll(m, pairs)[k] == pairs[i].1
    {
      WriteAllLast(m, pairs, k, i);
    }
  }

  /** What `getStorageSize` adds for one entry read back by `multiGet`. */
  function EntrySize(e: (string, Option<string>)): nat {
    if e.1.Some? && e.1.value != "" then |e.0| + |e.1.value| else 0
  }

  /** The `forEach` accumulation of `getStorageSize` over the entries read back. */
  function EntriesSize(entries: seq<(string, Option<string>)>): nat
    decreases |entries|
  {
    if entries == [] then 0 else EntriesSize(entries[..|entries| - 1]) + EntrySize(entries[|entries| - 1])
  }

  /** Size one stored key contributes: its length plus its value's, when the value is non-empty. */
  function KeySize(m: map<string, string>, k: string): nat
    requires k in m
  {
    if m[k] != "" then |k| + |m[k]| else 0
  }

  /** The storage size of a whole store, independent of any key order. */
  ghost function StoreSize(m: map<string, string>, keys: set<string>): nat
    requires keys <= m.Keys
    decreases keys
  {
    if keys == {} then 0
    else
      var k :| k in keys;
      KeySize(m, k) + StoreSize(m, keys - {k})
  }

  /** Summing the store size, any key may be taken out first. */
  lemma {:induction false} StoreSizeRemove(m: map<string, string>, keys: set<string>, x: string)
    requires keys <= m.Keys && x in keys
    ensures StoreSize(m, keys) == KeySize(m, x) + StoreSize(m, keys - {x})
    decreases keys
  {
    var k :| k in keys && StoreSize(m, keys) == KeySize(m, k) + StoreSize(m, keys - {k});
    if k != x {
      StoreSizeRemove(m, keys - {k}, x);
      StoreSizeRemove(m, keys - {x}, k);
      assert keys - {k} - {x} == keys - {x} - {k};
    }
  }

  /** The entries `multiGet` gives back for `keys` from a store that does not fail. */
  function Lookups(m: map<string, string>, keys: seq<string>): (entries: seq<(string, Option<string>)>)
    ensures |entries| == |keys|
    ensures forall i :: 0 <= i < |keys| ==> entries[i] == (keys[i], if keys[i] in m then Some(m[keys[i]]) else None)
  {
    seq(|keys|, i requires 0 <= i < |keys| => (keys[i], if keys[i] in m then Some(m[keys[i]]) else None))
  }

  /** Read back in any order that lists every key once, the entries sum to the store size. */
  lemma {:induction false} EntriesSizeIsStoreSize(m: map<string, string>, keys: seq<string>)
    requires forall i, j :: 0 <= i < j < |keys| ==> keys[i] != keys[j]
    requires forall i :: 0 <= i < |keys| ==> keys[i] in m
    ensures (set i | 0 <= i < |keys| :: keys[i]) <= m.Keys
    ensures EntriesSize(Lookups(m, keys)) == StoreSize(m, set i | 0 <= i < |keys| :: keys[i])
    decreases |keys|
  {
    if keys != [] {
      var n := |keys| - 1;
      var front := keys[..n];
      EntriesSizeIsStoreSize(m, front);
      var s := set i | 0 <= i < |keys| :: keys[i];
      var sf := set i | 0 <= i < |front| :: front[i];
      assert sf == s - {keys[n]} by {
        forall x | x in s - {keys[n]} ensures x in sf {
          var i :| 0 <= i < |keys| && keys[i] == x;
          assert i < n && front[i] == x;
        }
      }
      assert Lookups(m, keys)[..n] == Lookups(m, front);
      StoreSizeRemove(m, s, keys[n]);
    }
  }

  /** What `getSecureItem(key)` answers for a Keychain holding `keychain` whose calls on
      `failing` throw: only a stored, non-empty password. */
  function SecureLookup(keychain: map<string, string>, failing: set<string>, key: string): (v: Option<string>)
    ensures v.Some? <==> key !in failing && key in keychain && keychain[key] != ""
    ensures v.Some? ==> v.value == keychain[key] && v.value != ""
  {
    if key !in failing && key in keychain && keychain[key] != "" then Some(keychain[key]) else None
  }

  /** `setSecureItem(key, value)` on a Keychain value: the outcome and the new contents. */
  function SecureWrite(keychain: map<string, string>, failing: set<string>, key: string, value: string, failMessage: string)
    : (r: (Outcome, map<string, string>))
    ensures key in failing ==> r == (Thrown(failMessage), keychain)
    ensures key !in failing ==> r == (Ok, keychain[key := value])
  {
    if key in failing then (Thrown(failMessage), keychain) else (Ok, keychain[key := value])
  }

  class StorageService {
    /** AsyncStorage contents. */
    var items: map<string, string>
    /** Keychain contents: the password stored under each service name. */
    var keychain: map<string, string>
    /** The failure inputs (see the module comment). */
    var failingItems: set<string>
    var failingSecure: set<string>
    var listingFails: bool
    var failMessage: string

    constructor (items: map<string, string>, keychain: map<string, string>,
                 failingItems: set<string>, failingSecure: set<string>,
                 listingFails: bool, failMessage: string)
      ensures this.items == items && this.keychain == keychain
      ensures this.failingItems == failingItems && this.failingSecure == failingSecure
      ensures this.listingFails == listingFails && this.failMessage == failMessage
    {
      this.items := items;
      this.keychain := keychain;
      this.failingItems := failingItems;
      this.failingSecure := failingSecure;
      this.listingFails := listingFails;
      this.failMessage := failMessage;
    }

    /** What `getItem(key)` answers in the current state. */
    function ItemOf(key: string): (v: Option<string>)
      reads this
      ensures v.Some? <==> key !in failingItems && key in items
      ensures v.Some? ==> v.value == items[key]
    {
      if key !in failingItems && key in items then Some(items[key]) else None
    }

    /** What `getSecureItem(key)` answers: only a stored, non-empty password. */
    function SecureOf(key: string): (v: Option<string>)
      reads this
      ensures v == SecureLookup(keychain, failingSecure, key)
    {
      SecureLookup(keychain, failingSecure, key)
    }

    method SetItem(key: string, value: string) returns (o: Outcome)
      modifies this`items
      ensures key in failingItems ==> o == Thrown(failMessage) && items == old(items)
      ensures key !in failingItems ==> o == Ok && items == old(items)[key := value]
    {
      if key in failingItems {
        o := Thrown(failMessage);
      } else {
        items := items[key := value];
        o := Ok;
      }
    }

    /** `getItem`: a failure reads as `null`. */
    method GetItem(key: string) returns (v: Option<string>)
      ensures v == ItemOf(key)
      ensures key in failingItems ==> v == None
    {
      if key in failingItems || key !in items {
        v := None;
      } else {
        v := Some(items[key]);
      }
    }

    method RemoveItem(key: string) returns (o: Outcome)
      modifies this`items
      ensures key in failingItems ==> o == Thrown(failMessage) && items == old(items)
      ensures key !in failingItems ==> o == Ok && items == old(items) - {key}
    {
      if key in failingItems {
        o := Thrown(failMessage);
      } else {
        items := items - {key};
        o := Ok;
      }
    }

    /** `getAllKeys`: every stored key once, in the store's own order; a failure reads as `[]`. */
    method GetAllKeys() returns (keys: seq<string>)
      ensures listingFails ==> keys == []
      ensures !listingFails ==> forall k :: k in keys <==> k in items
      ensures forall i, j :: 0 <= i < j < |keys| ==> keys[i] != keys[j]
    {
      keys := [];
      if listingFails {
        return;
      }
      var rest := items.Keys;
      while rest != {}
        invariant rest <= items.Keys
        invariant forall k :: k in keys <==> k in items && k !in rest
        invariant forall i, j :: 0 <= i < j < |keys| ==> keys[i] != keys[j]
        decreases rest
      {
        var k :| k in rest;
        keys := keys + [k];
        rest := rest - {k};
      }
    }

    /** `multiGet(keys)`: each key with its value or `null`; a failure reads as `[]`. */
    method MultiGet(keys: seq<string>) returns (entries: seq<(string, Option<string>)>)
      ensures (exists i :: 0 <= i < |keys| && keys[i] in failingItems) ==> entries == []
      ensures (forall i :: 0 <= i < |keys| ==> keys[i] !in failingItems) ==> entries == Lookups(items, keys)
    {
      if exists i :: 0 <= i < |keys| && keys[i] in failingItems {
        entries := [];
      } else {
        entries := Lookups(items, keys);
      }
    }

    /** `multiSet(pairs)`: all pairs written in order, or (on failure) none. */
    method MultiSet(pairs: seq<(string, string)>) returns (o: Outcome)
      modifies this`items
      ensures (exists i :: 0 <= i < |pairs| && pairs[i].0 in failingItems) ==> o == Thrown(failMessage) && items == old(items)
      ensures (forall i :: 0 <= i < |pairs| ==> pairs[i].0 !in failingItems) ==> o == Ok && items == WriteAll(old(items), pairs)
    {
      if exists i :: 0 <= i < |pairs| && pairs[i].0 in failingItems {
        o := Thrown(failMessage);
      } else {
        items := WriteAll(items, pairs);
        o := Ok;
      }
    }

    /** `multiRemove(keys)`: all keys removed, or (on failure) none. */
    method MultiRemove(keys: seq<string>) returns (o: Outcome)
      modifies this`items
      ensures (exists i :: 0 <= i < |keys| && keys[i] in failingItems) ==> o == Thrown(failMessage) && items == old(items)
      ensures (forall i :: 0 <= i < |keys| ==> keys[i] !in failingItems) ==> o == Ok && items == old(items) - (set i | 0 <= i < |keys| :: keys[i])
    {
      if exists i :: 0 <= i < |keys| && keys[i] in failingItems {
        o := Thrown(failMessage);
      } else {
        items := items - (set i | 0 <= i < |keys| :: keys[i]);
        o := Ok;
      }
    }

    /** `setSecureItem`: stores `value` as the password of service `key`. */
    method SetSecureItem(key: string, value: string) returns (o: Outcome)
      modifies this`keychain
      ensures key in failingSecure ==> o == Thrown(failMessage) && keychain == old(keychain)
      ensures key !in failingSecure ==> o == Ok && keychain == old(keychain)[key := value]
      ensures (o, keychain) == SecureWrite(old(keychain), failingSecure, key, value, failMessage)
    {
      if key in failingSecure {
        o := Thrown(failMessage);
      } else {
        keychain := keychain[key := value];
        o := Ok;
      }
    }

    /** `getSecureItem`: no credential, an empty password and a failure all read as `null`. */
    method GetSecureItem(key: string) returns (v: Option<string>)
      ensures v == SecureOf(key)
      ensures key in keychain && keychain[key] == "" ==> v == None
    {
      if key in failingSecure || key !in keychain || keychain[key] == "" {
        v := None;
      } else {
        v := Some(keychain[key]);
      }
    }

    method RemoveSecureItem(key: string) returns (o: Outcome)
      modifies this`keychain
      ensures key in failingSecure ==> o == Thrown(failMessage) && keychain == old(keychain)
      ensures key !in failingSecure ==> o == Ok && keychain == old(keychain) - {key}
    {
      if key in failingSecure {
        o := Thrown(failMessage);
      } else {
        keychain := keychain - {key};
        o := Ok;
      }
    }

    /** `hasSecureItem`: any credential counts, an empty password too; a failure reads as `false`. */
    method HasSecureItem(key: string) returns (b: bool)
      ensures b <==> key !in failingSecure && key in keychain
      ensures b && SecureOf(key).None? ==> keychain[key] == ""
    {
      b := key !in failingSecure && key in keychain;
    }

    /** `getStorageSize`: list the keys, read them back, add up key and value lengths of
        the entries whose value is non-empty. */
    method GetStorageSize() returns (total: nat)
      ensures listingFails ==> total == 0
      ensures !listingFails && items.Keys * failingItems == {} ==> total == StoreSize(items, items.Keys)
      ensures !listingFails && items.Keys * failingItems != {} ==> total == 0
    {
      var keys := GetAllKeys();
      var entries := MultiGet(keys);
      total := 0;
      var i := 0;
      while i < |entries|
        invariant 0 <= i <= |entries|
        invariant total == EntriesSize(entries[..i])
      {
        var (key, value) := entries[i];
        if value.Some? && value.value != "" {
          total := total + |key| + |value.value|;
        }
        assert entries[..i + 1][..i] == entries[..i];
        i := i + 1;
      }
      assert entries[..i] == entries;
      if !listingFails {
        assert (set i | 0 <= i < |keys| :: keys[i]) == items.Keys by {
          forall k | k in items ensures k in (set i | 0 <= i < |keys| :: keys[i]) {
            assert k in keys;
          }
        }
        if items.Keys * failingItems == {} {
          forall i | 0 <= i < |keys| ensures keys[i] in items && keys[i] !in failingItems {
            assert keys[i] in keys;
            assert keys[i] !in items.Keys * failingItems;
          }
          assert entries == Lookups(items, keys);
          EntriesSizeIsStoreSize(items, keys);
        } else {
          var k :| k in items.Keys * failingItems;
          assert k in keys;
        }
      }
    }

    /** `importData`: every entry turned into a string pair and written in one `multiSet`. */
    method ImportData(data: seq<(string, ImportValue)>) returns (o: Outcome)
      modifies this`items
      ensures (exists i :: 0 <= i < |data| && data[i].0 in failingItems) ==> o == Thrown(failMessage) && items == old(items)
      ensures (forall i :: 0 <= i < |data| ==> data[i].0 !in failingItems) ==> o == Ok && items == WriteAll(old(items), ImportPairs(data))
    {
      var pairs := ImportPairs(data);
      o := MultiSet(pairs);
    }
  }
}
