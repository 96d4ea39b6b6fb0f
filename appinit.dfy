/** The version and start-up bookkeeping of `src/utils/AppInitializer.ts`: the dotted
    version comparison, the major-update test, the first-launch flag, the version
    record written on an update, the cache clearing and the settings migration that
    an upgrade triggers, and the app information read back.

    Storage is the `StorageService` of the storage module. Timestamps (`Date.now()`)
    are passed in as their decimal text. */
module AppInit {
  import opened Wrappers
  import opened Text
  import opened Storage

  predicate AllDigits(s: string) {
    forall i :: 0 <= i < |s| ==> IsDigit(s[i])
  }

  /** The decimal value of a digit string. */
  function DigitsValue(s: string): nat
    requires AllDigits(s)
  {
    if s == [] then 0 else DigitsValue(s[..|s| - 1]) * 10 + (s[|s| - 1] as int - '0' as int)
  }

  /** `Number(segment) || 0` for one version segment: surrounding white space is
      ignored, an empty segment is 0, an optionally signed run of digits is its value,
      and anything else (`NaN`) becomes 0. */
  function SegmentValue(seg: string): (v: int)
    ensures AllDigits(seg) ==> v == DigitsValue(seg)
  {
    var t := Trim(seg);
    if AllDigits(t) then DigitsValue(t)
    else if |t| > 1 && t[0] == '-' && AllDigits(t[1..]) then 0 - DigitsValue(t[1..])
    else if |t| > 1 && t[0] == '+' && AllDigits(t[1..]) then DigitsValue(t[1..])
    else 0
  }

  /** The cases of `SegmentValue` on the trimmed segment `t`: a digit run, a signed
      digit run, and anything else. */
  lemma SegmentValueCases(seg: string)
    ensures var t := Trim(seg);
      && (AllDigits(t) ==> SegmentValue(seg) == DigitsValue(t))
      && (|t| > 1 && t[0] == '-' && AllDigits(t[1..]) ==> SegmentValue(seg) == 0 - DigitsValue(t[1..]))
      && (|t| > 1 && t[0] == '+' && AllDigits(t[1..]) ==> SegmentValue(seg) == DigitsValue(t[1..]))
      && (!AllDigits(t) && !(|t| > 1 && (t[0] == '-' || t[0] == '+')) ==> SegmentValue(seg) == 0)
  {
  }

  /** `version.split('.').map(Number)`, with `NaN` already read as 0. */
  function Parts(version: string): (ps: seq<int>)
    ensures |ps| == |Split(version, '.')| >= 1
    ensures forall i :: 0 <= i < |ps| ==> ps[i] == SegmentValue(Split(version, '.')[i])
  {
    var segs := Split(version, '.');
    seq(|segs|, i requires 0 <= i < |segs| => SegmentValue(segs[i]))
  }

  /** `parts[i] || 0`: a missing segment counts as 0. */
  function Part(ps: seq<int>, i: nat): int {
    if i < |ps| then ps[i] else 0
  }

  function Longest(a: seq<int>, b: seq<int>): nat {
    if |a| > |b| then |a| else |b|
  }

  /** The comparison loop of `isVersionGreater`, from segment `i` on. */
  function GreaterFrom(a: seq<int>, b: seq<int>, i: nat): bool
    decreases Longest(a, b) - i
  {
    if i >= Longest(a, b) then false
    else if Part(a, i) > Part(b, i) then true
    else if Part(a, i) < Part(b, i) then false
    else GreaterFrom(a, b, i + 1)
  }

  /** `isVersionGreater(v1, v2)`: the first segment where the two differ decides,
      a missing segment counting as 0. */
  function VersionGreater(v1: string, v2: string): (b: bool)
    ensures b <==> exists k :: 0 <= k < Longest(Parts(v1), Parts(v2)) && Part(Parts(v1), k) > Part(Parts(v2), k)
                               && forall j :: 0 <= j < k ==> Part(Parts(v1), j) == Part(Parts(v2), j)
  {
    GreaterFromIsLexicographic(Parts(v1), Parts(v2), 0);
    GreaterFrom(Parts(v1), Parts(v2), 0)
  }

  /** The loop stops at the first segment where the two differ, and says whether the
      first version is larger there. */
  lemma {:induction false} GreaterFromIsLexicographic(a: seq<int>, b: seq<int>, i: nat)
    ensures GreaterFrom(a, b, i) <==>
            exists k :: i <= k < Longest(a, b) && Part(a, k) > Part(b, k)
                        && forall j :: i <= j < k ==> Part(a, j) == Part(b, j)
    decreases Longest(a, b) - i
  {
    if i < Longest(a, b) {
      GreaterFromIsLexicographic(a, b, i + 1);
      if Part(a, i) > Part(b, i) {
      } else if Part(a, i) < Part(b, i) {
        forall k | i <= k < Longest(a, b) && Part(a, k) > Part(b, k)
          ensures !(forall j :: i <= j < k ==> Part(a, j) == Part(b, j))
        {
          assert k != i;
        }
      } else {
        if GreaterFrom(a, b, i + 1) {
          var k :| i + 1 <= k < Longest(a, b) && Part(a, k) > Part(b, k)
                   && forall j :: i + 1 <= j < k ==> Part(a, j) == Part(b, j);
          assert forall j :: i <= j < k ==> Part(a, j) == Part(b, j);
        }
        forall k | i <= k < Longest(a, b) && Part(a, k) > Part(b, k) && (forall j :: i <= j < k ==> Part(a, j) == Part(b, j))
          ensures GreaterFrom(a, b, i + 1)
        {
          assert k != i;
          assert forall j :: i + 1 <= j < k ==> Part(a, j) == Part(b, j);
        }
      }
    }
  }

  /** No version is greater than one with the same segment values. */
  lemma {:induction false} SamePartsNotGreater(a: seq<int>, b: seq<int>, i: nat)
    requires forall k :: i <= k < Longest(a, b) ==> Part(a, k) == Part(b, k)
    ensures !GreaterFrom(a, b, i)
    decreases Longest(a, b) - i
  {
    if i < Longest(a, b) {
      SamePartsNotGreater(a, b, i + 1);
    }
  }

  /** Irreflexive: no version is greater than itself. */
  lemma Irreflexive(v: string)
    ensures !VersionGreater(v, v)
  {
    SamePartsNotGreater(Parts(v), Parts(v), 0);
  }

  /** Asymmetric. */
  lemma {:induction false} AsymmetricFrom(a: seq<int>, b: seq<int>, i: nat)
    ensures GreaterFrom(a, b, i) ==> !GreaterFrom(b, a, i)
    decreases Longest(a, b) - i
  {
    assert Longest(a, b) == Longest(b, a);
    if i < Longest(a, b) && Part(a, i) == Part(b, i) {
      AsymmetricFrom(a, b, i + 1);
    }
  }

  lemma Asymmetric(v1: string, v2: string)
    ensures VersionGreater(v1, v2) ==> !VersionGreater(v2, v1)
  {
    AsymmetricFrom(Parts(v1), Parts(v2), 0);
  }

  /** Transitive. */
  lemma {:induction false} TransitiveFrom(a: seq<int>, b: seq<int>, c: seq<int>, i: nat)
    requires GreaterFrom(a, b, i) && GreaterFrom(b, c, i)
    ensures GreaterFrom(a, c, i)
    decreases Longest(a, b) + Longest(b, c) - 2 * i
  {
    if Part(a, i) == Part(b, i) && Part(b, i) == Part(c, i) {
      TransitiveFrom(a, b, c, i + 1);
      GreaterNeedsRoom(a, c, i + 1);
    }
  }

  /** Past both lengths every segment is 0, so nothing is greater. */
  lemma GreaterNeedsRoom(a: seq<int>, b: seq<int>, i: nat)
    ensures GreaterFrom(a, b, i) ==> i < Longest(a, b)
  {
  }

  lemma Transitive(v1: string, v2: string, v3: string)
    requires VersionGreater(v1, v2) && VersionGreater(v2, v3)
    ensures VersionGreater(v1, v3)
  {
    TransitiveFrom(Parts(v1), Parts(v2), Parts(v3), 0);
  }

  /** One step of `split`: a leading character joins the first piece or, when it is the
      separator, starts a new one. */
  lemma SplitStep(c: char, s: string, sep: char)
    ensures Split([c] + s, sep) == if c == sep then [""] + Split(s, sep)
                                   else [[c] + Split(s, sep)[0]] + Split(s, sep)[1..]
  {
    assert ([c] + s)[1..] == s;
  }

  /** `"x.y".split('.')` for two digits `x` and `y`. */
  lemma SplitDigits(x: char, y: char)
    requires IsDigit(x) && IsDigit(y)
    ensures Split([x, '.', y], '.') == [[x], [y]]
  {
    assert Split([], '.') == [""];
    SplitStep(y, [], '.');
    assert [y] + [] == [y] && [y] + "" == [y];
    assert Split([y], '.') == [[y]];
    SplitStep('.', [y], '.');
    assert ['.', y] == ['.'] + [y];
    SplitStep(x, ['.', y], '.');
    assert [x, '.', y] == [x] + ['.', y];
    assert [x] + "" == [x];
  }

  /** A one-digit segment is worth its digit. */
  lemma DigitSegment(x: char)
    requires IsDigit(x)
    ensures SegmentValue([x]) == x as int - '0' as int
  {
    OneDigitValue(x);
  }

  lemma OneDigitValue(x: char)
    requires IsDigit(x)
    ensures AllDigits([x]) && DigitsValue([x]) == x as int - '0' as int
  {
    assert [x][..0] == [];
  }

  /** Appending `.0` appends a zero segment. */
  lemma PartsWithZero(v: string)
    ensures Parts(v + ".0") == Parts(v) + [0]
  {
    SplitConcat(v, '.', "0");
    assert v + ".0" == v + ['.'] + "0";
    assert Split("0", '.') == ["0"] by {
      SplitStep('0', [], '.');
      assert "0" == ['0'] + [] && ['0'] + "" == "0";
    }
    DigitSegment('0');
    var ps, qs := Parts(v + ".0"), Parts(v);
    var segs := Split(v + ".0", '.');
    assert segs == Split(v, '.') + ["0"];
    assert segs[|qs|] == ['0'];
    assert forall i :: 0 <= i < |qs| ==> ps[i] == qs[i];
    assert ps[|qs|] == 0;
  }

  /** A trailing `.0` makes no difference: neither of `v` and `v + ".0"` is greater
      than the other. */
  lemma TrailingZeroIsEqual(v: string)
    ensures !VersionGreater(v, v + ".0") && !VersionGreater(v + ".0", v)
  {
    PartsWithZero(v);
    var a, b := Parts(v), Parts(v + ".0");
    assert forall k :: 0 <= k ==> Part(a, k) == Part(b, k);
    SamePartsNotGreater(a, b, 0);
    SamePartsNotGreater(b, a, 0);
  }

  /** The longest run of digits at the start of `s`. */
  function LeadingDigits(s: string): (d: string)
    ensures |d| <= |s| && d == s[..|d|] && AllDigits(d)
    ensures |d| < |s| ==> !IsDigit(s[|d|])
    ensures AllDigits(s) ==> d == s
  {
    if s != [] && IsDigit(s[0]) then [s[0]] + LeadingDigits(s[1..]) else []
  }

  /** `parseInt(s, 10)`: leading white space skipped, an optional sign, then the longest
      run of digits; `None` stands for `NaN` when there is no digit. */
  function ParseInt(s: string): (r: Option<int>)
    ensures AllDigits(s) && s != [] ==> r == Some(DigitsValue(s))
  {
    var t := TrimStart(s);
    var signed := |t| > 0 && (t[0] == '-' || t[0] == '+');
    var d := LeadingDigits(if signed then t[1..] else t);
    if d == [] then None
    else if signed && t[0] == '-' then Some(0 - DigitsValue(d))
    else Some(DigitsValue(d))
  }

  /** `isMajorUpdate`: the new leading integer exceeds the old; a comparison with `NaN`
      is false. */
  function IsMajorUpdate(oldVersion: string, newVersion: string): (major: bool)
    ensures ParseInt(Split(oldVersion, '.')[0]).None? || ParseInt(Split(newVersion, '.')[0]).None? ==> !major
    ensures var o, n := Split(oldVersion, '.')[0], Split(newVersion, '.')[0];
            AllDigits(o) && o != [] && AllDigits(n) && n != [] ==>
              (major <==> DigitsValue(n) > DigitsValue(o))
  {
    var o := ParseInt(Split(oldVersion, '.')[0]);
    var n := ParseInt(Split(newVersion, '.')[0]);
    o.Some? && n.Some? && n.value > o.value
  }

  /** When both leading segments are plain digits, a major update is a greater version. */
  lemma MajorIsGreater(oldVersion: string, newVersion: string)
    requires AllDigits(Split(oldVersion, '.')[0]) && Split(oldVersion, '.')[0] != []
    requires AllDigits(Split(newVersion, '.')[0]) && Split(newVersion, '.')[0] != []
    ensures IsMajorUpdate(oldVersion, newVersion) ==> VersionGreater(newVersion, oldVersion)
  {
    var a, b := Parts(newVersion), Parts(oldVersion);
    assert Part(a, 0) == a[0] && Part(b, 0) == b[0];
  }

  /** The leading integer decides a major update, not the whole version: `"2.0"` over
      `"1.9"` is one, `"1.9"` over `"1.1"` is not, though it is greater. */
  lemma MinorIsNotMajor()
    ensures IsMajorUpdate("1.9", "2.0") && !IsMajorUpdate("1.1", "1.9")
  {
    SplitDigits('1', '9');
    SplitDigits('2', '0');
    SplitDigits('1', '1');
    assert ParseInt("1") == Some(1) by { OneDigitValue('1'); }
    assert ParseInt("2") == Some(2) by { OneDigitValue('2'); }
  }

  /** `isVersionGreater` as the source writes it: an index loop with early returns. */
  method IsVersionGreater(v1: string, v2: string) returns (greater: bool)
    ensures greater == VersionGreater(v1, v2)
  {
    var a := Parts(v1);
    var b := Parts(v2);
    var n := if |a| > |b| then |a| else |b|;
    var i := 0;
    while i < n
      invariant 0 <= i <= n == Longest(a, b)
      invariant GreaterFrom(a, b, 0) == GreaterFrom(a, b, i)
    {
      var x := Part(a, i);
      var y := Part(b, i);
      if x > y {
        return true;
      }
      if x < y {
        return false;
      }
      i := i + 1;
    }
    return false;
  }

  /** `getItem(key)` on a store with these failing keys (a failure reads as `null`). */
  function ReadItem(items: map<string, string>, failing: set<string>, key: string): (v: Option<string>)
    ensures v.Some? <==> key in items && key !in failing
    ensures v.Some? ==> v.value == items[key]
  {
    if key in items && key !in failing then Some(items[key]) else None
  }

  const LaunchedKey: string := "hasLaunchedBefore"

  /** `checkFirstLaunch`: a first launch when the flag reads falsy and writing it
      succeeds; the result and the store afterwards. */
  function FirstLaunch(items: map<string, string>, failing: set<string>): (r: (bool, map<string, string>))
    ensures r.0 <==> !Truthy(ReadItem(items, failing, LaunchedKey)) && LaunchedKey !in failing
    ensures r.0 ==> r.1 == items[LaunchedKey := "true"]
    ensures !r.0 ==> r.1 == items
  {
    if Truthy(ReadItem(items, failing, LaunchedKey)) then (false, items)
    else if LaunchedKey in failing then (false, items)
    else (true, items[LaunchedKey := "true"])
  }

  /** Right after a launch, the next launch is not the first. */
  lemma LaunchOnce(items: map<string, string>, failing: set<string>)
    ensures !FirstLaunch(FirstLaunch(items, failing).1, failing).0
  {
  }

  method CheckFirstLaunch(storage: StorageService) returns (first: bool)
    modifies storage`items
    ensures (first, storage.items) == FirstLaunch(old(storage.items), storage.failingItems)
  {
    var launched := storage.GetItem(LaunchedKey);
    if !Truthy(launched) {
      var o := storage.SetItem(LaunchedKey, "true");
      if o.Thrown? {
        return false;
      }
      return true;
    }
    return false;
  }

  /** The keys that survive `clearAppCache`. */
  const KeysToKeep: seq<string> :=
    ["hasLaunchedBefore", "appVersion", "buildNumber", "firstLaunchTimestamp", "appSettings", "userPreferences"]

  /** `allKeys.filter(key => !keysToKeep.includes(key))`, order kept. */
  function CacheKeys(keys: seq<string>): (r: seq<string>)
    ensures |r| <= |keys|
    ensures forall k :: k in r <==> k in keys && k !in KeysToKeep
  {
    if keys == [] then []
    else if keys[0] in KeysToKeep then CacheKeys(keys[1..])
    else [keys[0]] + CacheKeys(keys[1..])
  }

  /** The store after `clearAppCache`: with the keys listed and every cache key
      removable, only the kept keys remain; otherwise (the listing or the removal
      fails) the store is as it was. Kept keys are never touched. */
  function CacheCleared(items: map<string, string>, failing: set<string>, listingFails: bool)
    : (r: map<string, string>)
    ensures r.Keys <= items.Keys
    ensures forall k :: k in KeysToKeep && k in items ==> k in r && r[k] == items[k]
    ensures !listingFails && (forall k :: k in items && k !in KeysToKeep ==> k !in failing)
            ==> forall k :: k in r ==> k in KeysToKeep
  {
    if listingFails || exists k :: k in items && k !in KeysToKeep && k in failing then items
    else map k | k in items && k in KeysToKeep :: items[k]
  }

  method ClearAppCache(storage: StorageService)
    modifies storage`items
    ensures storage.items == CacheCleared(old(storage.items), storage.failingItems, storage.listingFails)
  {
    var keys := storage.GetAllKeys();
    var remove := CacheKeys(keys);
    ghost var removed := set i | 0 <= i < |remove| :: remove[i];
    if |remove| > 0 {
      var o := storage.MultiRemove(remove);
      assert |keys| > 0;
      assert forall k :: k in removed <==> k in old(storage.items) && k !in KeysToKeep by {
        forall k ensures k in removed <==> k in old(storage.items) && k !in KeysToKeep {
          if k in removed {
            var i :| 0 <= i < |remove| && remove[i] == k;
          }
          if k in old(storage.items) && k !in KeysToKeep {
            assert k in remove;
            var i :| 0 <= i < |remove| && remove[i] == k;
          }
        }
      }
      if o.Ok? {
        assert storage.items == map k | k in old(storage.items) && k in KeysToKeep :: old(storage.items)[k];
        assert !exists k :: k in old(storage.items) && k !in KeysToKeep && k in storage.failingItems by {
          forall k | k in old(storage.items) && k !in KeysToKeep ensures k !in storage.failingItems {
            assert k in remove;
            var i :| 0 <= i < |remove| && remove[i] == k;
          }
        }
      } else {
        var i :| 0 <= i < |remove| && remove[i] in storage.failingItems;
        assert remove[i] in old(storage.items) && remove[i] !in KeysToKeep;
      }
    } else if !storage.listingFails {
      assert remove == [];
      forall k | k in old(storage.items) ensures k in KeysToKeep {
        assert k in keys;
      }
      assert storage.items == map k | k in old(storage.items) && k in KeysToKeep :: old(storage.items)[k];
    }
  }

  /** The stored settings object as far as the migration reads it: whether it has a
      truthy `newFeature` (its other fields are carried along unread). */
  datatype AppSettings = AppSettings(hasNewFeature: bool)

  /** `migrateSettings`: the object written back, if any. Stored settings below 1.1.0
      without the feature get `newFeature: {enabled: true}`; nothing else is written. */
  function MigrateSettings(settings: Option<AppSettings>, oldVersion: string): (written: Option<AppSettings>)
    ensures written.Some? <==> settings.Some? && VersionGreater("1.1.0", oldVersion) && !settings.value.hasNewFeature
    ensures written.Some? ==> written.value.hasNewFeature
  {
    if settings.Some? && VersionGreater("1.1.0", oldVersion) && !settings.value.hasNewFeature
    then Some(settings.value.(hasNewFeature := true))
    else None
  }

  /** Running the migration on what it wrote writes nothing more. */
  lemma MigrateOnce(settings: Option<AppSettings>, oldVersion: string)
    ensures var w := MigrateSettings(settings, oldVersion);
            w.Some? ==> MigrateSettings(w, oldVersion).None?
  {
  }

  /** `handleAppUpdate`'s decisions: whether it clears the cache and whether it migrates. */
  datatype UpdatePlan = UpdatePlan(clearCache: bool, migrate: bool)

  function PlanUpdate(oldVersion: Option<string>, newVersion: string): (p: UpdatePlan)
    ensures !Truthy(oldVersion) ==> p == UpdatePlan(false, false)
    ensures Truthy(oldVersion) ==> (p.migrate <==> VersionGreater(newVersion, oldVersion.value))
    ensures Truthy(oldVersion) ==>
              (p.clearCache <==> (VersionGreater(newVersion, oldVersion.value) && IsMajorUpdate(oldVersion.value, newVersion)))
    ensures p.clearCache ==> p.migrate
  {
    if !Truthy(oldVersion) then UpdatePlan(false, false)
    else if VersionGreater(newVersion, oldVersion.value) then UpdatePlan(IsMajorUpdate(oldVersion.value, newVersion), true)
    else UpdatePlan(false, false)
  }

  /** A downgrade or a reinstall of the same version changes nothing. */
  lemma NoUpgradeNoWork(oldVersion: string, newVersion: string)
    ensures !VersionGreater(newVersion, oldVersion) ==> PlanUpdate(Some(oldVersion), newVersion) == UpdatePlan(false, false)
    ensures PlanUpdate(Some(newVersion), newVersion) == UpdatePlan(false, false)
  {
    Irreflexive(newVersion);
  }

  /** `handleAppUpdate`, given the settings object the migration would read; answers
      the object the migration writes back. */
  method HandleAppUpdate(storage: StorageService, oldVersion: Option<string>, newVersion: string,
                         settings: Option<AppSettings>)
    returns (migrated: Option<AppSettings>)
    modifies storage`items
    ensures var p := PlanUpdate(oldVersion, newVersion);
            storage.items == (if p.clearCache then CacheCleared(old(storage.items), storage.failingItems, storage.listingFails)
                              else old(storage.items))
            && migrated == (if p.migrate then MigrateSettings(settings, oldVersion.value) else None)
  {
    if !Truthy(oldVersion) {
      return None;
    }
    var greater := IsVersionGreater(newVersion, oldVersion.value);
    migrated := None;
    if greater {
      if IsMajorUpdate(oldVersion.value, newVersion) {
        ClearAppCache(storage);
      }
      migrated := MigrateSettings(settings, oldVersion.value);
    }
  }

  /** The three writes of `updateAppVersion`, in order, stopping at the first that
      throws; whether all three went through. */
  function RecordVersion(items: map<string, string>, failing: set<string>, current: string, build: string, now: string)
    : (r: (map<string, string>, bool))
    ensures r.1 <==> "appVersion" !in failing && "buildNumber" !in failing && "lastUpdateTimestamp" !in failing
    ensures r.1 ==> r.0.Keys == items.Keys + {"appVersion", "buildNumber", "lastUpdateTimestamp"}
    ensures r.1 ==> r.0["appVersion"] == current && r.0["buildNumber"] == build && r.0["lastUpdateTimestamp"] == now
    ensures forall k :: k in items && k !in {"appVersion", "buildNumber", "lastUpdateTimestamp"} ==> k in r.0 && r.0[k] == items[k]
    ensures !r.1 ==> r.0.Keys <= items.Keys + {"appVersion", "buildNumber"}
  {
    if "appVersion" in failing then (items, false)
    else if "buildNumber" in failing then (items["appVersion" := current], false)
    else if "lastUpdateTimestamp" in failing then (items["appVersion" := current]["buildNumber" := build], false)
    else (items["appVersion" := current]["buildNumber" := build]["lastUpdateTimestamp" := now], true)
  }

  /** Whether `updateAppVersion` sees an update: the stored version or build (a failed
      read counts as missing) differs from the running one. */
  function VersionChanged(items: map<string, string>, failing: set<string>, current: string, build: string): bool {
    ReadItem(items, failing, "appVersion") != Some(current) || ReadItem(items, failing, "buildNumber") != Some(build)
  }

  /** `updateAppVersion`: nothing happens when the stored version and build match;
      otherwise the record is written and, if all three writes succeed, the update is
      handled from the stored version. */
  method UpdateAppVersion(storage: StorageService, current: string, build: string, now: string,
                          settings: Option<AppSettings>)
    returns (migrated: Option<AppSettings>)
    modifies storage`items
    ensures var stored := ReadItem(old(storage.items), storage.failingItems, "appVersion");
            var written := RecordVersion(old(storage.items), storage.failingItems, current, build, now);
            var p := PlanUpdate(stored, current);
            if !VersionChanged(old(storage.items), storage.failingItems, current, build) then
              storage.items == old(storage.items) && migrated.None?
            else if !written.1 then
              storage.items == written.0 && migrated.None?
            else
              storage.items == (if p.clearCache then CacheCleared(written.0, storage.failingItems, storage.listingFails)
                                else written.0)
              && migrated == (if p.migrate then MigrateSettings(settings, stored.value) else None)
  {
    var storedVersion := storage.GetItem("appVersion");
    var storedBuild := storage.GetItem("buildNumber");
    migrated := None;
    if storedVersion != Some(current) || storedBuild != Some(build) {
      var o := storage.SetItem("appVersion", current);
      if o.Thrown? { return; }
      o := storage.SetItem("buildNumber", build);
      if o.Thrown? { return; }
      o := storage.SetItem("lastUpdateTimestamp", now);
      if o.Thrown? { return; }
      migrated := HandleAppUpdate(storage, storedVersion, current, settings);
    }
  }

  /** Storing the running version and build makes the next start see no update. */
  lemma RecordedVersionIsCurrent(items: map<string, string>, failing: set<string>, current: string, build: string, now: string)
    requires RecordVersion(items, failing, current, build, now).1
    ensures !VersionChanged(RecordVersion(items, failing, current, build, now).0, failing, current, build)
  {
  }

  /** The largest time value a JavaScript `Date` holds, in milliseconds. */
  const MaxTime: int := 8_640_000_000_000_000

  /** `new Date(parseInt(ts, 10))`. */
  datatype LaunchDate = ValidDate(ms: int) | InvalidDate

  datatype AppInfo = AppInfo(version: string, buildNumber: string,
                             firstLaunchDate: Option<LaunchDate>, lastUpdateDate: Option<LaunchDate>)

  /** A stored timestamp as `getAppInfo` reads it: absent or empty gives `null`; text
      that does not parse, or a time out of range, gives an invalid date. */
  function DateOf(ts: Option<string>): (d: Option<LaunchDate>)
    ensures d.None? <==> !Truthy(ts)
    ensures d.Some? && d.value.ValidDate? ==> ParseInt(ts.value) == Some(d.value.ms) && -MaxTime <= d.value.ms <= MaxTime
  {
    if !Truthy(ts) then None
    else match ParseInt(ts.value)
      case Some(n) => if -MaxTime <= n <= MaxTime then Some(ValidDate(n)) else Some(InvalidDate)
      case None => Some(InvalidDate)
  }

  /** `getAppInfo` with the defaults for a missing or empty version and build. */
  function AppInfoOf(items: map<string, string>, failing: set<string>): (info: AppInfo)
    ensures info.version == TruthyOr(ReadItem(items, failing, "appVersion"), "1.0.0")
    ensures info.buildNumber == TruthyOr(ReadItem(items, failing, "buildNumber"), "1")
    ensures info.version != "" && info.buildNumber != ""
  {
    AppInfo(TruthyOr(ReadItem(items, failing, "appVersion"), "1.0.0"),
            TruthyOr(ReadItem(items, failing, "buildNumber"), "1"),
            DateOf(ReadItem(items, failing, "firstLaunchTimestamp")),
            DateOf(ReadItem(items, failing, "lastUpdateTimestamp")))
  }

  method GetAppInfo(storage: StorageService) returns (info: AppInfo)
    ensures info == AppInfoOf(storage.items, storage.failingItems)
  {
    var version := storage.GetItem("appVersion");
    var buildNumber := storage.GetItem("buildNumber");
    var firstLaunch := storage.GetItem("firstLaunchTimestamp");
    var lastUpdate := storage.GetItem("lastUpdateTimestamp");
    info := AppInfo(TruthyOr(version, "1.0.0"), TruthyOr(buildNumber, "1"), DateOf(firstLaunch), DateOf(lastUpdate));
  }
}
