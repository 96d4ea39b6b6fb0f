/** The microfrontend registry (`src/microfrontends/MicrofrontendRegistry.ts`): a
    dictionary of modules by name, kept in insertion order (the order a JavaScript
    object keeps string keys that are not array indices), with registration,
    removal, dependency-checked loading, permission filtering and the merged table
    of every module's screens. The registry is a plain object literal; names that
    are also members of `Object.prototype` (`toString`, `constructor`, ...) or that
    look like array indices are outside the model.

    A module's component and screens are React components; here they are named by
    strings, which is all the registry compares or copies. */
module Registry {
  import opened Wrappers
  import opened Text
  import opened Storage

  datatype MicroModule = MicroModule(
    name: string,
    version: Option<string>,
    component: Option<string>,
    dependencies: Option<seq<string>>,
    permissions: Option<seq<string>>,
    lazy: Option<bool>,
    /** The `screens` object's entries in order; an absent object has none. */
    screens: seq<(string, string)>)

  /** `validateModule`: name, version and component all truthy. */
  predicate ValidModule(m: MicroModule) {
    m.name != "" && Truthy(m.version) && m.component.Some?
  }

  /** `deps.filter(dep => !this.hasModule(dep))`, order kept. */
  function MissingDeps(deps: seq<string>, registered: set<string>): (r: seq<string>)
    ensures |r| <= |deps|
    ensures forall d :: d in r <==> d in deps && d !in registered
  {
    if deps == [] then []
    else if deps[0] in registered then MissingDeps(deps[1..], registered)
    else [deps[0]] + MissingDeps(deps[1..], registered)
  }

  /** No dependency is missing exactly when every declared one is registered. */
  lemma MissingDepsEmpty(deps: seq<string>, registered: set<string>)
    ensures MissingDeps(deps, registered) == [] <==> forall i :: 0 <= i < |deps| ==> deps[i] in registered
  {
    var missing := MissingDeps(deps, registered);
    if missing != [] {
      assert missing[0] in missing;
    } else {
      forall i | 0 <= i < |deps| ensures deps[i] in registered {
        assert deps[i] in deps;
      }
    }
  }

  /** The filter keeps declaration order: it distributes over concatenation. */
  lemma {:induction false} MissingDepsAppend(a: seq<string>, b: seq<string>, registered: set<string>)
    ensures MissingDeps(a + b, registered) == MissingDeps(a, registered) + MissingDeps(b, registered)
  {
    if a == [] {
      assert a + b == b;
    } else {
      assert (a + b)[0] == a[0];
      assert (a + b)[1..] == a[1..] + b;
      MissingDepsAppend(a[1..], b, registered);
    }
  }

  function NotFoundMessage(name: string): string {
    "Microfrontend module '" + name + "' not found"
  }

  function MissingMessage(name: string, missing: seq<string>): string {
    "Missing dependencies for module '" + name + "': " + Join(missing, ", ")
  }

  /** `loadModule(name)` against the registry's entries. */
  function Load(entries: map<string, MicroModule>, name: string): (r: Settled<MicroModule>)
    ensures name !in entries ==> r == Rejected(NotFoundMessage(name))
    ensures name in entries ==>
      var deps := entries[name].dependencies.GetOr([]);
      var missing := MissingDeps(deps, entries.Keys);
      (r.Fulfilled? <==> forall i :: 0 <= i < |deps| ==> deps[i] in entries)
      && (r.Fulfilled? ==> r.payload == entries[name])
      && (r.Rejected? ==> missing != [] && r.message == MissingMessage(name, missing))
  {
    if name !in entries then Rejected(NotFoundMessage(name))
    else
      var m := entries[name];
      var missing := MissingDeps(m.dependencies.GetOr([]), entries.Keys);
      MissingDepsEmpty(m.dependencies.GetOr([]), entries.Keys);
      if m.dependencies.Some? && |m.dependencies.value| > 0 && |missing| > 0 then
        Rejected(MissingMessage(name, missing))
      else Fulfilled(m)
  }

  /** `loadModules(names)`: `Promise.all` over the loads, which rejects with the first
      rejection in list order (every load settles at once). */
  function LoadAll(entries: map<string, MicroModule>, names: seq<string>): (r: Settled<seq<MicroModule>>)
    ensures r.Fulfilled? <==> forall i :: 0 <= i < |names| ==> Load(entries, names[i]).Fulfilled?
    ensures r.Fulfilled? ==> |r.payload| == |names| &&
                             forall i :: 0 <= i < |names| ==> r.payload[i] == entries[names[i]]
    ensures r.Rejected? ==> exists i :: 0 <= i < |names| && Load(entries, names[i]).Rejected? &&
                                        r.message == Load(entries, names[i]).message &&
                                        forall j :: 0 <= j < i ==> Load(entries, names[j]).Fulfilled?
  {
    if names == [] then Fulfilled([])
    else match Load(entries, names[0])
      case Rejected(m) => Rejected(m)
      case Fulfilled(first) =>
        assert forall i :: 1 <= i < |names| ==> names[1..][i - 1] == names[i];
        match LoadAll(entries, names[1..])
        case Rejected(m) => Rejected(m)
        case Fulfilled(rest) => Fulfilled([first] + rest)
  }

  /** Whether `module.permissions?.includes(permission)`. */
  predicate Grants(m: MicroModule, permission: string) {
    m.permissions.Some? && permission in m.permissions.value
  }

  /** The modules of `names`, in that order, that grant the permission. */
  function WithPermission(entries: map<string, MicroModule>, names: seq<string>, permission: string)
    : (r: seq<MicroModule>)
    requires forall i :: 0 <= i < |names| ==> names[i] in entries
    ensures forall m :: m in r <==> exists i :: 0 <= i < |names| && entries[names[i]] == m && Grants(m, permission)
  {
    if names == [] then []
    else
      var rest := WithPermission(entries, names[1..], permission);
      assert forall i :: 1 <= i < |names| ==> names[i] == names[1..][i - 1];
      var m := entries[names[0]];
      if Grants(m, permission) then [m] + rest else rest
  }

  /** `values.filter(module => module.permissions?.includes(permission))`. */
  function GrantingOnly(values: seq<MicroModule>, permission: string): (r: seq<MicroModule>)
    ensures |r| <= |values|
    ensures forall m :: m in r <==> m in values && Grants(m, permission)
  {
    if values == [] then []
    else if Grants(values[0], permission) then [values[0]] + GrantingOnly(values[1..], permission)
    else GrantingOnly(values[1..], permission)
  }

  /** Looking up the names one by one and filtering is filtering the looked-up
      modules: the modules come out in the order of the names. */
  lemma {:induction false} WithPermissionIsFilter(entries: map<string, MicroModule>, names: seq<string>,
                                                  values: seq<MicroModule>, permission: string)
    requires forall i :: 0 <= i < |names| ==> names[i] in entries
    requires |values| == |names| && forall i :: 0 <= i < |names| ==> values[i] == entries[names[i]]
    ensures WithPermission(entries, names, permission) == GrantingOnly(values, permission)
  {
    if names != [] {
      assert forall i :: 0 <= i < |names| - 1 ==> names[1..][i] == names[i + 1] && values[1..][i] == values[i + 1];
      WithPermissionIsFilter(entries, names[1..], values[1..], permission);
    }
  }

  /** The screen entries of the modules, one module after another. */
  function ScreenEntries(modules: seq<MicroModule>): (r: seq<(string, string)>)
  {
    if modules == [] then [] else ScreenEntries(modules[..|modules| - 1]) + modules[|modules| - 1].screens
  }

  /** Writing two lists one after the other is writing their concatenation. */
  lemma {:induction false} WriteAllAppend(m: map<string, string>, a: seq<(string, string)>, b: seq<(string, string)>)
    ensures WriteAll(m, a + b) == WriteAll(WriteAll(m, a), b)
    decreases |a|
  {
    if a != [] {
      assert (a + b)[0] == a[0];
      assert (a + b)[1..] == a[1..] + b;
      WriteAllAppend(m[a[0].0 := a[0].1], a[1..], b);
    } else {
      assert a + b == b;
    }
  }

  /** One more screen entry written is one more map update. */
  lemma WriteNext(prefix: seq<(string, string)>, screens: seq<(string, string)>, j: nat)
    requires j < |screens|
    ensures WriteAll(map[], prefix + screens[..j + 1]) == WriteAll(map[], prefix + screens[..j])[screens[j].0 := screens[j].1]
  {
    WriteAllAppend(map[], prefix + screens[..j], [screens[j]]);
    assert screens[..j + 1] == screens[..j] + [screens[j]];
    assert prefix + screens[..j + 1] == prefix + screens[..j] + [screens[j]];
  }

  /** The entries of one more module are its screens appended. */
  lemma EntriesStep(modules: seq<MicroModule>, i: nat)
    requires i < |modules|
    ensures ScreenEntries(modules[..i + 1]) == ScreenEntries(modules[..i]) + modules[i].screens
  {
    assert modules[..i + 1][..i] == modules[..i];
  }

  /** `MicrofrontendScreens`: every module's screens written into one table in order. */
  function MergeScreens(modules: seq<MicroModule>): map<string, string> {
    WriteAll(map[], ScreenEntries(modules))
  }

  /** A screen named by a module is taken from that module unless a later module
      names it too: the later module wins. */
  lemma LaterModuleWins(modules: seq<MicroModule>, j: nat, k: nat, screen: string)
    requires j < |modules| && k < |modules[j].screens| && modules[j].screens[k].0 == screen
    requires forall k' :: k < k' < |modules[j].screens| ==> modules[j].screens[k'].0 != screen
    requires forall j', k' :: j < j' < |modules| && 0 <= k' < |modules[j'].screens| ==> modules[j'].screens[k'].0 != screen
    ensures screen in MergeScreens(modules) && MergeScreens(modules)[screen] == modules[j].screens[k].1
  {
    var all := ScreenEntries(modules);
    var before := ScreenEntries(modules[..j]);
    ScreenSplit(modules, j);
    var at := |before| + k;
    assert all[at] == modules[j].screens[k];
    forall i | at < i < |all| ensures all[i].0 != screen {
      if i < |before| + |modules[j].screens| {
        assert all[i] == modules[j].screens[i - |before|];
      } else {
        LaterEntry(modules, j, i - |before|);
      }
    }
    WriteAllLookup(map[], all, screen);
  }

  /** The entries split at module `j`: those before it, its own, those after it. */
  lemma {:induction false} ScreenSplit(modules: seq<MicroModule>, j: nat)
    requires j < |modules|
    ensures ScreenEntries(modules) == ScreenEntries(modules[..j]) + modules[j].screens + Rest(modules, j + 1)
    decreases |modules|
  {
    if j + 1 < |modules| {
      var front := modules[..|modules| - 1];
      assert front[..j] == modules[..j];
      assert front[j] == modules[j];
      ScreenSplit(front, j);
      RestStep(modules, j + 1);
    } else {
      assert modules[..|modules| - 1] == modules[..j];
    }
  }

  /** The entries of the modules from `from` on. */
  function Rest(modules: seq<MicroModule>, from: nat): seq<(string, string)>
    requires from <= |modules|
    decreases |modules| - from
  {
    if from == |modules| then [] else modules[from].screens + Rest(modules, from + 1)
  }

  lemma {:induction false} RestStep(modules: seq<MicroModule>, from: nat)
    requires from < |modules|
    ensures Rest(modules, from) == Rest(modules[..|modules| - 1], from) + modules[|modules| - 1].screens
    decreases |modules| - from
  {
    var front := modules[..|modules| - 1];
    var last := modules[|modules| - 1].screens;
    if from + 1 < |modules| {
      RestStep(modules, from + 1);
      assert front[from] == modules[from];
      calc {
        Rest(modules, from);
        modules[from].screens + Rest(modules, from + 1);
        modules[from].screens + (Rest(front, from + 1) + last);
        (modules[from].screens + Rest(front, from + 1)) + last;
        Rest(front, from) + last;
      }
    } else {
      assert Rest(front, from) == [];
      assert Rest(modules, from + 1) == [];
      assert Rest(modules, from) == last + [];
    }
  }

  /** An entry past module `j`'s own comes from a later module. */
  lemma LaterEntry(modules: seq<MicroModule>, j: nat, offset: nat)
    requires j < |modules|
    requires |modules[j].screens| <= offset < |ScreenEntries(modules)| - |ScreenEntries(modules[..j])|
    ensures exists j', k' :: j < j' < |modules| && 0 <= k' < |modules[j'].screens|
                             && ScreenEntries(modules)[|ScreenEntries(modules[..j])| + offset] == modules[j'].screens[k']
  {
    ScreenSplit(modules, j);
    RestEntry(modules, j + 1, offset - |modules[j].screens|);
  }

  lemma {:induction false} RestEntry(modules: seq<MicroModule>, from: nat, i: nat)
    requires from <= |modules| && i < |Rest(modules, from)|
    ensures exists j', k' :: from <= j' < |modules| && 0 <= k' < |modules[j'].screens|
                             && Rest(modules, from)[i] == modules[j'].screens[k']
    decreases |modules| - from
  {
    if i < |modules[from].screens| {
      assert Rest(modules, from)[i] == modules[from].screens[i];
    } else {
      RestEntry(modules, from + 1, i - |modules[from].screens|);
    }
  }

  /** The five modules registered at start, one per module file: only the auth
      module declares a version, a component and permissions; the others declare
      only screens. */
  const AuthModule := MicroModule("auth", Some("1.0.0"), Some("LoginScreen"), None,
                                  Some(["auth:login", "auth:signup"]), Some(false), [])
  const ProfileModule := MicroModule("profile", None, None, None, None, None,
    [("Profile", "ProfileScreen"), ("EditProfile", "EditProfileScreen"), ("ChangePassword", "ChangePasswordScreen")])
  const SettingsModule := MicroModule("settings", None, None, None, None, None,
    [("Settings", "SettingsScreen"), ("Language", "LanguageScreen"), ("Theme", "ThemeScreen"), ("About", "AboutScreen")])
  const NotificationsModule := MicroModule("notifications", None, None, None, None, None,
    [("Notifications", "NotificationListScreen"), ("NotificationDetail", "NotificationDetailScreen")])
  const ShopModule := MicroModule("shop", None, None, None, None, None, [("ShopList", "shopList")])

  const DefaultOrder: seq<string> := ["auth", "profile", "settings", "notifications", "shop"]
  const DefaultEntries: map<string, MicroModule> :=
    map["auth" := AuthModule, "profile" := ProfileModule, "settings" := SettingsModule,
        "notifications" := NotificationsModule, "shop" := ShopModule]

  /** Of the default modules only the auth module passes `validateModule`. */
  lemma OnlyAuthValidates()
    ensures ValidModule(AuthModule)
    ensures !ValidModule(ProfileModule) && !ValidModule(SettingsModule)
    ensures !ValidModule(NotificationsModule) && !ValidModule(ShopModule)
  {
  }

  /** Every default module loads, none declaring dependencies. */
  lemma DefaultsLoad(name: string)
    requires name in DefaultEntries
    ensures Load(DefaultEntries, name) == Fulfilled(DefaultEntries[name])
  {
  }

  class RegistryManager {
    /** The registered modules by name. */
    var entries: map<string, MicroModule>
    /** Their names in insertion order (`Object.keys`). */
    var order: seq<string>

    /** Every registered name appears once in the order. */
    predicate Valid()
      reads this
    {
      (forall i :: 0 <= i < |order| ==> order[i] in entries)
      && (forall k :: k in entries ==> k in order)
      && Distinct(order)
    }

    /** The five default modules, registered in this order. */
    constructor ()
      ensures Valid()
      ensures order == DefaultOrder && entries == DefaultEntries
    {
      entries := DefaultEntries;
      order := DefaultOrder;
    }

    /** `register`: adds or overwrites; an overwritten name keeps its place. */
    method Register(name: string, m: MicroModule)
      requires Valid()
      modifies this
      ensures Valid()
      ensures entries == old(entries)[name := m]
      ensures order == if name in old(entries) then old(order) else old(order) + [name]
    {
      if name !in entries {
        order := order + [name];
      }
      entries := entries[name := m];
    }

    /** `unregister`: removes the name if present, and nothing else. */
    method Unregister(name: string)
      requires Valid()
      modifies this
      ensures Valid()
      ensures entries == old(entries) - {name}
      ensures forall k :: k in order <==> k in old(order) && k != name
      ensures name !in old(entries) ==> order == old(order)
      ensures order == Without(old(order), name)
    {
      if name !in entries {
        WithoutAbsent(order, name);
      } else {
        ghost var before := order;
        entries := entries - {name};
        order := Without(order, name);
        WithoutDistinct(before, name);
        forall i | 0 <= i < |order| ensures order[i] in entries {
          assert order[i] in order;
          assert order[i] in before;
        }
      }
    }

    function Get(name: string): (r: Option<MicroModule>)
      reads this
      ensures r.Some? <==> name in entries
      ensures r.Some? ==> r.value == entries[name]
    {
      if name in entries then Some(entries[name]) else None
    }

    /** `hasModule`: a registered module object is truthy, so this is presence. */
    function HasModule(name: string): (b: bool)
      reads this
      ensures b <==> name in entries
    {
      Get(name).Some?
    }

    function LoadModule(name: string): (r: Settled<MicroModule>)
      reads this
      ensures r == Load(entries, name)
      ensures r.Fulfilled? ==> HasModule(name)
    {
      Load(entries, name)
    }

    function ModulesByPermission(permission: string): (r: seq<MicroModule>)
      reads this
      requires Valid()
      ensures r == GrantingOnly(Values(), permission)
      ensures forall m :: m in r <==> (exists k :: k in entries && entries[k] == m) && Grants(m, permission)
    {
      var r := WithPermission(entries, order, permission);
      assert forall k :: k in entries ==> exists i :: 0 <= i < |order| && order[i] == k;
      WithPermissionIsFilter(entries, order, Values(), permission);
      r
    }

    /** `MicrofrontendScreens`, as the source builds it: a loop over the modules in
        registry order and, inside it, over each module's screens. */
    method Screens() returns (acc: map<string, string>)
      requires Valid()
      ensures acc == MergeScreens(Values())
    {
      var values := Values();
      acc := map[];
      var i := 0;
      while i < |values|
        invariant 0 <= i <= |values|
        invariant acc == WriteAll(map[], ScreenEntries(values[..i]))
      {
        var screens := values[i].screens;
        var j := 0;
        assert ScreenEntries(values[..i]) + screens[..0] == ScreenEntries(values[..i]);
        while j < |screens|
          invariant 0 <= j <= |screens|
          invariant acc == WriteAll(map[], ScreenEntries(values[..i]) + screens[..j])
        {
          WriteNext(ScreenEntries(values[..i]), screens, j);
          acc := acc[screens[j].0 := screens[j].1];
          j := j + 1;
        }
        EntriesStep(values, i);
        assert screens[..j] == screens;
        i := i + 1;
      }
      assert values[..i] == values;
    }

    /** `Object.values(registry)`, in insertion order. */
    function Values(): (vs: seq<MicroModule>)
      reads this
      requires Valid()
      ensures |vs| == |order| && forall i :: 0 <= i < |order| ==> vs[i] == entries[order[i]]
    {
      seq(|order|, i requires 0 <= i < |order| && Valid() reads this => entries[order[i]])
    }
  }

  /** `order` without `name`, order kept. */
  function Without(order: seq<string>, name: string): (r: seq<string>)
    ensures forall k :: k in r <==> k in order && k != name
  {
    if order == [] then []
    else if order[0] == name then Without(order[1..], name)
    else [order[0]] + Without(order[1..], name)
  }

  /** Removing a name that is not there changes nothing. */
  lemma {:induction false} WithoutAbsent(order: seq<string>, name: string)
    requires name !in order
    ensures Without(order, name) == order
  {
    if order != [] {
      assert name !in order[1..];
      WithoutAbsent(order[1..], name);
      assert [order[0]] + order[1..] == order;
    }
  }

  predicate Distinct(s: seq<string>) {
    forall i, j :: 0 <= i < j < |s| ==> s[i] != s[j]
  }

  /** Removing a name keeps the rest distinct. */
  lemma {:induction false} WithoutDistinct(order: seq<string>, name: string)
    requires Distinct(order)
    ensures Distinct(Without(order, name))
  {
    if order != [] {
      var tail := order[1..];
      assert Distinct(tail) by {
        forall i, j | 0 <= i < j < |tail| ensures tail[i] != tail[j] {
          assert tail[i] == order[i + 1] && tail[j] == order[j + 1];
        }
      }
      WithoutDistinct(tail, name);
      var rest := Without(tail, name);
      if order[0] != name {
        var r := [order[0]] + rest;
        forall i, j | 0 <= i < j < |r| ensures r[i] != r[j] {
          if i == 0 {
            assert r[j] == rest[j - 1] && r[j] in tail;
            var k :| 0 <= k < |tail| && tail[k] == r[j];
            assert order[k + 1] == r[j];
          } else {
            assert r[i] == rest[i - 1] && r[j] == rest[j - 1];
          }
        }
      }
    }
  }
}
