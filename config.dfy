/**
 * Loading the launcher configuration from its JSON document (`data/config/mod.rs`):
 * users and the default user, profiles with their instances and packages, and the
 * local packages of the package registry. Every malformed part is an error.
 */
module Config {
  import opened Wrappers
  import opened Json
  import Instance

  datatype UserKind = Microsoft | Demo

  /** `User::new` followed by `set_uuid` when the document gives one. */
  datatype User = User(kind: UserKind, id: string, name: string, uuid: Option<string>)

  datatype AuthState = Offline | Authed(user: string)

  datatype Auth = Auth(users: map<string, User>, state: AuthState)

  /** The two forms of `VersionPattern` a configured package can have. */
  datatype VersionPattern = Single(version: string) | Latest(latest: Option<string>)

  datatype PkgRequest = PkgRequest(id: string, version: VersionPattern)

  datatype PkgConfig = PkgConfig(req: PkgRequest, features: seq<string>)

  /** A package the registry reads from a local file, and the profile that asked for it. */
  datatype LocalPackage = LocalPackage(name: string, version: string, profile: string, path: string)

  /** `ConfigPreferences` and the repositories read with them. */
  type Preferences(==)
  type Repositories(==)

  datatype Registry = Registry(repositories: Repositories, locals: seq<LocalPackage>)

  datatype InstanceConfig = InstanceConfig(kind: Instance.InstKind, id: string, version: string)

  datatype ProfileConfig = ProfileConfig(id: string, version: string, instances: seq<string>, packages: seq<PkgConfig>)

  datatype ContentError =
    | UserType(typ: string, user: string)
    | InstType(typ: string, instance: string)
    | PkgType(typ: string, what: string)
    | DefaultUserNotFound(user: string)
    | DuplicateInstance(instance: string)
    | LocalPackageVersion(package: string)

  datatype ConfigError =
    | JsonErr(json: JsonError)
    | Content(content: ContentError)
    | PreferencesErr(message: string)

  datatype Config = Config(
    auth: Auth,
    instances: map<string, InstanceConfig>,
    profiles: map<string, ProfileConfig>,
    packages: Registry,
    prefs: Preferences)

  /** `ConfigPreferences::read`, which this model takes as an input. */
  type PrefsReader = Option<Json> -> Result<(Preferences, Repositories), string>

  /** A JSON access error as a configuration error. */
  function J<T>(r: Result<T, JsonError>): (c: Result<T, ConfigError>)
    ensures c.Ok? <==> r.Ok?
    ensures r.Ok? ==> c.value == r.value
    ensures r.Err? ==> c.error == JsonErr(r.error)
  {
    match r
    case Ok(v) => Ok(v)
    case Err(e) => Err(JsonErr(e))
  }

  /** The keys of a sequence of members, in order. */
  function Keys(members: seq<Member>): (ks: seq<string>)
    ensures |ks| == |members|
    ensures forall i :: 0 <= i < |members| ==> ks[i] == members[i].key
  {
    if |members| == 0 then [] else Keys(members[..|members| - 1]) + [members[|members| - 1].key]
  }

  /** The keys of a sequence of members, as a set. */
  function KeySet(members: seq<Member>): (ks: set<string>)
    ensures forall i :: 0 <= i < |members| ==> members[i].key in ks
    ensures forall k :: k in ks ==> exists i :: 0 <= i < |members| && members[i].key == k
  {
    if |members| == 0 then {}
    else
      var front := members[..|members| - 1];
      var ks := KeySet(front);
      assert forall i :: 0 <= i < |front| ==> front[i] == members[i];
      ks + {members[|members| - 1].key}
  }

  // ---------------------------------------------------------------------------
  // Users

  /** The kind a user `type` names. */
  function UserKindOf(typ: string, user: string): (r: Result<UserKind, ConfigError>)
    ensures r == Ok(Microsoft) <==> typ == "microsoft"
    ensures r == Ok(Demo) <==> typ == "demo"
    ensures r.Err? <==> typ != "microsoft" && typ != "demo"
    ensures r.Err? ==> r.error == Content(UserType(typ, user))
  {
    if typ == "microsoft" then Ok(Microsoft)
    else if typ == "demo" then Ok(Demo)
    else Err(Content(UserType(typ, user)))
  }

  /** One member of `users`: its type is checked before its name is read. */
  function UserEntry(m: Member): (r: Result<User, ConfigError>)
    ensures r.Ok? ==> r.value.id == m.key
  {
    var obj :- J(EnsureType(AsObject(m.value), Obj));
    var typ :- J(AccessStr(obj, "type"));
    var kind :- UserKindOf(typ, m.key);
    var name :- J(AccessStr(obj, "name"));
    match Get(obj, "uuid")
    case None => Ok(User(kind, m.key, name, None))
    case Some(u) =>
      var uuid :- J(EnsureType(AsStr(u), Str));
      Ok(User(kind, m.key, name, Some(uuid)))
  }

  /** The users map after the given members of `users`. */
  function UsersFold(members: seq<Member>): (r: Result<map<string, User>, ConfigError>)
    ensures r.Ok? ==> r.value.Keys == KeySet(members)
    decreases |members|
  {
    if |members| == 0 then Ok(map[])
    else
      var users :- UsersFold(members[..|members| - 1]);
      var user :- UserEntry(members[|members| - 1]);
      Ok(users[members[|members| - 1].key := user])
  }

  lemma {:induction false} UsersFoldErrSticks(members: seq<Member>, n: nat)
    requires n <= |members| && UsersFold(members[..n]).Err?
    ensures UsersFold(members) == UsersFold(members[..n])
    decreases |members| - n
  {
    if n < |members| {
      assert members[..n + 1][..n] == members[..n];
      UsersFoldErrSticks(members, n + 1);
    } else {
      assert members[..n] == members;
    }
  }

  /** The auth state: the `default_user` must be a configured user; without one the launcher is offline. */
  function AuthStateFor(obj: Object, users: map<string, User>): (r: Result<AuthState, ConfigError>)
    ensures Get(obj, "default_user").None? ==> r == Ok(Offline)
    ensures Get(obj, "default_user").Some? && Get(obj, "default_user").value.JStr? ==>
      var id := Get(obj, "default_user").value.s;
      (id in users ==> r == Ok(Authed(id))) && (id !in users ==> r == Err(Content(DefaultUserNotFound(id))))
    ensures Get(obj, "default_user").Some? && !Get(obj, "default_user").value.JStr? ==> r == Err(JsonErr(WrongType(Str)))
  {
    match Get(obj, "default_user")
    case None => Ok(Offline)
    case Some(v) =>
      var id :- J(EnsureType(AsStr(v), Str));
      if id in users then Ok(Authed(id)) else Err(Content(DefaultUserNotFound(id)))
  }

  // ---------------------------------------------------------------------------
  // Instances of a profile

  /** The kind an instance `type` names. */
  function InstKindOf(typ: string, instance: string): (r: Result<Instance.InstKind, ConfigError>)
    ensures r == Ok(Instance.InstKind.Client) <==> typ == "client"
    ensures r == Ok(Instance.InstKind.Server) <==> typ == "server"
    ensures r.Err? <==> typ != "client" && typ != "server"
    ensures r.Err? ==> r.error == Content(InstType(typ, instance))
  {
    if typ == "client" then Ok(Instance.InstKind.Client)
    else if typ == "server" then Ok(Instance.InstKind.Server)
    else Err(Content(InstType(typ, instance)))
  }

  /** The instance registry and the profile being built while its instances are read. */
  datatype Building = Building(instances: map<string, InstanceConfig>, profile: ProfileConfig)

  /** One member of a profile's `instances`: an id already registered anywhere is a duplicate. */
  function InstanceStep(b: Building, version: string, m: Member): (r: Result<Building, ConfigError>)
    ensures m.key in b.instances ==> r == Err(Content(DuplicateInstance(m.key)))
    ensures r.Ok? ==> m.key !in b.instances && r.value.instances.Keys == b.instances.Keys + {m.key}
    ensures r.Ok? ==> r.value.profile == b.profile.(instances := b.profile.instances + [m.key])
    ensures r.Ok? ==> forall k :: k in b.instances ==> r.value.instances[k] == b.instances[k]
  {
    if m.key in b.instances then Err(Content(DuplicateInstance(m.key)))
    else
      var obj :- J(EnsureType(AsObject(m.value), Obj));
      var typ :- J(AccessStr(obj, "type"));
      var kind :- InstKindOf(typ, m.key);
      Ok(Building(b.instances[m.key := InstanceConfig(kind, m.key, version)],
                  b.profile.(instances := b.profile.instances + [m.key])))
  }

  function InstancesFold(b: Building, version: string, members: seq<Member>): (r: Result<Building, ConfigError>)
    decreases |members|
  {
    if |members| == 0 then Ok(b)
    else
      var front :- InstancesFold(b, version, members[..|members| - 1]);
      InstanceStep(front, version, members[|members| - 1])
  }

  lemma {:induction false} InstancesFoldErrSticks(b: Building, version: string, members: seq<Member>, n: nat)
    requires n <= |members| && InstancesFold(b, version, members[..n]).Err?
    ensures InstancesFold(b, version, members) == InstancesFold(b, version, members[..n])
    decreases |members| - n
  {
    if n < |members| {
      assert members[..n + 1][..n] == members[..n];
      InstancesFoldErrSticks(b, version, members, n + 1);
    } else {
      assert members[..n] == members;
    }
  }

  /** Reading a profile's instances registers their ids and lists them, in order, in the profile. */
  lemma {:induction false} InstancesFoldOk(b: Building, version: string, members: seq<Member>)
    requires InstancesFold(b, version, members).Ok?
    ensures var r := InstancesFold(b, version, members).value;
      r.instances.Keys == b.instances.Keys + KeySet(members) &&
      r.profile == b.profile.(instances := b.profile.instances + Keys(members))
    decreases |members|
  {
    if |members| > 0 {
      var front := members[..|members| - 1];
      InstancesFoldOk(b, version, front);
      assert KeySet(members) == KeySet(front) + {members[|members| - 1].key};
      assert Keys(members) == Keys(front) + [members[|members| - 1].key];
      assert b.profile.instances + Keys(front) + [members[|members| - 1].key] == b.profile.instances + Keys(members);
    }
  }

  /** The last member of a successful fold was not registered by the members before it. */
  lemma InstancesFoldLast(b: Building, version: string, members: seq<Member>)
    requires |members| > 0 && InstancesFold(b, version, members).Ok?
    ensures InstancesFold(b, version, members[..|members| - 1]).Ok?
    ensures members[|members| - 1].key !in InstancesFold(b, version, members[..|members| - 1]).value.instances
  {
  }

  /** Each instance of a profile is registered once: no id was registered before and no id repeats. */
  lemma {:induction false} InstancesFoldFresh(b: Building, version: string, members: seq<Member>)
    requires InstancesFold(b, version, members).Ok?
    ensures forall i :: 0 <= i < |members| ==> members[i].key !in b.instances
    ensures forall i, j :: 0 <= i < j < |members| ==> members[i].key != members[j].key
    decreases |members|
  {
    if |members| > 0 {
      var front := members[..|members| - 1];
      var last := members[|members| - 1];
      InstancesFoldLast(b, version, members);
      InstancesFoldFresh(b, version, front);
      var keys := InstancesFold(b, version, front).value.instances.Keys;
      assert last.key !in keys;
      assert b.instances.Keys <= keys && forall i :: 0 <= i < |front| ==> front[i].key in keys by {
        InstancesFoldOk(b, version, front);
      }
      forall i | 0 <= i < |members|
        ensures members[i].key !in b.instances
      {
        if i < |front| {
          assert members[i] == front[i];
        } else {
          assert i == |members| - 1;
          assert last.key !in b.instances.Keys;
        }
      }
      forall i, j | 0 <= i < j < |members|
        ensures members[i].key != members[j].key
      {
        assert members[i] == front[i];
        if j == |members| - 1 {
          assert front[i].key in keys;
        } else {
          assert members[j] == front[j];
        }
      }
    }
  }


  // ---------------------------------------------------------------------------
  // Packages of a profile

  /** The strings of a features list, each of which must be a string. */
  function FeaturesFold(items: seq<Json>): (r: Result<seq<string>, ConfigError>)
    ensures r.Ok? ==> |r.value| == |items| && forall i :: 0 <= i < |items| ==> items[i] == JStr(r.value[i])
    decreases |items|
  {
    if |items| == 0 then Ok([])
    else
      var front := items[..|items| - 1];
      var fs :- FeaturesFold(front);
      var f :- J(EnsureType(AsStr(items[|items| - 1]), Str));
      assert forall i :: 0 <= i < |front| ==> front[i] == items[i];
      Ok(fs + [f])
  }

  lemma {:induction false} FeaturesFoldErrSticks(items: seq<Json>, n: nat)
    requires n <= |items| && FeaturesFold(items[..n]).Err?
    ensures FeaturesFold(items) == FeaturesFold(items[..n])
    decreases |items| - n
  {
    if n < |items| {
      assert items[..n + 1][..n] == items[..n];
      FeaturesFoldErrSticks(items, n + 1);
    } else {
      assert items[..n] == items;
    }
  }

  /** Every features list of strings is accepted. */
  lemma {:induction false} FeaturesFoldStrings(items: seq<Json>)
    requires forall i :: 0 <= i < |items| ==> items[i].JStr?
    ensures FeaturesFold(items).Ok?
    decreases |items|
  {
    if |items| > 0 {
      var front := items[..|items| - 1];
      assert forall i :: 0 <= i < |front| ==> front[i] == items[i];
      FeaturesFoldStrings(front);
    }
  }

  /** The features of a package: none when absent, else an array of strings. */
  function FeaturesOf(pkg: Object): (r: Result<seq<string>, ConfigError>)
    ensures Get(pkg, "features").None? ==> r == Ok([])
    ensures Get(pkg, "features").Some? && !Get(pkg, "features").value.JArr? ==> r == Err(JsonErr(WrongType(Arr)))
    ensures Get(pkg, "features").Some? && Get(pkg, "features").value.JArr? ==> r == FeaturesFold(Get(pkg, "features").value.items)
  {
    match Get(pkg, "features")
    case None => Ok([])
    case Some(list) =>
      var items :- J(EnsureType(AsArray(list), Arr));
      FeaturesFold(items)
  }

  /** The version pattern of a package: the given version exactly, or the latest one. */
  function VersionOf(pkg: Object): (r: Result<VersionPattern, ConfigError>)
    ensures Get(pkg, "version").None? ==> r == Ok(Latest(None))
    ensures Get(pkg, "version").Some? && Get(pkg, "version").value.JStr? ==> r == Ok(Single(Get(pkg, "version").value.s))
    ensures Get(pkg, "version").Some? && !Get(pkg, "version").value.JStr? ==> r == Err(JsonErr(WrongType(Str)))
  {
    match Get(pkg, "version")
    case None => Ok(Latest(None))
    case Some(v) =>
      var s :- J(EnsureType(AsStr(v), Str));
      Ok(Single(s))
  }

  /**
   * The registry after a package's `type`: a local package must give its path and an
   * exact version and is added to the registry; a remote one changes nothing.
   */
  function RegistryFor(reg: Registry, profile: string, pkg: Object, id: string, version: VersionPattern): (r: Result<Registry, ConfigError>)
  {
    match Get(pkg, "type")
    case None => Ok(reg)
    case Some(t) =>
      var typ :- J(EnsureType(AsStr(t), Str));
      if typ == "local" then
        var path :- J(AccessStr(pkg, "path"));
        match version
        case Single(v) => Ok(reg.(locals := reg.locals + [LocalPackage(id, v, profile, path)]))
        case Latest(_) => Err(Content(LocalPackageVersion(id)))
      else if typ == "remote" then Ok(reg)
      else Err(Content(PkgType(typ, "package")))
  }

  /** The registry and the profile being built while its packages are read. */
  datatype PkgBuilding = PkgBuilding(registry: Registry, profile: ProfileConfig)

  /** One entry of a profile's `packages`. */
  function PackageStep(b: PkgBuilding, profile: string, item: Json): (r: Result<PkgBuilding, ConfigError>)
  {
    var obj :- J(EnsureType(AsObject(item), Obj));
    var id :- J(AccessStr(obj, "id"));
    var version :- VersionOf(obj);
    var reg :- RegistryFor(b.registry, profile, obj, id, version);
    var features :- FeaturesOf(obj);
    Ok(PkgBuilding(reg, b.profile.(packages := b.profile.packages + [PkgConfig(PkgRequest(id, version), features)])))
  }

  function PackagesFold(b: PkgBuilding, profile: string, items: seq<Json>): (r: Result<PkgBuilding, ConfigError>)
    decreases |items|
  {
    if |items| == 0 then Ok(b)
    else
      var front :- PackagesFold(b, profile, items[..|items| - 1]);
      PackageStep(front, profile, items[|items| - 1])
  }

  lemma {:induction false} PackagesFoldErrSticks(b: PkgBuilding, profile: string, items: seq<Json>, n: nat)
    requires n <= |items| && PackagesFold(b, profile, items[..n]).Err?
    ensures PackagesFold(b, profile, items) == PackagesFold(b, profile, items[..n])
    decreases |items| - n
  {
    if n < |items| {
      assert items[..n + 1][..n] == items[..n];
      PackagesFoldErrSticks(b, profile, items, n + 1);
    } else {
      assert items[..n] == items;
    }
  }

  // ---------------------------------------------------------------------------
  // Profiles

  /** What the loop over profiles accumulates. */
  datatype State = State(instances: map<string, InstanceConfig>, profiles: map<string, ProfileConfig>, registry: Registry)

  /** The instances object of a profile, if it has one. */
  function InstancesOf(obj: Object): (r: Result<seq<Member>, ConfigError>)
  {
    match Get(obj, "instances")
    case None => Ok([])
    case Some(v) => J(EnsureType(AsObject(v), Obj))
  }

  /** The packages array of a profile, if it has one. */
  function PackagesOf(obj: Object): (r: Result<seq<Json>, ConfigError>)
  {
    match Get(obj, "packages")
    case None => Ok([])
    case Some(v) => J(EnsureType(AsArray(v), Arr))
  }

  /** One member of `profiles`: its version, then its instances, then its packages. */
  function ProfileStep(st: State, m: Member): (r: Result<State, ConfigError>)
  {
    var obj :- J(EnsureType(AsObject(m.value), Obj));
    var version :- J(AccessStr(obj, "version"));
    var insts :- InstancesOf(obj);
    var b :- InstancesFold(Building(st.instances, ProfileConfig(m.key, version, [], [])), version, insts);
    var pkgs :- PackagesOf(obj);
    var pb :- PackagesFold(PkgBuilding(st.registry, b.profile), m.key, pkgs);
    Ok(State(b.instances, st.profiles[m.key := pb.profile], pb.registry))
  }

  function ProfilesFold(st: State, members: seq<Member>): (r: Result<State, ConfigError>)
    decreases |members|
  {
    if |members| == 0 then Ok(st)
    else
      var front :- ProfilesFold(st, members[..|members| - 1]);
      ProfileStep(front, members[|members| - 1])
  }

  lemma {:induction false} ProfilesFoldErrSticks(st: State, members: seq<Member>, n: nat)
    requires n <= |members| && ProfilesFold(st, members[..n]).Err?
    ensures ProfilesFold(st, members) == ProfilesFold(st, members[..n])
    decreases |members| - n
  {
    if n < |members| {
      assert members[..n + 1][..n] == members[..n];
      ProfilesFoldErrSticks(st, members, n + 1);
    } else {
      assert members[..n] == members;
    }
  }

  // ---------------------------------------------------------------------------
  // load_from_obj

  /** The users of the document and the auth state its `default_user` selects. */
  function LoadAuth(obj: Object): (r: Result<Auth, ConfigError>)
  {
    var users :- J(AccessObject(obj, "users"));
    var userMap :- UsersFold(users);
    var state :- AuthStateFor(obj, userMap);
    Ok(Auth(userMap, state))
  }

  /** The instances, profiles and local packages of the document's `profiles`. */
  function LoadProfilesOf(obj: Object, repositories: Repositories): (r: Result<State, ConfigError>)
  {
    var profiles :- J(AccessObject(obj, "profiles"));
    ProfilesFold(State(map[], map[], Registry(repositories, [])), profiles)
  }

  /** What `load_from_obj` returns for a document: preferences, then users, then profiles. */
  function Load(obj: Object, readPrefs: PrefsReader): (r: Result<Config, ConfigError>)
  {
    match readPrefs(Get(obj, "preferences"))
    case Err(msg) => Err(PreferencesErr(msg))
    case Ok(pr) =>
      var auth :- LoadAuth(obj);
      var st :- LoadProfilesOf(obj, pr.1);
      Ok(Config(auth, st.instances, st.profiles, st.registry, pr.0))
  }

  // ---------------------------------------------------------------------------
  // What a loaded configuration guarantees

  /** The ids a profile member lists under `instances`. */
  function InstanceIds(m: Member): set<string>
  {
    if m.value.JObj? && Get(m.value.members, "instances").Some? && Get(m.value.members, "instances").value.JObj?
    then KeySet(Get(m.value.members, "instances").value.members)
    else {}
  }

  /** A profile registers the instances it lists, none of which was registered before, and keeps the others. */
  lemma ProfileStepInstances(st: State, m: Member)
    requires ProfileStep(st, m).Ok?
    ensures var r := ProfileStep(st, m).value;
      st.instances.Keys <= r.instances.Keys && InstanceIds(m) <= r.instances.Keys &&
      InstanceIds(m) !! st.instances.Keys
  {
    var obj := m.value.members;
    var version := AccessStr(obj, "version").value;
    var insts := InstancesOf(obj).value;
    var b0 := Building(st.instances, ProfileConfig(m.key, version, [], []));
    InstancesFoldOk(b0, version, insts);
    InstancesFoldFresh(b0, version, insts);
    assert InstanceIds(m) == KeySet(insts);
  }

  /** The instance ids all the given profile members list. */
  function ListedIds(members: seq<Member>): set<string>
  {
    if |members| == 0 then {} else ListedIds(members[..|members| - 1]) + InstanceIds(members[|members| - 1])
  }

  /** No two of the given profile members list the same instance id. */
  predicate ListsDisjoint(members: seq<Member>)
  {
    |members| == 0 ||
    (ListsDisjoint(members[..|members| - 1]) && InstanceIds(members[|members| - 1]) !! ListedIds(members[..|members| - 1]))
  }

  /**
   * Every instance the profiles list ends up registered exactly once: none was registered
   * at the start, and no two profile members list the same id.
   */
  lemma {:induction false} ProfilesFoldRegisters(st: State, members: seq<Member>)
    requires ProfilesFold(st, members).Ok?
    ensures var r := ProfilesFold(st, members).value;
      st.instances.Keys <= r.instances.Keys && ListedIds(members) <= r.instances.Keys &&
      ListedIds(members) !! st.instances.Keys && ListsDisjoint(members)
    decreases |members|
  {
    if |members| > 0 {
      var front := members[..|members| - 1];
      ProfilesFoldRegisters(st, front);
      ProfileStepInstances(ProfilesFold(st, front).value, members[|members| - 1]);
    }
  }

  /** The recursive disjointness is disjointness of every pair. */
  lemma {:induction false} ListsDisjointPairwise(members: seq<Member>)
    requires ListsDisjoint(members)
    ensures forall i :: 0 <= i < |members| ==> InstanceIds(members[i]) <= ListedIds(members)
    ensures forall i, j :: 0 <= i < j < |members| ==> InstanceIds(members[i]) !! InstanceIds(members[j])
    decreases |members|
  {
    if |members| > 0 {
      var front := members[..|members| - 1];
      ListsDisjointPairwise(front);
      assert forall i :: 0 <= i < |front| ==> front[i] == members[i];
      forall i, j | 0 <= i < j < |members|
        ensures InstanceIds(members[i]) !! InstanceIds(members[j])
      {
        if j == |members| - 1 {
          assert InstanceIds(front[i]) <= ListedIds(front);
        }
      }
    }
  }

  /**
   * The errors of a package entry whose id and version are well formed: an unknown type,
   * a local package without a path, and a local package without an exact version.
   */
  lemma PackageStepErrors(b: PkgBuilding, profile: string, item: Json)
    requires item.JObj? && AccessStr(item.members, "id").Ok? && VersionOf(item.members).Ok?
    ensures var obj := item.members; var typ := Get(obj, "type");
      (typ.Some? && typ.value.JStr? && typ.value.s != "local" && typ.value.s != "remote" ==>
        PackageStep(b, profile, item) == Err(Content(PkgType(typ.value.s, "package")))) &&
      (typ == Some(JStr("local")) && Get(obj, "path").None? ==>
        PackageStep(b, profile, item) == Err(JsonErr(MissingKey("path")))) &&
      (typ == Some(JStr("local")) && AccessStr(obj, "path").Ok? && Get(obj, "version").None? ==>
        PackageStep(b, profile, item) == Err(Content(LocalPackageVersion(AccessStr(obj, "id").value))))
  {
  }

  /** A remote or untyped package with well-formed features is accepted and leaves the registry alone. */
  lemma PackageStepRemote(b: PkgBuilding, profile: string, item: Json)
    requires item.JObj? && AccessStr(item.members, "id").Ok? && VersionOf(item.members).Ok?
    requires Get(item.members, "type").None? || Get(item.members, "type") == Some(JStr("remote"))
    requires FeaturesOf(item.members).Ok?
    ensures PackageStep(b, profile, item) == Ok(PkgBuilding(b.registry, b.profile.(packages := b.profile.packages +
      [PkgConfig(PkgRequest(AccessStr(item.members, "id").value, VersionOf(item.members).value), FeaturesOf(item.members).value)])))
  {
  }

  /** The packages of one profile: what the loop over them keeps. */
  predicate LocalsRequested(b: PkgBuilding, r: PkgBuilding, profile: string)
  {
    && |b.profile.packages| <= |r.profile.packages|
    && r.profile.packages[..|b.profile.packages|] == b.profile.packages
    && r.profile.(packages := b.profile.packages) == b.profile
    && r.registry.repositories == b.registry.repositories
    && |b.registry.locals| <= |r.registry.locals|
    && r.registry.locals[..|b.registry.locals|] == b.registry.locals
    && forall k :: |b.registry.locals| <= k < |r.registry.locals| ==>
        (r.registry.locals[k].profile == profile &&
         exists n :: |b.profile.packages| <= n < |r.profile.packages| &&
           r.profile.packages[n].req == PkgRequest(r.registry.locals[k].name, Single(r.registry.locals[k].version)))
  }

  /** One package appends its configuration and registers at most a local package of that exact request. */
  lemma PackageStepRequested(b: PkgBuilding, profile: string, item: Json)
    requires PackageStep(b, profile, item).Ok?
    ensures var r := PackageStep(b, profile, item).value;
      |r.profile.packages| == |b.profile.packages| + 1 && LocalsRequested(b, r, profile)
  {
    var r := PackageStep(b, profile, item).value;
    var obj := item.members;
    var id := AccessStr(obj, "id").value;
    var version := VersionOf(obj).value;
    var n := |b.profile.packages|;
    assert r.profile.packages[n].req == PkgRequest(id, version);
    if |r.registry.locals| > |b.registry.locals| {
      assert Get(obj, "type").value.s == "local";
      assert r.registry.locals[|b.registry.locals|].name == id;
    }
  }

  /**
   * The packages loop appends one configuration per entry, leaves the rest of the profile
   * and the repositories alone, and every local package it registers belongs to this
   * profile and is one of its package requests, with an exact version.
   */
  lemma {:induction false} PackagesFoldRequested(b: PkgBuilding, profile: string, items: seq<Json>)
    requires PackagesFold(b, profile, items).Ok?
    ensures var r := PackagesFold(b, profile, items).value;
      |r.profile.packages| == |b.profile.packages| + |items| && LocalsRequested(b, r, profile)
    decreases |items|
  {
    if |items| > 0 {
      var front := items[..|items| - 1];
      PackagesFoldRequested(b, profile, front);
      var f := PackagesFold(b, profile, front).value;
      var r := PackagesFold(b, profile, items).value;
      PackageStepRequested(f, profile, items[|items| - 1]);
      LocalsRequestedTrans(b, f, r, profile);
    }
  }

  lemma LocalsRequestedTrans(a: PkgBuilding, b: PkgBuilding, c: PkgBuilding, profile: string)
    requires LocalsRequested(a, b, profile) && LocalsRequested(b, c, profile)
    ensures LocalsRequested(a, c, profile)
  {
    assert c.profile.packages[..|a.profile.packages|] == b.profile.packages[..|a.profile.packages|];
    assert c.registry.locals[..|a.registry.locals|] == b.registry.locals[..|a.registry.locals|];
    forall k | |a.registry.locals| <= k < |c.registry.locals|
      ensures exists n :: (|a.profile.packages| <= n < |c.profile.packages| &&
        c.profile.packages[n].req == PkgRequest(c.registry.locals[k].name, Single(c.registry.locals[k].version)))
    {
      if k < |b.registry.locals| {
        assert c.registry.locals[k] == b.registry.locals[k];
        var n :| |a.profile.packages| <= n < |b.profile.packages| &&
          b.profile.packages[n].req == PkgRequest(b.registry.locals[k].name, Single(b.registry.locals[k].version));
        assert c.profile.packages[n] == b.profile.packages[n];
      } else {
        assert c.registry.locals[k].profile == profile;
        var n :| |b.profile.packages| <= n < |c.profile.packages| &&
          c.profile.packages[n].req == PkgRequest(c.registry.locals[k].name, Single(c.registry.locals[k].version));
      }
    }
  }

  /** The users a loaded configuration holds are those of the document, and a default user is one of them. */
  lemma LoadAuthUsers(obj: Object)
    requires LoadAuth(obj).Ok?
    ensures var a := LoadAuth(obj).value;
      a.users.Keys == KeySet(AccessObject(obj, "users").value) &&
      (a.state.Authed? ==> a.state.user in a.users) &&
      (Get(obj, "default_user").None? ==> a.state == Offline)
  {
  }

  /** In a loaded configuration no instance id is listed under two profiles, and every listed one is registered. */
  lemma LoadNoSharedInstances(obj: Object, readPrefs: PrefsReader)
    requires Load(obj, readPrefs).Ok?
    ensures var profiles := AccessObject(obj, "profiles").value;
      (forall i, j :: 0 <= i < j < |profiles| ==> InstanceIds(profiles[i]) !! InstanceIds(profiles[j])) &&
      (forall i :: 0 <= i < |profiles| ==> InstanceIds(profiles[i]) <= Load(obj, readPrefs).value.instances.Keys)
  {
    var pr := readPrefs(Get(obj, "preferences")).value;
    var profiles := AccessObject(obj, "profiles").value;
    ProfilesFoldRegisters(State(map[], map[], Registry(pr.1, [])), profiles);
    ListsDisjointPairwise(profiles);
  }

  // ---------------------------------------------------------------------------
  // The default configuration

  /** `default_config`: one Microsoft user and one profile with a client and a server instance. */
  const DEFAULT_CONFIG: Object := [
    Member("users", JObj([
      Member("example", JObj([Member("type", JStr("microsoft")), Member("name", JStr("ExampleUser441"))]))])),
    Member("profiles", JObj([
      Member("example", JObj([
        Member("version", JStr("1.19.3")),
        Member("instances", JObj([
          Member("example-client", JObj([Member("type", JStr("client"))])),
          Member("example-server", JObj([Member("type", JStr("server"))]))]))]))])),
    Member("packages", JArr([]))]

  /** What the default configuration loads to: user "example", offline, and profile "example" with two instances. */
  const DEFAULT_AUTH := Auth(map["example" := User(Microsoft, "example", "ExampleUser441", None)], Offline)
  const DEFAULT_INSTANCES := map[
    "example-client" := InstanceConfig(Instance.InstKind.Client, "example-client", "1.19.3"),
    "example-server" := InstanceConfig(Instance.InstKind.Server, "example-server", "1.19.3")]
  const DEFAULT_PROFILE := ProfileConfig("example", "1.19.3", ["example-client", "example-server"], [])

  /** The users of the default configuration: "example", a Microsoft account, and no default user. */
  lemma DefaultAuth()
    ensures LoadAuth(DEFAULT_CONFIG) == Ok(DEFAULT_AUTH)
  {
    var o := DEFAULT_CONFIG;
    assert Get(o, "default_user") == None;
    var users := o[0].value.members;
    var user := users[0];
    assert AccessObject(o, "users") == Ok(users);
    assert AccessStr(user.value.members, "type") == Ok("microsoft");
    assert AccessStr(user.value.members, "name") == Ok("ExampleUser441");
    assert Get(user.value.members, "uuid") == None;
    assert users[..0] == [];
  }

  /** The two instances of the default profile. */
  lemma DefaultInstances()
    ensures var insts := DEFAULT_CONFIG[1].value.members[0].value.members[1].value.members;
      InstancesFold(Building(map[], ProfileConfig("example", "1.19.3", [], [])), "1.19.3", insts) ==
      Ok(Building(DEFAULT_INSTANCES, DEFAULT_PROFILE))
  {
    var insts := DEFAULT_CONFIG[1].value.members[0].value.members[1].value.members;
    assert AccessStr(insts[0].value.members, "type") == Ok("client");
    assert AccessStr(insts[1].value.members, "type") == Ok("server");
    var b0 := Building(map[], ProfileConfig("example", "1.19.3", [], []));
    var b1 := Building(
      map["example-client" := InstanceConfig(Instance.InstKind.Client, "example-client", "1.19.3")],
      ProfileConfig("example", "1.19.3", ["example-client"], []));
    assert insts[..1][..0] == [] && insts[..1][0] == insts[0] && insts[..2] == insts && insts[..2][..1] == insts[..1];
    assert insts[0].key == "example-client";
    assert J(EnsureType(AsObject(insts[0].value), Obj)) == Ok(insts[0].value.members);
    assert J(AccessStr(insts[0].value.members, "type")) == Ok("client");
    assert InstKindOf("client", "example-client") == Ok(Instance.InstKind.Client);
    assert b0.profile.(instances := b0.profile.instances + ["example-client"]) == b1.profile;
    assert b0.instances["example-client" := InstanceConfig(Instance.InstKind.Client, "example-client", "1.19.3")] == b1.instances;
    assert InstanceStep(b0, "1.19.3", insts[0]) == Ok(b1);
    assert InstancesFold(b0, "1.19.3", insts[..1]) == Ok(b1);
    assert insts[1].key == "example-server";
    assert J(EnsureType(AsObject(insts[1].value), Obj)) == Ok(insts[1].value.members);
    assert J(AccessStr(insts[1].value.members, "type")) == Ok("server");
    assert InstKindOf("server", "example-server") == Ok(Instance.InstKind.Server);
    assert b1.profile.(instances := b1.profile.instances + ["example-server"]) ==
      ProfileConfig("example", "1.19.3", ["example-client", "example-server"], []);
  }

  /** The profiles of the default configuration: "example" on 1.19.3 with its two instances and no packages. */
  lemma DefaultProfiles(repositories: Repositories)
    ensures LoadProfilesOf(DEFAULT_CONFIG, repositories) ==
      Ok(State(DEFAULT_INSTANCES, map["example" := DEFAULT_PROFILE], Registry(repositories, [])))
  {
    var o := DEFAULT_CONFIG;
    var profiles := o[1].value.members;
    assert AccessObject(o, "profiles") == Ok(profiles);
    var pobj := profiles[0].value.members;
    assert AccessStr(pobj, "version") == Ok("1.19.3");
    assert InstancesOf(pobj) == Ok(pobj[1].value.members);
    assert PackagesOf(pobj) == Ok([]);
    DefaultInstances();
    assert profiles[..0] == [];
  }

  /** The default configuration has no preferences. */
  lemma DefaultNoPreferences()
    ensures Get(DEFAULT_CONFIG, "preferences") == None
  {
  }

  /**
   * The default configuration loads whenever the preferences reader accepts an absent
   * `preferences` value, with no local packages.
   */
  lemma DefaultConfigLoads(obj: Object, readPrefs: PrefsReader)
    requires obj == DEFAULT_CONFIG && readPrefs(None).Ok?
    ensures var pr := readPrefs(None).value;
      Load(obj, readPrefs) ==
      Ok(Config(DEFAULT_AUTH, DEFAULT_INSTANCES, map["example" := DEFAULT_PROFILE], Registry(pr.1, []), pr.0))
  {
    DefaultNoPreferences();
    DefaultAuth();
    DefaultProfiles(readPrefs(None).value.1);
  }

  /** The loop over `users`. */
  method LoadUsers(users: seq<Member>) returns (r: Result<map<string, User>, ConfigError>)
    ensures r == UsersFold(users)
  {
    var out: map<string, User> := map[];
    for i := 0 to |users|
      invariant UsersFold(users[..i]) == Ok(out)
    {
      assert users[..i + 1][..i] == users[..i];
      var user := UserEntry(users[i]);
      if user.Err? {
        UsersFoldErrSticks(users, i + 1);
        return Err(user.error);
      }
      out := out[users[i].key := user.value];
    }
    assert users[..|users|] == users;
    return Ok(out);
  }

  /** The loop over a profile's `instances`, checking each id against the registry. */
  method LoadInstances(b0: Building, version: string, members: seq<Member>) returns (r: Result<Building, ConfigError>)
    ensures r == InstancesFold(b0, version, members)
  {
    var instances := b0.instances;
    var profile := b0.profile;
    for i := 0 to |members|
      invariant InstancesFold(b0, version, members[..i]) == Ok(Building(instances, profile))
    {
      assert members[..i + 1][..i] == members[..i];
      var id := members[i].key;
      if id in instances {
        InstancesFoldErrSticks(b0, version, members, i + 1);
        return Err(Content(DuplicateInstance(id)));
      }
      var obj := J(EnsureType(AsObject(members[i].value), Obj));
      if obj.Err? {
        InstancesFoldErrSticks(b0, version, members, i + 1);
        return Err(obj.error);
      }
      var typ := J(AccessStr(obj.value, "type"));
      if typ.Err? {
        InstancesFoldErrSticks(b0, version, members, i + 1);
        return Err(typ.error);
      }
      var kind := InstKindOf(typ.value, id);
      if kind.Err? {
        InstancesFoldErrSticks(b0, version, members, i + 1);
        return Err(kind.error);
      }
      profile := profile.(instances := profile.instances + [id]);
      instances := instances[id := InstanceConfig(kind.value, id, version)];
    }
    assert members[..|members|] == members;
    return Ok(Building(instances, profile));
  }

  /** The loop over a features list. */
  method LoadFeatures(items: seq<Json>) returns (r: Result<seq<string>, ConfigError>)
    ensures r == FeaturesFold(items)
  {
    var out: seq<string> := [];
    for i := 0 to |items|
      invariant FeaturesFold(items[..i]) == Ok(out)
    {
      assert items[..i + 1][..i] == items[..i];
      if !items[i].JStr? {
        FeaturesFoldErrSticks(items, i + 1);
        return Err(JsonErr(WrongType(Str)));
      }
      out := out + [items[i].s];
    }
    assert items[..|items|] == items;
    return Ok(out);
  }

  /** The loop over a profile's `packages`. */
  method LoadPackages(b0: PkgBuilding, profile: string, items: seq<Json>) returns (r: Result<PkgBuilding, ConfigError>)
    ensures r == PackagesFold(b0, profile, items)
  {
    var b := b0;
    for i := 0 to |items|
      invariant PackagesFold(b0, profile, items[..i]) == Ok(b)
    {
      assert items[..i + 1][..i] == items[..i];
      var next := PackageStep(b, profile, items[i]);
      if next.Err? {
        PackagesFoldErrSticks(b0, profile, items, i + 1);
        return Err(next.error);
      }
      b := next.value;
    }
    assert items[..|items|] == items;
    return Ok(b);
  }

  /** One package entry, step by step as the body of the packages loop reads it. */
  method LoadPackage(b: PkgBuilding, profile: string, item: Json) returns (r: Result<PkgBuilding, ConfigError>)
    ensures r == PackageStep(b, profile, item)
  {
    var obj := J(EnsureType(AsObject(item), Obj));
    if obj.Err? {
      return Err(obj.error);
    }
    var id := J(AccessStr(obj.value, "id"));
    if id.Err? {
      return Err(id.error);
    }
    var version := VersionOf(obj.value);
    if version.Err? {
      return Err(version.error);
    }
    var reg := RegistryFor(b.registry, profile, obj.value, id.value, version.value);
    if reg.Err? {
      return Err(reg.error);
    }
    var features: seq<string> := [];
    var list := Get(obj.value, "features");
    if list.Some? {
      if !list.value.JArr? {
        return Err(JsonErr(WrongType(Arr)));
      }
      var fs := LoadFeatures(list.value.items);
      if fs.Err? {
        return Err(fs.error);
      }
      features := fs.value;
    }
    var pkg := PkgConfig(PkgRequest(id.value, version.value), features);
    return Ok(PkgBuilding(reg.value, b.profile.(packages := b.profile.packages + [pkg])));
  }

  /** The loop over `profiles`. */
  method LoadProfiles(st0: State, members: seq<Member>) returns (r: Result<State, ConfigError>)
    ensures r == ProfilesFold(st0, members)
  {
    var st := st0;
    for i := 0 to |members|
      invariant ProfilesFold(st0, members[..i]) == Ok(st)
    {
      assert members[..i + 1][..i] == members[..i];
      var next := LoadProfile(st, members[i]);
      if next.Err? {
        ProfilesFoldErrSticks(st0, members, i + 1);
        return Err(next.error);
      }
      st := next.value;
    }
    assert members[..|members|] == members;
    return Ok(st);
  }

  /** One profile: its version, its instances, its packages, then its entry in the profiles map. */
  method LoadProfile(st: State, m: Member) returns (r: Result<State, ConfigError>)
    ensures r == ProfileStep(st, m)
  {
    var obj := J(EnsureType(AsObject(m.value), Obj));
    if obj.Err? {
      return Err(obj.error);
    }
    var version := J(AccessStr(obj.value, "version"));
    if version.Err? {
      return Err(version.error);
    }
    var insts := InstancesOf(obj.value);
    if insts.Err? {
      return Err(insts.error);
    }
    var b := LoadInstances(Building(st.instances, ProfileConfig(m.key, version.value, [], [])), version.value, insts.value);
    if b.Err? {
      return Err(b.error);
    }
    var pkgs := PackagesOf(obj.value);
    if pkgs.Err? {
      return Err(pkgs.error);
    }
    var pb := LoadPackages(PkgBuilding(st.registry, b.value.profile), m.key, pkgs.value);
    if pb.Err? {
      return Err(pb.error);
    }
    return Ok(State(b.value.instances, st.profiles[m.key := pb.value.profile], pb.value.registry));
  }

  /** `Config::load_from_obj`. */
  method LoadFromObj(obj: Object, readPrefs: PrefsReader) returns (r: Result<Config, ConfigError>)
    ensures r == Load(obj, readPrefs)
  {
    var pr := readPrefs(Get(obj, "preferences"));
    if pr.Err? {
      return Err(PreferencesErr(pr.error));
    }
    var users := J(AccessObject(obj, "users"));
    if users.Err? {
      return Err(users.error);
    }
    var userMap := LoadUsers(users.value);
    if userMap.Err? {
      return Err(userMap.error);
    }
    var state := AuthStateFor(obj, userMap.value);
    if state.Err? {
      return Err(state.error);
    }
    assert LoadAuth(obj) == Ok(Auth(userMap.value, state.value));
    var profiles := J(AccessObject(obj, "profiles"));
    if profiles.Err? {
      return Err(profiles.error);
    }
    var st := LoadProfiles(State(map[], map[], Registry(pr.value.1, [])), profiles.value);
    if st.Err? {
      return Err(st.error);
    }
    return Ok(Config(Auth(userMap.value, state.value), st.value.instances, st.value.profiles, st.value.registry, pr.value.0));
  }
}
