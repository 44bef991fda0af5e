/** Which build profiles the canonical eas.json holds, read off the JSON itself (apps/ui/fingerprint.config.js). */
module EasSelection {
  import opened Options
  import opened StableJson
  import opened JsonObjects
  import opened EasProfiles
  import opened EasJson

  type Build = map<string, Json>

  /** The own APP_ENV of a profile, "" without one; the other members of the profile do not matter. */
  function AppEnvOf(texts: Texts, v: Json): string {
    match Field(v, "env")
    case Some(Object(members)) =>
      (match Field(Object(members), "APP_ENV")
       case None => ""
       case Some(Null) => ""
       case Some(env) => texts.lowered(env))
    case _ => ""
  }

  function ExtendsOf(texts: Texts, v: Json): string {
    match Field(v, "extends")
    case None => ""
    case Some(Null) => ""
    case Some(parent) => texts.trimmed(parent)
  }

  /** What a profile says is its APP_ENV and what it extends, each whatever the other is. */
  lemma ProfileReads(texts: Texts, v: Json)
    ensures v.Object? ==> ReadProfile(texts, v) == Profile(AppEnvOf(texts, v), ExtendsOf(texts, v))
    ensures v.Array? ==> ReadProfile(texts, v) == Profile("", "")
    ensures !v.Object? && !v.Array? ==> ReadProfile(texts, v) == NotAnObject
    ensures AppEnvOf(texts, v) != "" || ExtendsOf(texts, v) != "" ==> v.Object?
  {
  }

  /** A name to which the `extends` of a profile leads. */
  predicate Extends(texts: Texts, build: Build, child: string, parent: string) {
    child in build && parent in build && parent != "" && ExtendsOf(texts, build[child]) == parent
  }

  /** Named profiles, each extending the next. */
  predicate IsChain(texts: Texts, build: Build, path: seq<string>) {
    && path != [] && path[0] != "" && path[0] in build
    && forall i :: 0 <= i < |path| - 1 ==> Extends(texts, build, path[i], path[i + 1])
  }

  /** Its last profile is the first that sets APP_ENV, to the active one. */
  predicate Settles(texts: Texts, build: Build, path: seq<string>, appEnv: string) {
    && IsChain(texts, build, path) && appEnv != ""
    && (forall i :: 0 <= i < |path| ==> path[i] in build)
    && (forall i :: 0 <= i < |path| - 1 ==> AppEnvOf(texts, build[path[i]]) == "")
    && AppEnvOf(texts, build[path[|path| - 1]]) == appEnv
  }

  ghost predicate Matches(texts: Texts, build: Build, name: string, appEnv: string) {
    exists path :: Settles(texts, build, path, appEnv) && path[0] == name
  }

  /** It starts at base or at a profile that resolves to the active APP_ENV. */
  ghost predicate Needs(texts: Texts, build: Build, path: seq<string>, appEnv: string) {
    IsChain(texts, build, path) && (path[0] == "base" || Matches(texts, build, path[0], appEnv))
  }

  // ----- the JSON and the profiles read from it -----

  lemma NextIsExtended(texts: Texts, members: seq<Member>, name: string, parent: string)
    requires name != "" && parent != ""
    ensures Next(ReadProfiles(texts, members), name) == parent <==> Extends(texts, ToMap(members), name, parent)
  {
    if name in ToMap(members) {
      ProfileReads(texts, ToMap(members)[name]);
    }
    hide AppEnvOf, ExtendsOf, ReadProfile;
  }

  lemma EnvIsRead(texts: Texts, members: seq<Member>, name: string)
    requires name != "" && name in ToMap(members)
    ensures Env(ReadProfiles(texts, members), name) == AppEnvOf(texts, ToMap(members)[name])
  {
    ProfileReads(texts, ToMap(members)[name]);
    hide AppEnvOf, ExtendsOf, ReadProfile;
  }

  lemma {:induction false} ChainClimbs(texts: Texts, members: seq<Member>, path: seq<string>, i: nat)
    requires IsChain(texts, ToMap(members), path) && i < |path|
    ensures Ancestor(ReadProfiles(texts, members), path[0], i) == path[i] != "" && path[i] in ToMap(members)
  {
    var b := ReadProfiles(texts, members);
    if i > 0 {
      ChainClimbs(texts, members, path, i - 1);
      AncestorsCompose(b, path[0], i - 1, 1);
      assert Extends(texts, ToMap(members), path[i - 1], path[i]);
      NextIsExtended(texts, members, path[i - 1], path[i]);
      assert Ancestor(b, path[i - 1], 1) == Ancestor(b, Next(b, path[i - 1]), 0);
    }
  }

  lemma {:induction false} ClimbIsChain(texts: Texts, members: seq<Member>, name: string, k: nat)
      returns (path: seq<string>)
    requires name in ToMap(members) && Ancestor(ReadProfiles(texts, members), name, k) != ""
    ensures IsChain(texts, ToMap(members), path) && |path| == k + 1 && path[0] == name
    ensures path[k] == Ancestor(ReadProfiles(texts, members), name, k)
    decreases k
  {
    var b := ReadProfiles(texts, members);
    if k == 0 {
      path := [name];
    } else {
      if name == "" {
        NothingIsEmpty(b, k - 1);
      }
      if Next(b, name) == "" {
        NothingIsEmpty(b, k - 1);
      }
      var rest := ClimbIsChain(texts, members, Next(b, name), k - 1);
      path := [name] + rest;
      NextIsExtended(texts, members, name, rest[0]);
      forall i | 0 <= i < |path| - 1 ensures Extends(texts, ToMap(members), path[i], path[i + 1]) {
        if i > 0 {
          assert path[i] == rest[i - 1] && path[i + 1] == rest[i];
        }
      }
    }
  }

  lemma MatchesIffResolves(texts: Texts, members: seq<Member>, name: string, appEnv: string)
    requires name in ToMap(members)
    ensures Matches(texts, ToMap(members), name, appEnv) <==> ResolvesTo(ReadProfiles(texts, members), name, appEnv)
  {
    var b, build := ReadProfiles(texts, members), ToMap(members);
    hide ReadProfiles, AppEnvOf, Extends;
    if Matches(texts, build, name, appEnv) {
      var path :| Settles(texts, build, path, appEnv) && path[0] == name;
      var k := |path| - 1;
      forall i | 0 <= i <= k ensures Env(b, Ancestor(b, name, i)) == AppEnvOf(texts, build[path[i]]) {
        ChainClimbs(texts, members, path, i);
        EnvIsRead(texts, members, path[i]);
      }
      assert Nearest(b, name, k);
    }
    if ResolvesTo(b, name, appEnv) {
      var k: nat :| Nearest(b, name, k) && Env(b, Ancestor(b, name, k)) == appEnv;
      var path := ClimbIsChain(texts, members, name, k);
      forall i | 0 <= i <= k
        ensures path[i] in build && Env(b, Ancestor(b, name, i)) == AppEnvOf(texts, build[path[i]])
      {
        ChainClimbs(texts, members, path, i);
        EnvIsRead(texts, members, path[i]);
      }
      assert Settles(texts, build, path, appEnv);
    }
  }

  lemma NeededIffKept(texts: Texts, members: seq<Member>, name: string, appEnv: string)
    ensures name in Kept(ReadProfiles(texts, members), appEnv) <==>
      exists path :: Needs(texts, ToMap(members), path, appEnv) && path[|path| - 1] == name
  {
    var b, build := ReadProfiles(texts, members), ToMap(members);
    if name in Kept(b, appEnv) {
      var root, k: nat :| KeptVia(b, appEnv, name, root, k);
      var path := ClimbIsChain(texts, members, root, k);
      MatchesIffResolves(texts, members, root, appEnv);
      assert Needs(texts, build, path, appEnv) && path[|path| - 1] == name;
    }
    if exists path :: Needs(texts, build, path, appEnv) && path[|path| - 1] == name {
      var path :| Needs(texts, build, path, appEnv) && path[|path| - 1] == name;
      ChainClimbs(texts, members, path, |path| - 1);
      MatchesIffResolves(texts, members, path[0], appEnv);
      assert KeptVia(b, appEnv, name, path[0], |path| - 1);
    }
  }

  /** The profiles by name; an array has its positions for names. */
  function BuildMap(build: Json): Build {
    match build
    case Object(members) => ToMap(members)
    case Array(items) => ToMap(Indexed(items, 0))
    case _ => map[]
  }

  /**
   * The selection, on the JSON. The output has a profile exactly if a chain of `extends` leads to it from base or
   * from a profile that resolves to the active APP_ENV; and it has it as it was. Everything but `build` stays.
   */
  lemma OutputHolds(texts: Texts, eas: Json, appEnv: string, name: string)
    requires Field(eas, "build").Some? && (Field(eas, "build").value.Object? || Field(eas, "build").value.Array?)
    requires Field(eas, "build").value.Object? ==> Distinct(Field(eas, "build").value.members)
    requires name != "__proto__"
    ensures var build := BuildMap(Field(eas, "build").value);
      var next := Field(CanonicalEas(texts, eas, appEnv), "build");
      && next.Some? && next.value.Object?
      && Field(next.value, name) == (
          if name in build && exists path :: Needs(texts, build, path, appEnv) && path[|path| - 1] == name then
            Some(build[name])
          else None)
      && forall k :: k != "build" ==> Field(CanonicalEas(texts, eas, appEnv), k) == Field(eas, k)
  {
    var members := Entries(Field(eas, "build").value);
    assert ToMap(members) == BuildMap(Field(eas, "build").value);
    assert Distinct(members) by {
      if Field(eas, "build").value.Array? {
        PositionsAreDistinct(Field(eas, "build").value.items, 0);
      }
    }
    BuildIsReplaced(texts, eas, appEnv);
    hide *;
    var kept := Kept(ReadProfiles(texts, members), appEnv);
    NextField(members, kept, name);
    NeededIffKept(texts, members, name, appEnv);
    KeptHasNames(ReadProfiles(texts, members), appEnv);
  }

  lemma NextField(members: seq<Member>, kept: set<string>, name: string)
    requires Distinct(members) && name != "__proto__"
    ensures Field(Object(NextBuild(members, kept)), name) ==
      if name in ToMap(members) && name in kept then Some(ToMap(members)[name]) else None
  {
    NextBuildHolds(members, kept);
    hide NextBuild, Distinct;
  }

  lemma BuildIsReplaced(texts: Texts, eas: Json, appEnv: string)
    requires Field(eas, "build").Some? && IsObject(Field(eas, "build").value)
    ensures var members := Entries(Field(eas, "build").value);
      var next := CanonicalEas(texts, eas, appEnv);
      && Field(next, "build") == Some(Object(NextBuild(members, Kept(ReadProfiles(texts, members), appEnv))))
      && forall k :: k != "build" ==> Field(next, k) == Field(eas, k)
  {
    var members := Entries(Field(eas, "build").value);
    PutOnMap(eas.members, "build", Object(NextBuild(members, Kept(ReadProfiles(texts, members), appEnv))));
    hide NextBuild, Kept, Put, Indexed;
  }

  /** Without a build object the file stays as it is. */
  lemma NothingToSelect(texts: Texts, eas: Json, appEnv: string)
    requires Field(eas, "build") == None || !(Field(eas, "build").value.Object? || Field(eas, "build").value.Array?)
    ensures CanonicalEas(texts, eas, appEnv) == eas
  {
  }
}
