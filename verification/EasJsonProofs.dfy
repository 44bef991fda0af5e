/** Edits that cannot matter leave the canonical eas.json alone (apps/ui/fingerprint.config.js). */
module EasJsonProofs {
  import opened StableJson
  import opened JsonObjects
  import opened EasProfiles
  import opened EasJson

  ghost function KeptOf(texts: Texts, build: Json, appEnv: string): set<string>
    requires IsObject(build)
  {
    Kept(ReadProfiles(texts, Entries(build)), appEnv)
  }

  ghost function CanonicalWith(texts: Texts, fields: seq<Member>, build: Json, appEnv: string): Json {
    CanonicalEas(texts, Object(Put(fields, "build", build)), appEnv)
  }

  // ----- edits -----

  lemma EditAgrees(texts: Texts, build: seq<Member>, edited: seq<Member>, kept: set<string>)
    requires Restrict(ToMap(edited), kept) == Restrict(ToMap(build), kept) && kept <= ToMap(build).Keys
    ensures Agrees(ReadProfiles(texts, build), ReadProfiles(texts, edited), kept)
  {
    var a, b := ToMap(build), ToMap(edited);
    forall name | name in kept ensures name in b && b[name] == a[name] {
      assert name in Restrict(a, kept);
      assert Restrict(a, kept)[name] == Restrict(b, kept)[name];
    }
  }

  /**
   * Editing profiles outside the kept set. The output stays the same if the edit is unrelated to the active
   * APP_ENV; and only then, unless the edit brings in a profile called `__proto__`.
   */
  lemma UnrelatedEditsChangeNothing(texts: Texts, fields: seq<Member>, build: Json, edited: Json, appEnv: string)
    requires IsObject(build) && IsObject(edited) && Distinct(Entries(build)) && Distinct(Entries(edited))
    requires var kept := KeptOf(texts, build, appEnv);
      Restrict(ToMap(Entries(edited)), kept) == Restrict(ToMap(Entries(build)), kept)
    ensures var b, e := ReadProfiles(texts, Entries(build)), ReadProfiles(texts, Entries(edited));
      var same := CanonicalWith(texts, fields, build, appEnv) == CanonicalWith(texts, fields, edited, appEnv);
      && (Unrelated(b, e, appEnv) ==> same)
      && ((PROTO in e ==> PROTO in Kept(b, appEnv)) ==> same ==> Unrelated(b, e, appEnv))
  {
    var m, n := Entries(build), Entries(edited);
    var b, e := ReadProfiles(texts, m), ReadProfiles(texts, n);
    var keptB, keptE := Kept(b, appEnv), Kept(e, appEnv);
    KeptHasNames(b, appEnv);
    KeptHasNames(e, appEnv);
    EditAgrees(texts, m, n, keptB);
    KeptRemains(b, e, appEnv);
    EditKeepsSelection(b, e, appEnv);
    CanonicalOfPut(texts, fields, build, appEnv);
    CanonicalOfPut(texts, fields, edited, appEnv);
    SameNextBuild(m, n, keptB, keptE);
    PutIsInjective(fields, "build", Object(NextBuild(m, keptB)), Object(NextBuild(n, keptE)));
    SameKeys(ToMap(m), ToMap(n), keptB, keptE);
  }

  lemma SameKeys(a: map<string, Json>, b: map<string, Json>, keepA: set<string>, keepB: set<string>)
    requires keepA <= a.Keys && keepB <= b.Keys && keepA <= keepB
    ensures Restrict(a, keepA) - {PROTO} == Restrict(b, keepB) - {PROTO} && (PROTO in b ==> PROTO in keepA) ==>
      keepA == keepB
  {
    if Restrict(a, keepA) - {PROTO} == Restrict(b, keepB) - {PROTO} && (PROTO in b ==> PROTO in keepA) {
      forall name | name in keepB ensures name in keepA {
        if name != PROTO {
          assert name in Restrict(b, keepB) - {PROTO};
        }
      }
    }
  }

  // ----- doing it twice -----

  /**
   * Canonicalizing is idempotent exactly if the selection does not hang on a profile called `__proto__`,
   * which the output object cannot hold.
   */
  lemma CanonicalTwice(texts: Texts, eas: Json, appEnv: string)
    requires HasBuild(eas) ==> Distinct(BuildOf(eas))
    ensures var once := CanonicalEas(texts, eas, appEnv);
      CanonicalEas(texts, once, appEnv) == once <==>
      !HasBuild(eas) || var b := ReadProfiles(texts, BuildOf(eas));
        Kept(b - {PROTO}, appEnv) == Kept(b, appEnv) - {PROTO}
  {
    if HasBuild(eas) {
      var build := BuildOf(eas);
      var b := ReadProfiles(texts, build);
      var next := NextBuild(build, Kept(b, appEnv));
      var again := Kept(ReadProfiles(texts, next), appEnv);
      NextProfiles(texts, build, appEnv);
      hide ReadProfiles, NextBuild, Kept, Entries, Distinct, Enumerated, ToMap, Restrict;
      SelectionWithout(b, appEnv, PROTO);
      KeptHasNames(ReadProfiles(texts, next), appEnv);
      CanonicalOfPut(texts, eas.members, Object(next), appEnv);
      assert Entries(Object(next)) == next by { EntriesOfObject(next); }
      PutIsInjective(eas.members, "build", Object(next), Object(NextBuild(next, again)));
      NextAgain(next, again);
    }
  }

  lemma EntriesOfObject(members: seq<Member>)
    ensures IsObject(Object(members)) && Entries(Object(members)) == members
  {}

  lemma NextProfiles(texts: Texts, build: seq<Member>, appEnv: string)
    requires Distinct(build)
    ensures var b := ReadProfiles(texts, build);
      var kept := Kept(b, appEnv);
      var next := NextBuild(build, kept);
      && Enumerated(next) && Distinct(next) && ToMap(next).Keys == kept - {PROTO}
      && ReadProfiles(texts, next) == Restrict(b, kept - {PROTO})
      && ReadProfiles(texts, next).Keys == ToMap(next).Keys
  {
    var b := ReadProfiles(texts, build);
    var kept := Kept(b, appEnv);
    var next := NextBuild(build, kept);
    KeptHasNames(b, appEnv);
    NextBuildHolds(build, kept);
    hide Kept, NextBuild, Enumerated, Distinct, ToMap, ReadProfile;
    EnumeratedIsDistinct(next);
    assert ToMap(next).Keys == kept - {PROTO};
    assert ReadProfiles(texts, next) == Restrict(b, kept - {PROTO});
  }

  lemma NextAgain(next: seq<Member>, keep: set<string>)
    requires Enumerated(next) && Distinct(next) && PROTO !in ToMap(next) && keep <= ToMap(next).Keys
    ensures NextBuild(next, keep) == next <==> keep == ToMap(next).Keys
  {
    NextBuildHolds(next, keep);
    if keep == ToMap(next).Keys {
      assert Restrict(ToMap(next), keep) - {PROTO} == ToMap(next);
      EnumerationIsUnique(NextBuild(next, keep), next);
    }
  }

  /** In particular it is idempotent if no profile called `__proto__` is kept. */
  lemma CanonicalTwiceUsually(texts: Texts, eas: Json, appEnv: string)
    requires HasBuild(eas) ==> Distinct(BuildOf(eas)) && PROTO !in Kept(ReadProfiles(texts, BuildOf(eas)), appEnv)
    ensures var once := CanonicalEas(texts, eas, appEnv); CanonicalEas(texts, once, appEnv) == once
  {
    CanonicalTwice(texts, eas, appEnv);
    if HasBuild(eas) {
      OutsiderIsNotMissed(ReadProfiles(texts, BuildOf(eas)), appEnv, PROTO);
    }
  }

  /** Or if the build object has no profile of that name at all. */
  lemma CanonicalTwiceWithoutProto(texts: Texts, eas: Json, appEnv: string)
    requires HasBuild(eas) ==> Distinct(BuildOf(eas)) && PROTO !in ToMap(BuildOf(eas))
    ensures var once := CanonicalEas(texts, eas, appEnv); CanonicalEas(texts, once, appEnv) == once
  {
    if HasBuild(eas) {
      KeptHasNames(ReadProfiles(texts, BuildOf(eas)), appEnv);
    }
    CanonicalTwiceUsually(texts, eas, appEnv);
  }

  /** A selection that does hang on it: an alias profile that takes its APP_ENV from `__proto__`. */
  lemma ProtoProfileIsMissed(appEnv: string)
    requires appEnv != ""
    ensures var b := map[PROTO := Profile(appEnv, ""), "alias" := Profile("", PROTO)];
      Kept(b, appEnv) == {PROTO, "alias"} && Kept(b - {PROTO}, appEnv) == {}
  {
    var b: Profiles := map[PROTO := Profile(appEnv, ""), "alias" := Profile("", PROTO)];
    assert Resolve(b, PROTO, {}) == appEnv && Resolve(b, PROTO, {"alias"}) == appEnv;
    assert Resolve(b, "alias", {}) == appEnv;
    ResolveIsNearest(b, PROTO, appEnv);
    ResolveIsNearest(b, "alias", appEnv);
    KeptIsClosed(b, appEnv);
    KeptIsLeast(b, appEnv, {PROTO, "alias"});
    var less := b - {PROTO};
    assert less == map["alias" := Profile("", PROTO)];
    assert Resolve(less, "alias", {}) == "";
    ResolveIsNearest(less, "alias", appEnv);
    KeptIsLeast(less, appEnv, {});
  }

  /** `{ "build": { "__proto__": { "env": { "APP_ENV": … } }, "alias": { "extends": "__proto__" } } }` */
  function ProtoFile(appEnv: string): Json {
    Object([Member("build", Object(ProtoBuild(appEnv)))])
  }

  function ProtoBuild(appEnv: string): seq<Member> {
    var proto := Object([Member("env", Object([Member("APP_ENV", Text(appEnv))]))]);
    [Member(PROTO, proto), Member("alias", Object([Member("extends", Text(PROTO))]))]
  }

  lemma OneMember(key: string, value: Json)
    ensures ToMap([Member(key, value)]) == map[key := value]
  {
    assert [Member(key, value)][1..] == [];
  }

  lemma ProtoFileReads(texts: Texts, appEnv: string)
    requires texts.lowered(Text(appEnv)) == appEnv && texts.trimmed(Text(PROTO)) == PROTO
    ensures var build := ProtoBuild(appEnv);
      && HasBuild(ProtoFile(appEnv)) && BuildOf(ProtoFile(appEnv)) == build && Distinct(build)
      && ReadProfiles(texts, build) == map[PROTO := Profile(appEnv, ""), "alias" := Profile("", PROTO)]
  {
    var env := Object([Member("APP_ENV", Text(appEnv))]);
    var proto, alias := Object([Member("env", env)]), Object([Member("extends", Text(PROTO))]);
    var build := ProtoBuild(appEnv);
    OneMember("APP_ENV", Text(appEnv));
    OneMember("env", env);
    OneMember("extends", Text(PROTO));
    OneMember("build", Object(build));
    OneMember("alias", alias);
    assert build[1..] == [Member("alias", alias)];
    assert ToMap(build) == map["alias" := alias][PROTO := proto];
    assert ReadProfile(texts, proto) == Profile(appEnv, "") && ReadProfile(texts, alias) == Profile("", PROTO);
  }

  /** The file that shows it: canonicalizing its canonical form loses the alias profile too. */
  lemma ProtoFileIsNotStable(texts: Texts, appEnv: string)
    requires appEnv != "" && texts.lowered(Text(appEnv)) == appEnv && texts.trimmed(Text(PROTO)) == PROTO
    ensures var once := CanonicalEas(texts, ProtoFile(appEnv), appEnv); CanonicalEas(texts, once, appEnv) != once
  {
    hide CanonicalEas, ProtoBuild, ProtoFile, ReadProfiles, Kept;
    ProtoFileReads(texts, appEnv);
    ProtoProfileIsMissed(appEnv);
    CanonicalTwice(texts, ProtoFile(appEnv), appEnv);
    assert {PROTO, "alias"} - {PROTO} == {"alias"};
  }
}
