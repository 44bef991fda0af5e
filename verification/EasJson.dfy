/** The canonical form of eas.json (canonicalizeEasJson in apps/ui/fingerprint.config.js). */
module EasJson {
  import opened StableJson
  import opened JsonObjects
  import opened EasProfiles

  /** JavaScript's `String(x).trim()` and `String(x).trim().toLowerCase()`; any functions will do here. */
  datatype Texts = Texts(trimmed: Json -> string, lowered: Json -> string)

  function ReadProfile(texts: Texts, v: Json): Profile {
    if !IsObject(v) then NotAnObject
    else
      var env := Field(v, "env");
      Profile(
        if env.Some? && IsObject(env.value) then TextOr(texts.lowered, Field(env.value, "APP_ENV")) else "",
        TextOr(texts.trimmed, Field(v, "extends")))
  }

  function ReadProfiles(texts: Texts, members: seq<Member>): Profiles {
    var values := ToMap(members);
    map name | name in values :: ReadProfile(texts, values[name])
  }

  function Filter(members: seq<Member>, names: set<string>): seq<Member> {
    if members == [] then []
    else (if members[0].key in names then [members[0]] else []) + Filter(members[1..], names)
  }

  /** The kept members, assigned to a new object in `sort` order. */
  function NextBuild(members: seq<Member>, keep: set<string>): seq<Member> {
    AssignAll([], Filter(SortByKey(members), keep))
  }

  predicate HasBuild(eas: Json) {
    Field(eas, "build").Some? && IsObject(Field(eas, "build").value)
  }

  function BuildOf(eas: Json): seq<Member>
    requires HasBuild(eas)
  {
    Entries(Field(eas, "build").value)
  }

  ghost function CanonicalEas(texts: Texts, eas: Json, appEnv: string): Json {
    if !HasBuild(eas) then eas
    else
      var build := BuildOf(eas);
      Object(Put(eas.members, "build", Object(NextBuild(build, Kept(ReadProfiles(texts, build), appEnv)))))
  }

  method CanonicalizeEasJson(texts: Texts, eas: Json, appEnv: string) returns (canonical: Json)
    ensures canonical == CanonicalEas(texts, eas, appEnv)
  {
    hide Kept, ReadProfile, IsIndex, LexLess;
    if !HasBuild(eas) {
      return eas;
    }
    var build := BuildOf(eas);
    var names := seq(|build|, i requires 0 <= i < |build| => build[i].key);
    NamesAreKeys(build, names);
    var keep := KeepProfiles(names, ReadProfiles(texts, build), appEnv);
    var nextBuild := AssignKept(SortByKey(build), keep);
    canonical := Object(Put(eas.members, "build", Object(nextBuild)));
  }

  method AssignKept(sorted: seq<Member>, keep: set<string>) returns (nextBuild: seq<Member>)
    ensures nextBuild == AssignAll([], Filter(sorted, keep))
  {
    hide Assign;
    assert sorted[0..] == sorted;
    nextBuild := [];
    for i := 0 to |sorted|
      invariant AssignAll(nextBuild, Filter(sorted[i..], keep)) == AssignAll([], Filter(sorted, keep))
    {
      assert sorted[i..][1..] == sorted[i + 1..];
      if sorted[i].key in keep {
        assert Filter(sorted[i..], keep) == [sorted[i]] + Filter(sorted[i + 1..], keep);
        nextBuild := Assign(nextBuild, sorted[i]);
      } else {
        assert Filter(sorted[i..], keep) == Filter(sorted[i + 1..], keep);
      }
    }
  }

  lemma NamesAreKeys(members: seq<Member>, names: seq<string>)
    requires |names| == |members| && forall i :: 0 <= i < |names| ==> names[i] == members[i].key
    ensures forall name :: name in names <==> name in ToMap(members)
  {
    forall name | name in names ensures name in ToMap(members) {
      var i :| 0 <= i < |names| && names[i] == name;
      MapHas(members, i);
    }
    forall name | name in ToMap(members) ensures name in names {
      var i := MapFinds(members, name);
      assert names[i] == name;
    }
  }

  // ----- the build object that comes out -----

  lemma {:induction false} Filtered(members: seq<Member>, names: set<string>)
    ensures ToMap(Filter(members, names)) == Restrict(ToMap(members), names)
  {
    if members != [] {
      var rest := Filter(members[1..], names);
      Filtered(members[1..], names);
      if members[0].key in names {
        assert Filter(members, names)[1..] == rest;
      } else {
        assert Filter(members, names) == rest;
      }
    }
  }

  lemma {:induction false} FilteredSorted(members: seq<Member>, names: set<string>)
    requires LexSorted(members)
    ensures LexSorted(Filter(members, names))
  {
    if members != [] {
      var rest := Filter(members[1..], names);
      FilteredSorted(members[1..], names);
      Filtered(members[1..], names);
      assert LexSorted(members[1..]);
      forall j | 0 <= j < |rest| ensures LexLess(members[0].key, rest[j].key) {
        hide Filter, LexLess;
        MapHas(rest, j);
        var i := MapFinds(members[1..], rest[j].key);
      }
    }
  }

  /** It holds the kept members, unchanged and in enumeration order, except one called `__proto__`. */
  lemma NextBuildHolds(members: seq<Member>, keep: set<string>)
    requires Distinct(members)
    ensures Enumerated(NextBuild(members, keep))
    ensures ToMap(NextBuild(members, keep)) == Restrict(ToMap(members), keep) - {PROTO}
  {
    Sorted(members);
    Filtered(SortByKey(members), keep);
    FilteredSorted(SortByKey(members), keep);
    AllAssigned([], Filter(SortByKey(members), keep));
  }

  lemma CanonicalOfPut(texts: Texts, fields: seq<Member>, build: Json, appEnv: string)
    requires IsObject(build)
    ensures var entries := Entries(build);
      CanonicalEas(texts, Object(Put(fields, "build", build)), appEnv)
      == Object(Put(fields, "build", Object(NextBuild(entries, Kept(ReadProfiles(texts, entries), appEnv)))))
  {
    PutOnMap(fields, "build", build);
    var entries := Entries(build);
    PutTwice(fields, "build", build, Object(NextBuild(entries, Kept(ReadProfiles(texts, entries), appEnv))));
  }

  /** Two builds come out equal exactly if they keep the same profiles, with the same values, `__proto__` aside. */
  lemma SameNextBuild(a: seq<Member>, b: seq<Member>, keepA: set<string>, keepB: set<string>)
    requires Distinct(a) && Distinct(b)
    ensures NextBuild(a, keepA) == NextBuild(b, keepB)
      <==> Restrict(ToMap(a), keepA) - {PROTO} == Restrict(ToMap(b), keepB) - {PROTO}
  {
    NextBuildHolds(a, keepA);
    NextBuildHolds(b, keepB);
    if Restrict(ToMap(a), keepA) - {PROTO} == Restrict(ToMap(b), keepB) - {PROTO} {
      EnumerationIsUnique(NextBuild(a, keepA), NextBuild(b, keepB));
    }
  }
}
