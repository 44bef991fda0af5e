/**
 * The fingerprint of eas.json depends on what the file says, not on how it is written
 * (apps/ui/fingerprint.config.js).
 */
module EasContent {
  import opened Options
  import opened StableJson
  import opened StableJsonProofs
  import opened JsonObjects
  import opened EasProfiles
  import opened EasJson

  /** The text shown for a value does not depend on the order of members in it. */
  ghost predicate ReadsContent(texts: Texts) {
    forall x, y :: Meaning(x) == Meaning(y) ==>
      texts.trimmed(x) == texts.trimmed(y) && texts.lowered(x) == texts.lowered(y)
  }

  /** What JSON.parse returns has a build object without repeated names. */
  lemma BuildIsDistinct(eas: Json)
    requires Valid(eas) && HasBuild(eas)
    ensures Distinct(BuildOf(eas)) && forall i :: 0 <= i < |BuildOf(eas)| ==> Valid(BuildOf(eas)[i].value)
  {
    var i := MapFinds(eas.members, "build");
    var build := eas.members[i].value;
    assert Valid(build);
    if build.Array? {
      PositionsAreDistinct(build.items, 0);
      PositionsHold(build.items, 0);
    }
  }

  // ----- reading content -----

  lemma FieldContent(a: Json, b: Json, key: string)
    requires Meaning(a) == Meaning(b)
    ensures IsObject(a) == IsObject(b) && a.Null? == b.Null?
    ensures Field(a, key).Some? == Field(b, key).Some?
    ensures Field(a, key).Some? ==> Meaning(Field(a, key).value) == Meaning(Field(b, key).value)
  {
    if a.Object? {
      MeaningByKey(a.members);
      MeaningByKey(b.members);
      assert key in MeaningOfMembers(a.members) <==> key in MeaningOfMembers(b.members);
    }
  }

  lemma TextContent(texts: Texts, a: Option<Json>, b: Option<Json>)
    requires ReadsContent(texts) && a.Some? == b.Some? && (a.Some? ==> Meaning(a.value) == Meaning(b.value))
    ensures TextOr(texts.trimmed, a) == TextOr(texts.trimmed, b)
    ensures TextOr(texts.lowered, a) == TextOr(texts.lowered, b)
  {
    if a.Some? {
      FieldContent(a.value, b.value, "");
      assert texts.trimmed(a.value) == texts.trimmed(b.value);
    }
  }

  lemma ProfileContent(texts: Texts, a: Json, b: Json)
    requires ReadsContent(texts) && Meaning(a) == Meaning(b)
    ensures ReadProfile(texts, a) == ReadProfile(texts, b)
  {
    FieldContent(a, b, "env");
    FieldContent(a, b, "extends");
    hide Meaning, Field, IsObject, ReadsContent;
    TextContent(texts, Field(a, "extends"), Field(b, "extends"));
    var envA, envB := Field(a, "env"), Field(b, "env");
    if envA.Some? {
      FieldContent(envA.value, envB.value, "APP_ENV");
      TextContent(texts, Field(envA.value, "APP_ENV"), Field(envB.value, "APP_ENV"));
    }
  }

  lemma ProfilesContent(texts: Texts, a: seq<Member>, b: seq<Member>)
    requires ReadsContent(texts) && MeaningOfMembers(a) == MeaningOfMembers(b)
    ensures ReadProfiles(texts, a) == ReadProfiles(texts, b)
  {
    MeaningByKey(a);
    MeaningByKey(b);
    hide ToMap, Meaning, MeaningOfMembers, ReadProfile, ReadsContent;
    assert ToMap(a).Keys == ToMap(b).Keys;
    forall name | name in ToMap(a) ensures ReadProfile(texts, ToMap(a)[name]) == ReadProfile(texts, ToMap(b)[name]) {
      ProfileContent(texts, ToMap(a)[name], ToMap(b)[name]);
    }
  }

  lemma {:induction false} PositionContent(a: seq<Json>, b: seq<Json>, first: nat)
    requires MeaningOfItems(a) == MeaningOfItems(b)
    ensures MeaningOfMembers(Indexed(a, first)) == MeaningOfMembers(Indexed(b, first))
    decreases |a|
  {
    ItemsMapped(a);
    ItemsMapped(b);
    if a != [] {
      assert MeaningOfItems(a)[1..] == MeaningOfItems(a[1..]) && MeaningOfItems(b)[1..] == MeaningOfItems(b[1..]);
      assert MeaningOfItems(a)[0] == MeaningOfItems(b)[0];
      PositionContent(a[1..], b[1..], first + 1);
    }
  }

  lemma EntryContent(a: Json, b: Json)
    requires IsObject(a) && IsObject(b) && Meaning(a) == Meaning(b)
    ensures MeaningOfMembers(Entries(a)) == MeaningOfMembers(Entries(b))
  {
    if a.Array? {
      PositionContent(a.items, b.items, 0);
    }
  }

  // ----- the canonical form as content -----

  lemma {:induction false} StripContent(a: Json, b: Json)
    requires Meaning(a) == Meaning(b)
    ensures Meaning(Strip(a)) == Meaning(Strip(b))
  {
    match a
    case Array(items) =>
      ItemsMapped(items);
      ItemsMapped(b.items);
      ItemsMapped(StripItems(items));
      ItemsMapped(StripItems(b.items));
      forall i | 0 <= i < |items|
        ensures MeaningOfItems(StripItems(items))[i] == MeaningOfItems(StripItems(b.items))[i]
      {
        assert MeaningOfItems(items)[i] == MeaningOfItems(b.items)[i];
        StripContent(items[i], b.items[i]);
      }
    case Object(members) =>
      forall i, j
        | 0 <= i < |members| && 0 <= j < |b.members| && Meaning(members[i].value) == Meaning(b.members[j].value)
        ensures Meaning(Strip(members[i].value)) == Meaning(Strip(b.members[j].value))
      {
        StripContent(members[i].value, b.members[j].value);
      }
      StripMembersContent(members, b.members);
    case _ =>
  }

  lemma StripMembersContent(a: seq<Member>, b: seq<Member>)
    requires MeaningOfMembers(a) == MeaningOfMembers(b)
    requires forall i, j :: 0 <= i < |a| && 0 <= j < |b| && Meaning(a[i].value) == Meaning(b[j].value) ==>
      Meaning(Strip(a[i].value)) == Meaning(Strip(b[j].value))
    ensures MeaningOfMembers(StripMembers(a)) == MeaningOfMembers(StripMembers(b))
  {
    hide *;
    MeaningByKey(a);
    MeaningByKey(b);
    StrippedByKey(a);
    StrippedByKey(b);
    MeaningByKey(StripMembers(a));
    MeaningByKey(StripMembers(b));
    assert ToMap(a).Keys == ToMap(b).Keys;
    forall k | k in ToMap(a) && k != PROTO
      ensures MeaningOfMembers(StripMembers(a))[k] == MeaningOfMembers(StripMembers(b))[k]
    {
      var i := MapFinds(a, k);
      var j := MapFinds(b, k);
      assert Meaning(a[i].value) == Meaning(b[j].value);
    }
    assert MeaningOfMembers(StripMembers(a)).Keys == MeaningOfMembers(StripMembers(b)).Keys;
  }

  lemma NextContent(a: seq<Member>, b: seq<Member>, keep: set<string>)
    requires Distinct(a) && Distinct(b) && MeaningOfMembers(a) == MeaningOfMembers(b)
    ensures MeaningOfMembers(NextBuild(a, keep)) == MeaningOfMembers(NextBuild(b, keep))
  {
    NextBuildHolds(a, keep);
    NextBuildHolds(b, keep);
    MeaningByKey(a);
    MeaningByKey(b);
    MeaningByKey(NextBuild(a, keep));
    MeaningByKey(NextBuild(b, keep));
    hide ToMap, Meaning, MeaningOfMembers, NextBuild, Distinct, Enumerated;
    assert ToMap(a).Keys == ToMap(b).Keys;
    assert MeaningOfMembers(NextBuild(a, keep)).Keys == MeaningOfMembers(NextBuild(b, keep)).Keys;
  }

  lemma PutContent(members: seq<Member>, key: string, value: Json)
    ensures MeaningOfMembers(Put(members, key, value)) == MeaningOfMembers(members)[key := Meaning(value)]
  {
    PutOnMap(members, key, value);
    MeaningByKey(members);
    MeaningByKey(Put(members, key, value));
  }

  lemma CanonicalContent(texts: Texts, a: Json, b: Json, appEnv: string)
    requires ReadsContent(texts) && Valid(a) && Valid(b) && Meaning(a) == Meaning(b)
    ensures Meaning(CanonicalEas(texts, a, appEnv)) == Meaning(CanonicalEas(texts, b, appEnv))
  {
    FieldContent(a, b, "build");
    if HasBuild(a) {
      FieldContent(Field(a, "build").value, Field(b, "build").value, "");
      EntryContent(Field(a, "build").value, Field(b, "build").value);
      var x, y := BuildOf(a), BuildOf(b);
      BuildIsDistinct(a);
      BuildIsDistinct(b);
      ProfilesContent(texts, x, y);
      var keep := Kept(ReadProfiles(texts, x), appEnv);
      NextContent(x, y, keep);
      PutContent(a.members, "build", Object(NextBuild(x, keep)));
      PutContent(b.members, "build", Object(NextBuild(y, keep)));
    } else if Field(b, "build").Some? {
      FieldContent(Field(a, "build").value, Field(b, "build").value, "");
    }
  }

  lemma {:induction false} PutMembers(members: seq<Member>, key: string, value: Json)
    requires Valid(value) && forall i :: 0 <= i < |members| ==> Valid(members[i].value)
    ensures var put := Put(members, key, value); forall i :: 0 <= i < |put| ==> Valid(put[i].value)
  {
    if members != [] && members[0].key != key {
      PutMembers(members[1..], key, value);
      var put := Put(members, key, value);
      forall i | 0 <= i < |put| ensures Valid(put[i].value) {
        assert put[i] == if i == 0 then members[0] else Put(members[1..], key, value)[i - 1];
      }
    } else {
      var put := Put(members, key, value);
      forall i | 0 <= i < |put| ensures Valid(put[i].value) {
        assert i > 0 ==> put[i] == members[i];
      }
    }
  }

  lemma PutIsValid(members: seq<Member>, key: string, value: Json)
    requires Valid(Object(members)) && Valid(value)
    ensures Valid(Object(Put(members, key, value)))
  {
    var put := Put(members, key, value);
    PutKeepsDistinct(members, key, value);
    PutMembers(members, key, value);
    assert Valid(Object(put)) <==> Distinct(put) && forall i :: 0 <= i < |put| ==> Valid(put[i].value);
  }

  lemma CanonicalEasIsValid(texts: Texts, eas: Json, appEnv: string)
    requires Valid(eas)
    ensures Valid(CanonicalEas(texts, eas, appEnv))
  {
    if HasBuild(eas) {
      var build := BuildOf(eas);
      BuildIsDistinct(eas);
      var keep := Kept(ReadProfiles(texts, build), appEnv);
      var next := NextBuild(build, keep);
      NextBuildHolds(build, keep);
      EnumeratedIsDistinct(next);
      forall i | 0 <= i < |next| ensures Valid(next[i].value) {
        DistinctValue(next, i);
        var j := MapFinds(build, next[i].key);
      }
      PutIsValid(eas.members, "build", Object(next));
    }
  }

  /** Two files with the same content, however ordered and formatted, have the same fingerprint source. */
  lemma FingerprintDependsOnContent(texts: Texts, a: Json, b: Json, appEnv: string)
    requires ReadsContent(texts) && Valid(a) && Valid(b) && Meaning(a) == Meaning(b)
    ensures Normalize(CanonicalEas(texts, a, appEnv)) == Normalize(CanonicalEas(texts, b, appEnv))
  {
    CanonicalContent(texts, a, b, appEnv);
    CanonicalEasIsValid(texts, a, appEnv);
    CanonicalEasIsValid(texts, b, appEnv);
    StripContent(CanonicalEas(texts, a, appEnv), CanonicalEas(texts, b, appEnv));
    SameTreeIffSameContent(CanonicalEas(texts, a, appEnv), CanonicalEas(texts, b, appEnv));
  }
}
