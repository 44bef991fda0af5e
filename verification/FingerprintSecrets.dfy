/**
 * Redacting the Expo configuration hides the third-party identifiers and nothing else
 * (apps/ui/fingerprint.config.js).
 */
module FingerprintSecrets {
  import opened Options
  import opened StableJson
  import opened StableJsonProofs
  import opened JsonObjects
  import opened EasContent
  import opened FingerprintHook

  /** A configuration whose `extra.app` is `app`. */
  function ConfigWith(config: seq<Member>, extra: seq<Member>, app: Json): Json {
    Object(Put(config, "extra", Object(Put(extra, "app", app))))
  }

  /** What an object says outside the redacted keys, members called `__proto__` aside at every depth. */
  function PublicContent(app: Json): map<string, Content>
    requires IsObject(app)
  {
    MeaningOfMembers(StripMembers(Entries(app))) - SECRETS
  }

  lemma RedactedConfig(config: seq<Member>, extra: seq<Member>, app: Json)
    requires IsObject(app)
    ensures Redacted(ConfigWith(config, extra, app)) ==
      ConfigWith(config, extra, Object(Without(Entries(app), SECRETS)))
  {
    var nextApp := Object(Without(Entries(app), SECRETS));
    var inner := Put(extra, "app", app);
    PutOnMap(extra, "app", app);
    PutOnMap(config, "extra", Object(inner));
    PutTwice(extra, "app", app, nextApp);
    PutTwice(config, "extra", Object(inner), Object(Put(inner, "app", nextApp)));
    hide Put, ToMap, Without, Entries;
  }

  lemma WithoutContent(members: seq<Member>, names: set<string>)
    ensures MeaningOfMembers(Without(members, names)) == MeaningOfMembers(members) - names
  {
    WithoutByKey(members, names);
    MeaningByKey(members);
    MeaningByKey(Without(members, names));
  }

  lemma {:induction false} WithoutIsPart(members: seq<Member>, names: set<string>)
    ensures forall member :: member in Without(members, names) ==> member in members
  {
    if members != [] {
      WithoutIsPart(members[1..], names);
    }
  }

  lemma WithoutIsValid(members: seq<Member>, names: set<string>)
    requires Distinct(members) && forall i :: 0 <= i < |members| ==> Valid(members[i].value)
    ensures Valid(Object(Without(members, names)))
  {
    WithoutIsDistinct(members, names);
    WithoutIsPart(members, names);
    var rest := Without(members, names);
    forall i | 0 <= i < |rest| ensures Valid(rest[i].value) {
      assert rest[i] in rest;
      var j :| 0 <= j < |members| && members[j] == rest[i];
    }
  }

  /** Stripping commutes with leaving keys out. */
  lemma {:induction false} StripWithout(members: seq<Member>, names: set<string>)
    ensures StripMembers(Without(members, names)) == Without(StripMembers(members), names)
  {
    if members != [] {
      var first, rest := members[0], members[1..];
      StripWithout(rest, names);
      var one := Member(first.key, Strip(first.value));
      assert first.key !in names ==> Without(members, names)[1..] == Without(rest, names);
      assert first.key in names ==> Without(members, names) == Without(rest, names);
      assert first.key == PROTO ==> StripMembers(members) == StripMembers(rest);
      assert first.key != PROTO ==> StripMembers(members)[1..] == StripMembers(rest);
    }
  }

  /** Stripping commutes with setting a key. */
  lemma {:induction false} StripPut(members: seq<Member>, key: string, value: Json)
    requires key != PROTO
    ensures StripMembers(Put(members, key, value)) == Put(StripMembers(members), key, Strip(value))
  {
    hide Strip;
    if members == [] {
      assert Put(members, key, value)[1..] == [];
    } else if members[0].key == key {
      assert Put(members, key, value)[1..] == members[1..];
      assert StripMembers(members)[1..] == StripMembers(members[1..]);
    } else {
      StripPut(members[1..], key, value);
      assert Put(members, key, value)[1..] == Put(members[1..], key, value);
      if members[0].key == PROTO {
        assert StripMembers(members) == StripMembers(members[1..]);
      } else {
        assert StripMembers(members)[1..] == StripMembers(members[1..]);
      }
    }
  }

  lemma StripConfig(config: seq<Member>, extra: seq<Member>, app: Json)
    ensures Strip(ConfigWith(config, extra, app)) == ConfigWith(StripMembers(config), StripMembers(extra), Strip(app))
  {
    StripPut(extra, "app", app);
    StripPut(config, "extra", Object(Put(extra, "app", app)));
  }

  lemma ConfigContent(config: seq<Member>, extra: seq<Member>, app: Json)
    ensures Meaning(ConfigWith(config, extra, app))
      == Record(MeaningOfMembers(config)["extra" := Record(MeaningOfMembers(extra)["app" := Meaning(app)])])
  {
    PutContent(extra, "app", app);
    PutContent(config, "extra", Object(Put(extra, "app", app)));
  }

  /**
   * Configurations have the same fingerprint source exactly if they differ at most in the redacted keys of
   * `extra.app`, the order of members and members called `__proto__`.
   */
  lemma OnlySecretsAreHidden(config: seq<Member>, extra: seq<Member>, a: Json, b: Json)
    requires Valid(Object(config)) && Valid(Object(extra)) && Valid(a) && Valid(b) && IsObject(a) && IsObject(b)
    ensures Normalize(Redacted(ConfigWith(config, extra, a))) == Normalize(Redacted(ConfigWith(config, extra, b))) <==>
      PublicContent(a) == PublicContent(b)
  {
    var nextA, nextB := Object(Without(Entries(a), SECRETS)), Object(Without(Entries(b), SECRETS));
    RedactedConfig(config, extra, a);
    RedactedConfig(config, extra, b);
    NextAppIsPublic(a);
    NextAppIsPublic(b);
    hide ConfigWith, Without, Valid, Entries, PublicContent, Normalize, Strip;
    SameConfigs(config, extra, nextA, nextB);
  }

  lemma NextAppIsPublic(app: Json)
    requires Valid(app) && IsObject(app)
    ensures var next := Object(Without(Entries(app), SECRETS));
      Valid(next) && Meaning(Strip(next)) == Record(PublicContent(app))
  {
    if app.Array? {
      PositionsAreDistinct(app.items, 0);
      PositionsHold(app.items, 0);
    }
    WithoutIsValid(Entries(app), SECRETS);
    StripWithout(Entries(app), SECRETS);
    WithoutContent(StripMembers(Entries(app)), SECRETS);
  }

  lemma SameConfigs(config: seq<Member>, extra: seq<Member>, a: Json, b: Json)
    requires Valid(Object(config)) && Valid(Object(extra)) && Valid(a) && Valid(b)
    ensures Normalize(ConfigWith(config, extra, a)) == Normalize(ConfigWith(config, extra, b)) <==>
      Meaning(Strip(a)) == Meaning(Strip(b))
  {
    var outer, inner := StripMembers(config), StripMembers(extra);
    ConfigIsValid(config, extra, a);
    ConfigIsValid(config, extra, b);
    SameTreeIffSameContent(ConfigWith(config, extra, a), ConfigWith(config, extra, b));
    StripConfig(config, extra, a);
    StripConfig(config, extra, b);
    ConfigContent(outer, inner, Strip(a));
    ConfigContent(outer, inner, Strip(b));
    hide ConfigWith, Valid, Meaning, Normalize, Strip;
    if Normalize(ConfigWith(config, extra, a)) == Normalize(ConfigWith(config, extra, b)) {
      NestedContent(MeaningOfMembers(outer), MeaningOfMembers(inner), Meaning(Strip(a)), Meaning(Strip(b)));
    }
  }

  lemma NestedContent(config: map<string, Content>, extra: map<string, Content>, a: Content, b: Content)
    requires config["extra" := Record(extra["app" := a])] == config["extra" := Record(extra["app" := b])]
    ensures a == b
  {
    assert config["extra" := Record(extra["app" := a])]["extra"] == Record(extra["app" := a]);
    assert config["extra" := Record(extra["app" := b])]["extra"] == Record(extra["app" := b]);
    assert extra["app" := a]["app"] == a && extra["app" := b]["app"] == b;
  }

  lemma ConfigIsValid(config: seq<Member>, extra: seq<Member>, app: Json)
    requires Valid(Object(config)) && Valid(Object(extra)) && Valid(app)
    ensures Valid(ConfigWith(config, extra, app))
  {
    hide Valid, Put;
    PutIsValid(extra, "app", app);
    PutIsValid(config, "extra", Object(Put(extra, "app", app)));
  }

  /**
   * Exactly these four keys of `extra.app` are left out, and nothing else changes; without an object there, nothing
   * does.
   */
  lemma FourKeysLeftOut(config: Json, key: string, k: string)
    ensures var extra := Field(config, "extra");
      var app := if extra.Some? then Field(extra.value, "app") else None;
      var next := Redacted(config);
      if app.Some? && (app.value.Object? || app.value.Array?) then
        var nextExtra := Field(next, "extra");
        && nextExtra.Some? && Field(nextExtra.value, "app").Some?
        && (key != "extra" ==> Field(next, key) == Field(config, key))
        && (key != "app" ==> Field(nextExtra.value, key) == Field(extra.value, key))
        && Field(Field(nextExtra.value, "app").value, k) == (
            if k in {"postHogKey", "revenueCatAppleKey", "revenueCatGoogleKey", "revenueCatStripeKey"} then None
            else if app.value.Object? then Field(app.value, k)
            else Field(Object(Indexed(app.value.items, 0)), k))
      else next == config
  {
    var extra := Field(config, "extra");
    var app := if extra.Some? then Field(extra.value, "app") else None;
    if app.Some? && IsObject(app.value) {
      var nextApp := Object(Without(Entries(app.value), SECRETS));
      WithoutByKey(Entries(app.value), SECRETS);
      PutOnMap(extra.value.members, "app", nextApp);
      PutOnMap(config.members, "extra", Object(Put(extra.value.members, "app", nextApp)));
      hide Put, Without, Indexed, ToMap;
    }
  }
}
