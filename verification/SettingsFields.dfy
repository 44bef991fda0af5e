/** What migrating, reading and writing settings.json does to each field (apps/cli/src/persistence.ts). */
module SettingsFields {
  import opened Options
  import opened JsText
  import opened StableJson
  import opened JsonObjects
  import opened SettingsMigration

  // ----- addresses -----

  predicate AllSlashes(s: string) {
    forall i :: 0 <= i < |s| ==> s[i] == '/'
  }

  lemma {:induction false} SlashesAreStripped(s: string) returns (slashes: string)
    ensures s == StripSlashes(s) + slashes && AllSlashes(slashes)
    ensures StripSlashes(s) == "" || StripSlashes(s)[|StripSlashes(s)| - 1] != '/'
  {
    slashes := "";
    if s != "" && s[|s| - 1] == '/' {
      var fewer := SlashesAreStripped(s[..|s| - 1]);
      slashes := fewer + "/";
      assert s == s[..|s| - 1] + [s[|s| - 1]];
    }
  }

  /** Normalizing an address takes white space off both ends and then all slashes off the end, and nothing else. */
  lemma AddressNormalized(host: Host, v: Json, key: string)
      returns (lead: string, slashes: string, tail: string)
    ensures var text := if Field(v, key) in {None, Some(Null)} then "" else host.shown(Field(v, key).value);
      var url := UrlField(host, v, key);
      && text == lead + (url + slashes) + tail && Trimmed(url + slashes)
      && AllBlank(lead) && AllBlank(tail) && AllSlashes(slashes) && (url == "" || url[|url| - 1] != '/')
  {
    var text := TextOr(host.shown, Field(v, key));
    lead, tail := TrimTakesBlanks(text);
    slashes := SlashesAreStripped(Trim(text));
  }

  // ----- migrating -----

  /** The servers of settings that had none: the cloud server alone. */
  function OnlyCloud(now: real): Json {
    Object([Member("cloud", Object([
      Member("id", Text("cloud")), Member("name", Text("Happier Cloud")),
      Member("serverUrl", Text("https://api.happier.dev")), Member("webappUrl", Text("https://app.happier.dev")),
      Member("createdAt", Number(now)), Member("updatedAt", Number(now)), Member("lastUsedAt", Number(now))]))])
  }

  lemma EarlierStages(settings: seq<Member>, version: Option<real>)
    ensures var v3 := if Older(version, 3.0) then WithoutEnvironmentCache(settings) else settings;
      var v4 := if Older(version, 4.0) then WithoutLocalProfiles(v3) else v3;
      var before, after := Object(settings), Object(v4);
      && Field(after, "localEnvironmentVariables")
        == (if Older(version, 3.0) then None else Field(before, "localEnvironmentVariables"))
      && Field(after, "profiles") == (if Older(version, 4.0) then None else Field(before, "profiles"))
      && Field(after, "activeProfileId") == (if Older(version, 4.0) then None else Field(before, "activeProfileId"))
      && forall k :: k !in Earlier() && k != "schemaVersion" ==> Field(after, k) == Field(before, k)
  {
    hide Put, Without, Field;
    WithoutField(settings, {"localEnvironmentVariables"});
    PutField(Without(settings, {"localEnvironmentVariables"}), "schemaVersion", Number(3.0));
    var v3 := if Older(version, 3.0) then WithoutEnvironmentCache(settings) else settings;
    WithoutField(v3, {"profiles", "activeProfileId"});
    PutField(Without(v3, {"profiles", "activeProfileId"}), "schemaVersion", Number(4.0));
  }

  lemma NotThere(members: seq<Member>, key: string)
    requires forall i :: 0 <= i < |members| ==> members[i].key != key
    ensures key !in ToMap(members)
  {
    if key in ToMap(members) {
      var i := MapFinds(members, key);
    }
  }

  lemma CloudStays(host: Host, now: real)
    requires Ordinary(host)
    ensures MigratedServers(host, ForCloud(CloudServer(now))) == OnlyCloud(now)
  {
    var cloud := CloudServer(now);
    NotThere(cloud.members, "publicServerUrl");
    assert UrlField(host, cloud, "publicServerUrl") == "";
    WithoutAbsent(cloud.members, {"publicServerUrl"});
  }

  /** The keys that the stages from version 5 on set, move or remove. */
  function Later(): set<string> {
    DERIVED + MOVED + {"schemaVersion", "activeServerId", "servers"}
  }

  function Earlier(): set<string> {
    {"localEnvironmentVariables", "profiles", "activeProfileId"}
  }

  lemma EarlierIsNotLater()
    ensures Earlier() !! Later() && DERIVED !! {"schemaVersion"}
    ensures DERIVED <= Later() && {"schemaVersion", "activeServerId", "servers"} <= Later() && MOVED <= Later()
  {
  }

  /** The last two stages, for settings from before version 5. */
  lemma LastStages(host: Host, settings: seq<Member>, now: real)
    requires Ordinary(host)
    ensures var before, after := Object(settings), Object(WithCanonicalUrls(host, WithServers(settings, now)));
      && Field(after, "schemaVersion") == Some(Number(6.0))
      && Field(after, "servers") == Some(OnlyCloud(now))
      && Field(after, "activeServerId") == Some(Text("cloud"))
      && Field(after, "machineIdByServerId") == Some(MachineIds(Field(before, "machineId")))
      && Field(after, "machineIdConfirmedByServerByServerId") ==
        Some(Confirmations(Field(before, "machineIdConfirmedByServer")))
      && Field(after, "lastChangesCursorByServerIdByAccountId") ==
        Some(Cursors(Field(before, "lastChangesCursorByAccountId")))
      && (forall k :: k in DERIVED ==> Field(after, k) == None)
      && forall k :: k !in Later() ==> Field(after, k) == Field(before, k)
  {
    FifthStageFields(settings, now);
    SixthStageFields(host, WithServers(settings, now));
    CloudStays(host, now);
    hide WithServers, WithCanonicalUrls, Field, MigratedServers, CloudServer, OnlyCloud, MachineIds, Confirmations,
      Cursors, Ordinary;
  }

  lemma AllNamed()
    ensures Later() + Earlier() == {"schemaVersion", "servers", "activeServerId", "machineId", "machineIdByServerId",
      "machineIdConfirmedByServer", "machineIdConfirmedByServerByServerId", "lastChangesCursorByAccountId",
      "lastChangesCursorByServerIdByAccountId", "profiles", "activeProfileId", "localEnvironmentVariables"}
  {
  }

  /** The fields that only the stages up to version 4 touch, and those that no stage touches. */
  lemma EarlierFields(host: Host, raw: seq<Member>, now: real, version: real)
    requires Ordinary(host) && version < 6.0
    ensures var before, after := Object(raw), Object(Migrated(host, raw, Some(version), now));
      && Field(after, "localEnvironmentVariables")
        == (if version < 3.0 then None else Field(before, "localEnvironmentVariables"))
      && Field(after, "profiles") == (if version < 4.0 then None else Field(before, "profiles"))
      && Field(after, "activeProfileId") == (if version < 4.0 then None else Field(before, "activeProfileId"))
      && forall k :: k !in Later() + Earlier() ==> Field(after, k) == Field(before, k)
  {
    var v3 := if version < 3.0 then WithoutEnvironmentCache(raw) else raw;
    var v4 := if version < 4.0 then WithoutLocalProfiles(v3) else v3;
    EarlierIsNotLater();
    assert forall k :: k !in Later() ==> k != "schemaVersion" && k != "servers";
    assert Earlier() == {"localEnvironmentVariables", "profiles", "activeProfileId"};
    hide Later, Earlier, WithServers, WithCanonicalUrls, WithoutEnvironmentCache, WithoutLocalProfiles, Field,
      MigratedServers, OnlyCloud, MachineIds, Confirmations, Cursors, Ordinary;
    EarlierStages(raw, Some(version));
    if version < 5.0 {
      LastStages(host, v4, now);
    } else {
      SixthStageFields(host, raw);
    }
  }

  lemma ServersMoved(host: Host, raw: seq<Member>, now: real, version: real)
    requires Ordinary(host) && version < 5.0
    ensures var before, after := Object(raw), Object(Migrated(host, raw, Some(version), now));
      && Field(after, "schemaVersion") == Some(Number(6.0))
      && Field(after, "servers") == Some(OnlyCloud(now))
      && Field(after, "activeServerId") == Some(Text("cloud"))
      && Field(after, "machineIdByServerId") == Some(MachineIds(Field(before, "machineId")))
      && Field(after, "machineIdConfirmedByServerByServerId") ==
        Some(Confirmations(Field(before, "machineIdConfirmedByServer")))
      && Field(after, "lastChangesCursorByServerIdByAccountId") ==
        Some(Cursors(Field(before, "lastChangesCursorByAccountId")))
      && Field(after, "machineId") == None
      && Field(after, "machineIdConfirmedByServer") == None
      && Field(after, "lastChangesCursorByAccountId") == None
  {
    var v3 := if version < 3.0 then WithoutEnvironmentCache(raw) else raw;
    var v4 := if version < 4.0 then WithoutLocalProfiles(v3) else v3;
    EarlierIsNotLater();
    assert DERIVED == {"machineId", "machineIdConfirmedByServer", "lastChangesCursorByAccountId"};
    assert forall k :: k in DERIVED ==> k !in Earlier() && k != "schemaVersion";
    assert "machineId" in DERIVED && "machineIdConfirmedByServer" in DERIVED
      && "lastChangesCursorByAccountId" in DERIVED;
    hide Later, Earlier, WithServers, WithCanonicalUrls, WithoutEnvironmentCache, WithoutLocalProfiles, Field,
      MigratedServers, OnlyCloud, MachineIds, Confirmations, Cursors, Ordinary;
    EarlierStages(raw, Some(version));
    LastStages(host, v4, now);
  }

  lemma ServersRewritten(host: Host, raw: seq<Member>, now: real, version: real)
    requires 5.0 <= version < 6.0
    ensures var before, after := Object(raw), Object(Migrated(host, raw, Some(version), now));
      && Field(after, "schemaVersion") == Some(Number(6.0))
      && Field(after, "servers") == (
          if Field(before, "servers").Some? then Some(MigratedServers(host, Field(before, "servers").value)) else None)
      && forall k :: k != "schemaVersion" && k != "servers" ==> Field(after, k) == Field(before, k)
  {
    SixthStageFields(host, raw);
    hide WithCanonicalUrls, Field, MigratedServers;
  }

  /**
   * What survives the migration to version 6, field by field, for settings of every older version. Every key that is
   * not named here reads as it did.
   */
  lemma MigratedFieldByField(host: Host, raw: seq<Member>, now: real, version: real)
    requires Ordinary(host) && version < 6.0
    ensures var before, after := Object(raw), Object(Migrated(host, raw, Some(version), now));
      var id, confirmed, cursor :=
        Field(before, "machineId"),
        Field(before, "machineIdConfirmedByServer"),
        Field(before, "lastChangesCursorByAccountId");
      && Field(after, "schemaVersion") == Some(Number(6.0))
      && Field(after, "localEnvironmentVariables")
        == (if version < 3.0 then None else Field(before, "localEnvironmentVariables"))
      && Field(after, "profiles") == (if version < 4.0 then None else Field(before, "profiles"))
      && Field(after, "activeProfileId") == (if version < 4.0 then None else Field(before, "activeProfileId"))
      && (version < 5.0 ==>
        && Field(after, "activeServerId") == Some(Text("cloud"))
        && Field(after, "servers") == Some(OnlyCloud(now))
        && Field(after, "machineIdByServerId") == Some(Object(
            if id.Some? && id.value.Text? && Trim(id.value.text) != "" then
              [Member("cloud", Text(Trim(id.value.text)))]
            else []))
        && Field(after, "machineIdConfirmedByServerByServerId") == Some(Object(
            if confirmed.Some? && confirmed.value.Bool? then [Member("cloud", confirmed.value)] else []))
        && Field(after, "lastChangesCursorByServerIdByAccountId") == Some(Object([Member("cloud",
            if cursor.Some? && (cursor.value.Object? || cursor.value.Array?) then cursor.value else Object([]))]))
        && Field(after, "machineId") == None && Field(after, "machineIdConfirmedByServer") == None
        && Field(after, "lastChangesCursorByAccountId") == None)
      && (version >= 5.0 ==>
        && Field(after, "servers") == (
            if Field(before, "servers").Some? then Some(MigratedServers(host, Field(before, "servers").value))
            else None)
        && forall k :: k != "schemaVersion" && k != "servers" ==> Field(after, k) == Field(before, k))
      && forall k | k !in {"schemaVersion", "servers", "activeServerId", "machineId", "machineIdByServerId",
            "machineIdConfirmedByServer", "machineIdConfirmedByServerByServerId", "lastChangesCursorByAccountId",
            "lastChangesCursorByServerIdByAccountId", "profiles", "activeProfileId", "localEnvironmentVariables"} ::
          Field(after, k) == Field(before, k)
  {
    AllNamed();
    hide Later, Earlier, Migrated, Field, MigratedServers, OnlyCloud, Ordinary;
    EarlierFields(host, raw, now, version);
    if version < 5.0 {
      ServersMoved(host, raw, now, version);
    } else {
      ServersRewritten(host, raw, now, version);
    }
  }

  /** The version that settings are migrated from: none counts as 1. */
  lemma VersionIsRead(host: Host, raw: Json)
    ensures var stored := Field(raw, "schemaVersion");
      VersionOf(host, raw) == if stored in {None, Some(Null)} then Some(1.0) else host.number(stored.value)
  {
  }

  /** Settings of version 6 or later, and those whose version is no number, stay as they are. */
  lemma NewerStays(host: Host, raw: seq<Member>, now: real)
    requires var stored := Field(Object(raw), "schemaVersion");
      stored !in {None, Some(Null)} && (host.number(stored.value).Some? ==> host.number(stored.value).value >= 6.0)
    ensures Migrated(host, raw, VersionOf(host, Object(raw)), now) == raw
  {
  }

  /** The server records are migrated one by one, in place. */
  lemma ServersByEntry(host: Host, servers: Json)
    ensures servers.Object? ==>
      var after := MigratedServers(host, servers);
      && after.Object? && |after.members| == |servers.members|
      && forall i :: 0 <= i < |servers.members| ==>
        after.members[i] == Member(servers.members[i].key, MigratedServer(host, servers.members[i].value))
    ensures servers.Array? ==>
      var after := MigratedServers(host, servers);
      && after.Array? && |after.items| == |servers.items|
      && forall i :: 0 <= i < |servers.items| ==> after.items[i] == MigratedServer(host, servers.items[i])
    ensures !servers.Object? && !servers.Array? ==> MigratedServers(host, servers) == servers
    ensures forall server: Json :: !server.Object? ==> MigratedServer(host, server) == server
  {
  }

  // ----- reading and writing -----

  /** What reading derives, field by field: three single-server fields, from what is stored for the active server. */
  lemma DerivedFieldByField(settings: seq<Member>, serverId: string, machineId: Option<string>)
    ensures var before, after := Object(settings), Object(Derived(settings, serverId, machineId));
      var confirmations := Field(before, "machineIdConfirmedByServerByServerId");
      var cursors := Field(before, "lastChangesCursorByServerIdByAccountId");
      var confirmed := if confirmations.Some? then Field(confirmations.value, serverId) else None;
      var cursor := if cursors.Some? then Field(cursors.value, serverId) else None;
      && Field(after, "machineId")
        == (
          if machineId.Some? && machineId.value != "" then Some(Text(machineId.value))
          else Field(before, "machineId"))
      && Field(after, "machineIdConfirmedByServer")
        == (if confirmed.Some? && confirmed.value.Bool? then confirmed else Field(before, "machineIdConfirmedByServer"))
      && Field(after, "lastChangesCursorByAccountId") == (
          if cursor.Some? && (cursor.value.Object? || cursor.value.Array?) then cursor
          else Field(before, "lastChangesCursorByAccountId"))
      && forall k | k !in {"machineId", "machineIdConfirmedByServer", "lastChangesCursorByAccountId"} ::
          Field(after, k) == Field(before, k)
  {
    DerivedFields(settings, serverId, machineId);
    hide Derived, Field, PutIf;
    DerivedMachineId(settings, serverId, machineId);
  }

  lemma DerivedMachineId(settings: seq<Member>, serverId: string, machineId: Option<string>)
    ensures Field(Object(Derived(settings, serverId, machineId)), "machineId") ==
      if machineId.Some? && machineId.value != "" then Some(Text(machineId.value))
      else Field(Object(settings), "machineId")
  {
    hide PutIf, Field;
    var withId := PutIf(settings, "machineId", ShownId(machineId));
    PutIfField(settings, "machineId", ShownId(machineId));
    PutIfField(withId, "machineIdConfirmedByServer", ShownConfirmation(withId, serverId));
    var withConfirmation := PutIf(withId, "machineIdConfirmedByServer", ShownConfirmation(withId, serverId));
    PutIfField(withConfirmation, "lastChangesCursorByAccountId", ShownCursor(withConfirmation, serverId));
  }

  /** What reaches the disk: everything before version 5, and from then on all but the derived fields. */
  lemma WrittenFieldByField(host: Host, settings: seq<Member>)
    ensures var before, after := Object(settings), Object(Serialized(host, settings));
      var version := Field(before, "schemaVersion");
      var number := if version in {None, Some(Null)} then Some(6.0) else host.number(version.value);
      if number.Some? && number.value < 5.0 then Serialized(host, settings) == settings
      else
        && Field(after, "machineId") == None && Field(after, "machineIdConfirmedByServer") == None
        && Field(after, "lastChangesCursorByAccountId") == None
        && forall k | k !in {"machineId", "machineIdConfirmedByServer", "lastChangesCursorByAccountId"} ::
            Field(after, k) == Field(before, k)
  {
    WithoutField(settings, DERIVED);
    assert DERIVED == {"machineId", "machineIdConfirmedByServer", "lastChangesCursorByAccountId"};
    hide Without, Field;
  }
}
