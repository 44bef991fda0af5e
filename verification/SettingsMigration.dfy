/**
 * The staged migration of settings.json (migrateSettings and serializeSettingsForDisk in
 * apps/cli/src/persistence.ts).
 */
module SettingsMigration {
  import opened Options
  import opened JsText
  import opened StableJson
  import opened JsonObjects

  /**
   * `String(x)`, `Number(x)` where that is finite, the making of server ids, and the test for device-local
   * addresses.
   */
  datatype Host = Host(
    shown: Json -> string,
    number: Json -> Option<real>,
    serverId: Json -> string,
    localish: string -> bool)

  const CLOUD := "cloud"

  function StripSlashes(s: string): string {
    if s != "" && s[|s| - 1] == '/' then StripSlashes(s[..|s| - 1]) else s
  }

  function NormalizeUrl(s: string): string {
    StripSlashes(Trim(s))
  }

  function UrlField(host: Host, v: Json, key: string): string {
    NormalizeUrl(TextOr(host.shown, Field(v, key)))
  }

  /** The version settings are migrated from; None compares like NaN. */
  function VersionOf(host: Host, raw: Json): Option<real> {
    match Field(raw, "schemaVersion")
    case None => Some(1.0)
    case Some(v) => if v.Null? then Some(1.0) else host.number(v)
  }

  predicate Older(version: Option<real>, than: real) {
    version.Some? && version.value < than
  }

  // ----- the stages -----

  function WithVersion(settings: seq<Member>, version: real): seq<Member> {
    Put(settings, "schemaVersion", Number(version))
  }

  function WithoutEnvironmentCache(settings: seq<Member>): seq<Member> {
    WithVersion(Without(settings, {"localEnvironmentVariables"}), 3.0)
  }

  function WithoutLocalProfiles(settings: seq<Member>): seq<Member> {
    WithVersion(Without(settings, {"profiles", "activeProfileId"}), 4.0)
  }

  function CloudServer(now: real): Json {
    Object([
      Member("id", Text(CLOUD)), Member("name", Text("Happier Cloud")),
      Member("serverUrl", Text("https://api.happier.dev")), Member("webappUrl", Text("https://app.happier.dev")),
      Member("createdAt", Number(now)), Member("updatedAt", Number(now)), Member("lastUsedAt", Number(now))])
  }

  function ForCloud(v: Json): Json {
    Object([Member(CLOUD, v)])
  }

  function MachineIds(machineId: Option<Json>): Json {
    if machineId.Some? && machineId.value.Text? && Trim(machineId.value.text) != "" then
      ForCloud(Text(Trim(machineId.value.text)))
    else Object([])
  }

  function Confirmations(confirmed: Option<Json>): Json {
    if confirmed.Some? && confirmed.value.Bool? then ForCloud(confirmed.value) else Object([])
  }

  function Cursors(cursor: Option<Json>): Json {
    ForCloud(if cursor.Some? && IsObject(cursor.value) then cursor.value else Object([]))
  }

  const DERIVED := {"machineId", "machineIdConfirmedByServer", "lastChangesCursorByAccountId"}

  /** Single-server state moves under the id of the cloud server. */
  function WithServers(settings: seq<Member>, now: real): seq<Member> {
    var old0 := Put(Put(settings, "activeServerId", Text(CLOUD)), "servers", ForCloud(CloudServer(now)));
    var old1 := Put(old0, "machineIdByServerId", MachineIds(Field(Object(old0), "machineId")));
    var old2 := Put(old1, "machineIdConfirmedByServerByServerId",
      Confirmations(Field(Object(old1), "machineIdConfirmedByServer")));
    var old3 := Put(old2, "lastChangesCursorByServerIdByAccountId",
      Cursors(Field(Object(old2), "lastChangesCursorByAccountId")));
    WithVersion(Without(old3, DERIVED), 5.0)
  }

  /** A differing public address becomes the canonical one, and a device-local canonical one the local one. */
  function MigratedServer(host: Host, server: Json): Json {
    if !server.Object? then server
    else
      var url, public := UrlField(host, server, "serverUrl"), UrlField(host, server, "publicServerUrl");
      var moved :=
        if public == "" || public == url then server.members
        else
          var canonical := Put(server.members, "serverUrl", Text(public));
          if url != "" && host.localish(url) then Put(canonical, "localServerUrl", Text(url)) else canonical;
      Object(Without(moved, {"publicServerUrl"}))
  }

  function MigratedMembers(host: Host, servers: seq<Member>): seq<Member> {
    seq(|servers|, i requires 0 <= i < |servers| => Member(servers[i].key, MigratedServer(host, servers[i].value)))
  }

  function MigratedServers(host: Host, servers: Json): Json {
    match servers
    case Object(members) => Object(MigratedMembers(host, members))
    case Array(items) => Array(seq(|items|, i requires 0 <= i < |items| => MigratedServer(host, items[i])))
    case _ => servers
  }

  function WithCanonicalUrls(host: Host, settings: seq<Member>): seq<Member> {
    var servers := Field(Object(settings), "servers");
    WithVersion(if servers.Some? then Put(settings, "servers", MigratedServers(host, servers.value)) else settings, 6.0)
  }

  /** The stages up to version 5. */
  function Earlier(raw: seq<Member>, version: Option<real>, now: real): seq<Member> {
    var v3 := if Older(version, 3.0) then WithoutEnvironmentCache(raw) else raw;
    var v4 := if Older(version, 4.0) then WithoutLocalProfiles(v3) else v3;
    if Older(version, 5.0) then WithServers(v4, now) else v4
  }

  function Migrated(host: Host, raw: seq<Member>, version: Option<real>, now: real): seq<Member> {
    if Older(version, 6.0) then WithCanonicalUrls(host, Earlier(raw, version, now)) else raw
  }

  /** The server records, one after the other. */
  method MigrateServers(host: Host, servers: Json) returns (migrated: Json)
    ensures migrated == MigratedServers(host, servers)
  {
    migrated := servers;
    if servers.Object? {
      var members := servers.members;
      for i := 0 to |members|
        invariant |members| == |servers.members|
        invariant forall j :: 0 <= j < i ==> members[j] == MigratedMembers(host, servers.members)[j]
        invariant forall j :: i <= j < |members| ==> members[j] == servers.members[j]
      {
        var server := MigrateServer(host, members[i].value);
        members := members[i := Member(members[i].key, server)];
      }
      migrated := Object(members);
    } else if servers.Array? {
      var items := servers.items;
      for i := 0 to |items|
        invariant |items| == |servers.items|
        invariant forall j :: 0 <= j < i ==> items[j] == MigratedServer(host, servers.items[j])
        invariant forall j :: i <= j < |items| ==> items[j] == servers.items[j]
      {
        var server := MigrateServer(host, items[i]);
        items := items[i := server];
      }
      migrated := Array(items);
    }
  }

  method MigrateServer(host: Host, server: Json) returns (migrated: Json)
    ensures migrated == MigratedServer(host, server)
  {
    if !server.Object? {
      return server;
    }
    var value := server.members;
    var serverUrl := UrlField(host, server, "serverUrl");
    var publicServerUrl := UrlField(host, server, "publicServerUrl");
    if publicServerUrl != "" && publicServerUrl != serverUrl {
      value := Put(value, "serverUrl", Text(publicServerUrl));
      if serverUrl != "" && host.localish(serverUrl) {
        value := Put(value, "localServerUrl", Text(serverUrl));
      }
    }
    value := Without(value, {"publicServerUrl"});
    migrated := Object(value);
  }

  method MigrateSettings(host: Host, raw: seq<Member>, fromVersion: Option<real>,
          now: real) returns (migrated: seq<Member>)
    ensures migrated == Migrated(host, raw, fromVersion, now)
  {
    migrated := raw;
    if Older(fromVersion, 3.0) {
      migrated := Put(Without(migrated, {"localEnvironmentVariables"}), "schemaVersion", Number(3.0));
    }
    if Older(fromVersion, 4.0) {
      migrated := Put(Without(migrated, {"profiles", "activeProfileId"}), "schemaVersion", Number(4.0));
    }
    if Older(fromVersion, 5.0) {
      migrated := MoveToCloud(migrated, now);
    }
    if Older(fromVersion, 6.0) {
      var servers := Field(Object(migrated), "servers");
      if servers.Some? {
        var updated := MigrateServers(host, servers.value);
        migrated := Put(migrated, "servers", updated);
      }
      migrated := Put(migrated, "schemaVersion", Number(6.0));
    }
  }

  /** Single-server fields are read, copied under the cloud id, and only then removed. */
  method MoveToCloud(settings: seq<Member>, now: real) returns (migrated: seq<Member>)
    ensures migrated == WithServers(settings, now)
  {
    migrated := Put(settings, "activeServerId", Text(CLOUD));
    migrated := Put(migrated, "servers", ForCloud(CloudServer(now)));
    var machineId := Field(Object(migrated), "machineId");
    migrated := Put(migrated, "machineIdByServerId", MachineIds(machineId));
    var confirmed := Field(Object(migrated), "machineIdConfirmedByServer");
    migrated := Put(migrated, "machineIdConfirmedByServerByServerId", Confirmations(confirmed));
    var cursor := Field(Object(migrated), "lastChangesCursorByAccountId");
    migrated := Put(migrated, "lastChangesCursorByServerIdByAccountId", Cursors(cursor));
    migrated := Without(migrated, {"machineId", "machineIdConfirmedByServer", "lastChangesCursorByAccountId"});
    migrated := Put(migrated, "schemaVersion", Number(5.0));
  }

  // ----- where migration ends -----

  /** What JavaScript's conversions do to strings and numbers. */
  ghost predicate Ordinary(host: Host) {
    (forall s :: host.shown(Text(s)) == s) && (forall r :: host.number(Number(r)) == Some(r))
  }

  lemma PutField(settings: seq<Member>, key: string, value: Json)
    ensures Field(Object(Put(settings, key, value)), key) == Some(value)
    ensures forall k :: k != key ==> Field(Object(Put(settings, key, value)), k) == Field(Object(settings), k)
  {
    PutOnMap(settings, key, value);
  }

  lemma WithoutField(settings: seq<Member>, names: set<string>)
    ensures forall k ::
      Field(Object(Without(settings, names)), k) == if k in names then None else Field(Object(settings), k)
  {
    WithoutByKey(settings, names);
  }

  /** Settings of any version up to 6 end at 6; newer ones, and those whose version is no number, are left alone. */
  lemma EndsAtSix(host: Host, raw: seq<Member>, now: real)
    requires Ordinary(host)
    ensures var version := VersionOf(host, Object(raw));
      var result := Migrated(host, raw, version, now);
      if version.Some? && version.value <= 6.0 then VersionOf(host, Object(result)) == Some(6.0) else result == raw
  {
    hide WithCanonicalUrls, Earlier;
    var version := VersionOf(host, Object(raw));
    if Older(version, 6.0) {
      SixthStageFields(host, Earlier(raw, version, now));
    }
  }

  /** The last stage sets the version and rewrites the servers; it touches nothing else. */
  lemma SixthStageFields(host: Host, settings: seq<Member>)
    ensures var result := WithCanonicalUrls(host, settings);
      && Field(Object(result), "schemaVersion") == Some(Number(6.0))
      && (Field(Object(settings), "servers") == None ==> Field(Object(result), "servers") == None)
      && (Field(Object(settings), "servers").Some? ==>
        Field(Object(result), "servers") == Some(MigratedServers(host, Field(Object(settings), "servers").value)))
      && forall k :: k != "schemaVersion" && k != "servers" ==> Field(Object(result), k) == Field(Object(settings), k)
  {
    var servers := Field(Object(settings), "servers");
    var inner := if servers.Some? then Put(settings, "servers", MigratedServers(host, servers.value)) else settings;
    if servers.Some? {
      PutField(settings, "servers", MigratedServers(host, servers.value));
    }
    PutField(inner, "schemaVersion", Number(6.0));
  }

  lemma {:induction false} WithoutAbsent(members: seq<Member>, names: set<string>)
    requires forall k :: k in names ==> k !in ToMap(members)
    ensures Without(members, names) == members
  {
    if members != [] {
      WithoutAbsent(members[1..], names);
    }
  }

  /** A migrated server has no public address left, so migrating it again changes nothing. */
  lemma ServerTwice(host: Host, server: Json)
    ensures MigratedServer(host, MigratedServer(host, server)) == MigratedServer(host, server)
  {
    if server.Object? {
      var once := MigratedServer(host, server).members;
      WithoutGone(host, server);
      WithoutAbsent(once, {"publicServerUrl"});
      assert UrlField(host, Object(once), "publicServerUrl") == "";
    }
  }

  lemma WithoutGone(host: Host, server: Json)
    ensures Field(MigratedServer(host, server), "publicServerUrl") == None
  {
    if server.Object? {
      var url, public := UrlField(host, server, "serverUrl"), UrlField(host, server, "publicServerUrl");
      var canonical := Put(server.members, "serverUrl", Text(public));
      WithoutField(server.members, {"publicServerUrl"});
      WithoutField(canonical, {"publicServerUrl"});
      WithoutField(Put(canonical, "localServerUrl", Text(url)), {"publicServerUrl"});
    }
  }

  lemma ServersTwice(host: Host, servers: Json)
    ensures MigratedServers(host, MigratedServers(host, servers)) == MigratedServers(host, servers)
  {
    var once := MigratedServers(host, servers);
    match servers
    case Object(members) =>
      forall i | 0 <= i < |members| ensures MigratedMembers(host, once.members)[i] == once.members[i] {
        ServerTwice(host, members[i].value);
      }
      assert MigratedMembers(host, once.members) == once.members;
    case Array(items) =>
      forall i | 0 <= i < |items| ensures MigratedServer(host, once.items[i]) == once.items[i] {
        ServerTwice(host, items[i]);
      }
      assert MigratedServers(host, once) == once;
    case _ =>
  }

  /** Re-running the last stage on its own output changes nothing. */
  lemma LastStageTwice(host: Host, settings: seq<Member>)
    ensures WithCanonicalUrls(host, WithCanonicalUrls(host, settings)) == WithCanonicalUrls(host, settings)
  {
    var once := WithCanonicalUrls(host, settings);
    SixthStageFields(host, settings);
    PutSame(once, "schemaVersion");
    var servers := Field(Object(settings), "servers");
    if servers.Some? {
      ServersTwice(host, servers.value);
      PutSame(once, "servers");
    }
  }

  /** Migrated settings stay as they are when they are read again. */
  lemma MigratingAgain(host: Host, raw: seq<Member>, now: real, later: real)
    requires Ordinary(host)
    ensures var version := VersionOf(host, Object(raw));
      var once := Migrated(host, raw, version, now);
      Migrated(host, once, VersionOf(host, Object(once)), later) == once
  {
    EndsAtSix(host, raw, now);
  }

  // ----- what happens to single-server state -----

  const MOVED := {"machineIdByServerId", "machineIdConfirmedByServerByServerId",
    "lastChangesCursorByServerIdByAccountId"}

  /** The fifth stage, field by field. */
  lemma FifthStageFields(settings: seq<Member>, now: real)
    ensures var before, after := Object(settings), Object(WithServers(settings, now));
      && Field(after, "schemaVersion") == Some(Number(5.0))
      && Field(after, "activeServerId") == Some(Text(CLOUD))
      && Field(after, "servers") == Some(ForCloud(CloudServer(now)))
      && Field(after, "machineIdByServerId") == Some(MachineIds(Field(before, "machineId")))
      && Field(after, "machineIdConfirmedByServerByServerId") ==
        Some(Confirmations(Field(before, "machineIdConfirmedByServer")))
      && Field(after, "lastChangesCursorByServerIdByAccountId") ==
        Some(Cursors(Field(before, "lastChangesCursorByAccountId")))
      && (forall k :: k in DERIVED ==> Field(after, k) == None)
      && forall k :: k !in DERIVED + MOVED + {"schemaVersion", "activeServerId", "servers"} ==>
        Field(after, k) == Field(before, k)
  {
    hide CloudServer, MachineIds, Confirmations, Cursors, Field, Put, Without;
    var set0 := Put(settings, "activeServerId", Text(CLOUD));
    PutField(settings, "activeServerId", Text(CLOUD));
    var set1 := Put(set0, "servers", ForCloud(CloudServer(now)));
    PutField(set0, "servers", ForCloud(CloudServer(now)));
    var machineIds := MachineIds(Field(Object(set1), "machineId"));
    var set2 := Put(set1, "machineIdByServerId", machineIds);
    PutField(set1, "machineIdByServerId", machineIds);
    var confirmations := Confirmations(Field(Object(set2), "machineIdConfirmedByServer"));
    var set3 := Put(set2, "machineIdConfirmedByServerByServerId", confirmations);
    PutField(set2, "machineIdConfirmedByServerByServerId", confirmations);
    var cursors := Cursors(Field(Object(set3), "lastChangesCursorByAccountId"));
    var set4 := Put(set3, "lastChangesCursorByServerIdByAccountId", cursors);
    PutField(set3, "lastChangesCursorByServerIdByAccountId", cursors);
    WithoutField(set4, DERIVED);
    PutField(Without(set4, DERIVED), "schemaVersion", Number(5.0));
  }

  function PutIf(settings: seq<Member>, key: string, value: Option<Json>): seq<Member> {
    if value.Some? then Put(settings, key, value.value) else settings
  }

  function OnlyIf<T>(value: Option<T>, test: T -> bool): Option<T> {
    if value.Some? && test(value.value) then value else None
  }

  function Nested(settings: seq<Member>, key: string, inner: string): Option<Json> {
    var outer := Field(Object(settings), key);
    if outer.Some? then Field(outer.value, inner) else None
  }

  function ShownId(machineId: Option<string>): Option<Json> {
    if machineId.Some? && machineId.value != "" then Some(Text(machineId.value)) else None
  }

  function ShownConfirmation(settings: seq<Member>, serverId: string): Option<Json> {
    OnlyIf(Nested(settings, "machineIdConfirmedByServerByServerId", serverId), (v: Json) => v.Bool?)
  }

  function ShownCursor(settings: seq<Member>, serverId: string): Option<Json> {
    OnlyIf(Nested(settings, "lastChangesCursorByServerIdByAccountId", serverId), IsObject)
  }

  /** Reading: the fields of the active server appear under their old single-server names. */
  function Derived(settings: seq<Member>, serverId: string, machineId: Option<string>): seq<Member> {
    var withId := PutIf(settings, "machineId", ShownId(machineId));
    var withConfirmation := PutIf(withId, "machineIdConfirmedByServer", ShownConfirmation(withId, serverId));
    PutIf(withConfirmation, "lastChangesCursorByAccountId", ShownCursor(withConfirmation, serverId))
  }

  predicate SingleServerFormat(host: Host, settings: seq<Member>) {
    var version := Field(Object(settings), "schemaVersion");
    version.Some? && !version.value.Null? && Older(host.number(version.value), 5.0)
  }

  /** Writing: derived fields are dropped from version 5 on; no version means the newest. */
  function Serialized(host: Host, settings: seq<Member>): seq<Member> {
    if SingleServerFormat(host, settings) then settings else Without(settings, DERIVED)
  }

  lemma {:induction false} WithoutPut(members: seq<Member>, key: string, value: Json, names: set<string>)
    requires key in names
    ensures Without(Put(members, key, value), names) == Without(members, names)
  {
    if members == [] {
      assert Put(members, key, value)[1..] == [];
    } else if members[0].key == key {
      assert Put(members, key, value)[1..] == members[1..];
    } else {
      WithoutPut(members[1..], key, value, names);
      assert Put(members, key, value)[1..] == Put(members[1..], key, value);
    }
  }

  lemma PutIfField(settings: seq<Member>, key: string, value: Option<Json>)
    ensures Field(Object(PutIf(settings, key, value)), key) ==
      if value.Some? then value else Field(Object(settings), key)
    ensures forall k :: k != key ==> Field(Object(PutIf(settings, key, value)), k) == Field(Object(settings), k)
    ensures key in DERIVED ==> Without(PutIf(settings, key, value), DERIVED) == Without(settings, DERIVED)
  {
    if value.Some? {
      PutField(settings, key, value.value);
      if key in DERIVED {
        WithoutPut(settings, key, value.value, DERIVED);
      }
    }
  }

  lemma DerivedFields(settings: seq<Member>, serverId: string, machineId: Option<string>)
    ensures var result := Derived(settings, serverId, machineId);
      var confirmed, cursor := ShownConfirmation(settings, serverId), ShownCursor(settings, serverId);
      && Without(result, DERIVED) == Without(settings, DERIVED)
      && (forall k :: k !in DERIVED ==> Field(Object(result), k) == Field(Object(settings), k))
      && Field(Object(result), "machineIdConfirmedByServer")
        == (if confirmed.Some? then confirmed else Field(Object(settings), "machineIdConfirmedByServer"))
      && Field(Object(result), "lastChangesCursorByAccountId")
        == if cursor.Some? then cursor else Field(Object(settings), "lastChangesCursorByAccountId")
  {
    hide PutIf, Field, Without;
    var withId := PutIf(settings, "machineId", ShownId(machineId));
    PutIfField(settings, "machineId", ShownId(machineId));
    PutIfField(withId, "machineIdConfirmedByServer", ShownConfirmation(withId, serverId));
    var withConfirmation := PutIf(withId, "machineIdConfirmedByServer", ShownConfirmation(withId, serverId));
    PutIfField(withConfirmation, "lastChangesCursorByAccountId", ShownCursor(withConfirmation, serverId));
  }

  /** What reading derives never reaches the disk: writing settings back as they were read stores what was stored. */
  lemma DerivedNeverStored(host: Host, settings: seq<Member>, serverId: string, machineId: Option<string>)
    requires !SingleServerFormat(host, settings)
    ensures Serialized(host, Derived(settings, serverId, machineId)) == Serialized(host, settings)
  {
    DerivedFields(settings, serverId, machineId);
    hide Derived;
  }

  /** Single-server state survives the move: on the cloud server it reads back as it was, if it was well formed. */
  lemma SingleServerStateComesBack(settings: seq<Member>, now: real, machineId: Option<string>)
    ensures var before, stored := Object(settings), WithServers(settings, now);
      var after := Object(Derived(stored, CLOUD, machineId));
      var id, confirmed, cursor :=
        Field(before, "machineId"),
        Field(before, "machineIdConfirmedByServer"),
        Field(before, "lastChangesCursorByAccountId");
      && Nested(stored, "machineIdByServerId", CLOUD)
        == (if id.Some? && id.value.Text? && Trim(id.value.text) != "" then Some(Text(Trim(id.value.text))) else None)
      && Field(after, "machineIdConfirmedByServer") == OnlyIf(confirmed, (v: Json) => v.Bool?)
      && Field(after, "lastChangesCursorByAccountId") ==
        if cursor.Some? && IsObject(cursor.value) then cursor else Some(Object([]))
  {
    FifthStageFields(settings, now);
    DerivedFields(WithServers(settings, now), CLOUD, machineId);
    hide WithServers, Derived;
  }
}
