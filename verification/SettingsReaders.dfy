/**
 * The second reader of settings.json (readActiveServerFromSettingsFile in apps/cli/src/configuration.ts), which
 * reads servers of versions 5 and 6 alike, and whether it agrees with the migration between the two.
 */
module SettingsReaders {
  import opened Options
  import opened JsText
  import opened StableJson
  import opened JsonObjects
  import opened SettingsMigration

  datatype Profile = Profile(id: string, serverUrl: string, localServerUrl: Option<string>, webappUrl: string)

  datatype Selection = Selection(activeServerId: string, servers: map<string, Profile>)

  function NonEmpty(s: string): Option<string> {
    if s == "" then None else Some(s)
  }

  function ServerId(host: Host, key: string, server: Json): string {
    var id := Field(server, "id");
    host.serverId(if id.Some? && !id.value.Null? then id.value else Text(key))
  }

  function Assemble(sid: string, url: string, public: string, local: string, webapp: string,
          urlIsLocalish: bool): Option<Profile>
  {
    if sid == "" || url == "" || webapp == "" then None
    else
      var moved := public != "" && public != url;
      Some(Profile(
        sid,
        if moved then public else url,
        NonEmpty(if local != "" then local else if moved && urlIsLocalish then url else ""),
        webapp))
  }

  /** One entry of the server record, unless it lacks an id or an address. */
  function ReadProfile(host: Host, key: string, server: Json): Option<Profile> {
    var sid := ServerId(host, key, server);
    var url, public := UrlField(host, server, "serverUrl"), UrlField(host, server, "publicServerUrl");
    var local, webapp := UrlField(host, server, "localServerUrl"), UrlField(host, server, "webappUrl");
    Assemble(sid, url, public, local, webapp, host.localish(url))
  }

  /** Later entries win over earlier ones with the same id. */
  function ReadServers(host: Host, entries: seq<Member>): map<string, Profile> {
    if entries == [] then map[]
    else
      var last := entries[|entries| - 1];
      Extended(ReadServers(host, entries[..|entries| - 1]), ReadProfile(host, last.key, last.value))
  }

  function Extended(servers: map<string, Profile>, profile: Option<Profile>): map<string, Profile> {
    if profile.Some? then servers[profile.value.id := profile.value] else servers
  }

  function ActiveId(host: Host, raw: Json): string {
    var id := Field(raw, "activeServerId");
    host.serverId(if id.Some? && !id.value.Null? then id.value else Text(""))
  }

  /** No version counts as 0 here. */
  predicate HasServers(host: Host, raw: Json) {
    var version, servers := Field(raw, "schemaVersion"), Field(raw, "servers");
    && version.Some? && !version.value.Null? && host.number(version.value).Some?
    && host.number(version.value).value >= 5.0
    && ActiveId(host, raw) != "" && servers.Some? && IsObject(servers.value)
  }

  function ReadActive(host: Host, raw: Json): Option<Selection> {
    if !HasServers(host, raw) then None
    else
      var servers := ReadServers(host, Entries(Field(raw, "servers").value));
      var active := ActiveId(host, raw);
      if active in servers then Some(Selection(active, servers)) else None
  }

  method ReadActiveServer(host: Host, raw: Json) returns (selection: Option<Selection>)
    ensures selection == ReadActive(host, raw)
  {
    hide HasServers, ActiveId, ReadServers, Entries;
    if !HasServers(host, raw) {
      return None;
    }
    assert Field(raw, "servers").Some? && IsObject(Field(raw, "servers").value) by {
      RecordIsThere(host, raw);
    }
    var activeServerId := ActiveId(host, raw);
    var servers := ReadRecord(host, Entries(Field(raw, "servers").value));
    if activeServerId !in servers {
      return None;
    }
    selection := Some(Selection(activeServerId, servers));
  }

  lemma RecordIsThere(host: Host, raw: Json)
    requires HasServers(host, raw)
    ensures Field(raw, "servers").Some? && IsObject(Field(raw, "servers").value)
  {}

  method ReadRecord(host: Host, entries: seq<Member>) returns (servers: map<string, Profile>)
    ensures servers == ReadServers(host, entries)
  {
    hide ReadProfile;
    servers := map[];
    for i := 0 to |entries|
      invariant servers == ReadServers(host, entries[..i])
    {
      assert entries[..i + 1][..i] == entries[..i];
      var profile := ReadProfile(host, entries[i].key, entries[i].value);
      if profile.Some? {
        servers := servers[profile.value.id := profile.value];
      }
    }
    assert entries[..|entries|] == entries;
  }

  // ----- addresses -----

  lemma {:induction false} SlashesStripped(s: string)
    ensures StripSlashes(s) <= s && (StripSlashes(s) == "" || StripSlashes(s)[|StripSlashes(s)| - 1] != '/')
  {
    if s != "" && s[|s| - 1] == '/' {
      SlashesStripped(s[..|s| - 1]);
    }
  }

  /** Normalizing an address again changes nothing exactly if stripping the slashes left no white space at the end. */
  lemma NormalizedAgain(s: string)
    ensures NormalizeUrl(NormalizeUrl(s)) == NormalizeUrl(s) <==> Trimmed(NormalizeUrl(s))
  {
    var url := NormalizeUrl(s);
    SlashesStripped(Trim(s));
    SlashesStripped(Trim(url));
    TrimTrims(url);
    TrimIsPart(url);
  }

  lemma TrimIsPart(s: string)
    ensures |Trim(s)| <= |s|
  {
    StartIsPart(s);
    EndTrimmed(TrimStart(s));
  }

  lemma {:induction false} StartIsPart(s: string)
    ensures |TrimStart(s)| <= |s|
  {
    if s != "" && IsBlank(s[0]) {
      StartIsPart(s[1..]);
    }
  }

  predicate BlankFree(s: string) {
    forall i :: 0 <= i < |s| ==> !IsBlank(s[i])
  }

  lemma BlankFreeStays(s: string)
    requires BlankFree(s)
    ensures BlankFree(NormalizeUrl(s)) && Trimmed(NormalizeUrl(s))
  {
    TrimTrims(s);
    SlashesStripped(s);
  }

  // ----- one server -----

  /**
   * When reading a server raw and reading it migrated give the same. Without a differing public address they
   * always do; with one, the trouble is a local address that is set already, a missing canonical one, and white
   * space before trailing slashes.
   */
  predicate Agreeable(host: Host, key: string, server: Json) {
    var url, public := UrlField(host, server, "serverUrl"), UrlField(host, server, "publicServerUrl");
    var local, webapp := UrlField(host, server, "localServerUrl"), UrlField(host, server, "webappUrl");
    || public == "" || public == url || ServerId(host, key, server) == "" || webapp == ""
    || (if url == "" then NormalizeUrl(public) == ""
        else
          && Trimmed(public)
          && (host.localish(url) ==> if local != "" then NormalizeUrl(url) == local else Trimmed(url)))
  }

  /** The fields of a migrated server. */
  lemma MigratedFields(host: Host, server: Json)
    ensures var after := MigratedServer(host, server);
      var url, public := UrlField(host, server, "serverUrl"), UrlField(host, server, "publicServerUrl");
      var moved := public != "" && public != url;
      && Field(after, "publicServerUrl") == None
      && Field(after, "serverUrl") == (if moved then Some(Text(public)) else Field(server, "serverUrl"))
      && Field(after, "localServerUrl")
        == (if moved && url != "" && host.localish(url) then Some(Text(url)) else Field(server, "localServerUrl"))
      && forall k :: k !in {"serverUrl", "localServerUrl", "publicServerUrl"} ==> Field(after, k) == Field(server, k)
  {
    var url, public := UrlField(host, server, "serverUrl"), UrlField(host, server, "publicServerUrl");
    if server.Object? {
      var canonical := Put(server.members, "serverUrl", Text(public));
      var both := Put(canonical, "localServerUrl", Text(url));
      PutField(server.members, "serverUrl", Text(public));
      PutField(canonical, "localServerUrl", Text(url));
      WithoutField(server.members, {"publicServerUrl"});
      WithoutField(canonical, {"publicServerUrl"});
      WithoutField(both, {"publicServerUrl"});
      hide Put, Without, Field, UrlField;
    } else {
      assert public == "";
    }
  }

  lemma MigratedUrls(host: Host, server: Json)
    requires Ordinary(host)
    ensures var after := MigratedServer(host, server);
      var url, public := UrlField(host, server, "serverUrl"), UrlField(host, server, "publicServerUrl");
      var moved := public != "" && public != url;
      && UrlField(host, after, "publicServerUrl") == ""
      && UrlField(host, after, "serverUrl") == (if moved then NormalizeUrl(public) else url)
      && UrlField(host, after, "localServerUrl")
        == (if moved && url != "" && host.localish(url) then NormalizeUrl(url)
            else UrlField(host, server, "localServerUrl"))
      && UrlField(host, after, "webappUrl") == UrlField(host, server, "webappUrl")
  {
    MigratedFields(host, server);
    EmptyUrl();
    TextUrl(host, UrlField(host, server, "serverUrl"));
    TextUrl(host, UrlField(host, server, "publicServerUrl"));
    hide Field, MigratedServer, NormalizeUrl, Ordinary, TextOr;
    assert TextOr(host.shown, None) == "" by { EmptyText(host); }
  }

  lemma EmptyUrl()
    ensures NormalizeUrl("") == ""
  {}

  lemma EmptyText(host: Host)
    ensures TextOr(host.shown, None) == ""
  {}

  lemma TextUrl(host: Host, s: string)
    requires Ordinary(host)
    ensures TextOr(host.shown, Some(Text(s))) == s
  {}

  lemma ServerIdStays(host: Host, key: string, server: Json)
    ensures ServerId(host, key, MigratedServer(host, server)) == ServerId(host, key, server)
  {
    MigratedFields(host, server);
    hide Field, MigratedServer;
  }

  lemma ProfileAgrees(host: Host, key: string, server: Json)
    requires Ordinary(host)
    ensures ReadProfile(host, key, MigratedServer(host, server)) == ReadProfile(host, key, server) <==>
      Agreeable(host, key, server)
  {
    MigratedUrls(host, server);
    ServerIdStays(host, key, server);
    NormalizedAgain(TextOr(host.shown, Field(server, "serverUrl")));
    NormalizedAgain(TextOr(host.shown, Field(server, "publicServerUrl")));
    assert UrlField(host, server, "serverUrl") == NormalizeUrl(TextOr(host.shown, Field(server, "serverUrl")));
    assert UrlField(host, server, "publicServerUrl") ==
      NormalizeUrl(TextOr(host.shown, Field(server, "publicServerUrl")));
    hide MigratedServer, Field, NormalizeUrl, Trimmed, TextOr, UrlField, ServerId, Ordinary;
  }

  /**
   * Where they part in practice: a device-local address that was set already is read as it is, but the migration
   * puts the former canonical address in its place.
   */
  lemma LocalAddressIsReplaced(host: Host, key: string, server: Json)
    requires Ordinary(host) && ServerId(host, key, server) != ""
    requires var url, public := UrlField(host, server, "serverUrl"), UrlField(host, server, "publicServerUrl");
      && url != "" && public != "" && public != url && host.localish(url) && Trimmed(url) && Trimmed(public)
      && UrlField(host, server, "localServerUrl") != "" && UrlField(host, server, "webappUrl") != ""
    ensures var url, public := UrlField(host, server, "serverUrl"), UrlField(host, server, "publicServerUrl");
      var before, after := ReadProfile(host, key, server), ReadProfile(host, key, MigratedServer(host, server));
      && before.Some? && before.value.localServerUrl == Some(UrlField(host, server, "localServerUrl"))
      && after == Some(before.value.(localServerUrl := Some(url)))
  {
    MigratedUrls(host, server);
    ServerIdStays(host, key, server);
    NormalizedAgain(TextOr(host.shown, Field(server, "serverUrl")));
    NormalizedAgain(TextOr(host.shown, Field(server, "publicServerUrl")));
    assert UrlField(host, server, "serverUrl") == NormalizeUrl(TextOr(host.shown, Field(server, "serverUrl")));
    assert UrlField(host, server, "publicServerUrl") ==
      NormalizeUrl(TextOr(host.shown, Field(server, "publicServerUrl")));
    hide MigratedServer, Field, NormalizeUrl, Trimmed, TextOr, UrlField, ServerId, Ordinary;
  }

  // ----- all servers -----

  ghost predicate AllAgreeable(host: Host, entries: seq<Member>) {
    forall i :: 0 <= i < |entries| ==> Agreeable(host, entries[i].key, entries[i].value)
  }

  ghost predicate DistinctIds(host: Host, entries: seq<Member>) {
    forall i, j :: 0 <= i < j < |entries| ==>
      ServerId(host, entries[i].key, entries[i].value) != ServerId(host, entries[j].key, entries[j].value)
  }

  lemma {:induction false} ServersAgree(host: Host, entries: seq<Member>)
    requires Ordinary(host) && AllAgreeable(host, entries)
    ensures ReadServers(host, MigratedMembers(host, entries)) == ReadServers(host, entries)
  {
    hide Agreeable, ReadProfile;
    if entries != [] {
      var n := |entries| - 1;
      assert MigratedMembers(host, entries)[..n] == MigratedMembers(host, entries[..n]);
      ServersAgree(host, entries[..n]);
      ProfileAgrees(host, entries[n].key, entries[n].value);
      assert Agreeable(host, entries[n].key, entries[n].value);
    }
  }

  lemma ReadIdIsServerId(host: Host, key: string, server: Json)
    ensures ReadProfile(host, key, server).Some? ==>
      ReadProfile(host, key, server).value.id == ServerId(host, key, server)
  {}

  lemma {:induction false} ReadKeys(host: Host, entries: seq<Member>, sid: string)
    requires forall i :: 0 <= i < |entries| ==> ServerId(host, entries[i].key, entries[i].value) != sid
    ensures sid !in ReadServers(host, entries)
  {
    if entries != [] {
      var last := entries[|entries| - 1];
      ReadIdIsServerId(host, last.key, last.value);
      hide ReadProfile, ServerId;
      ReadKeys(host, entries[..|entries| - 1], sid);
    }
  }

  /** The record says of `sid` what `profile` says. */
  predicate Shows(servers: map<string, Profile>, sid: string, profile: Option<Profile>) {
    profile == if sid in servers then Some(servers[sid]) else None
  }

  lemma LastShows(servers: map<string, Profile>, sid: string, profile: Option<Profile>)
    requires sid !in servers && (profile.Some? ==> profile.value.id == sid)
    ensures Shows(Extended(servers, profile), sid, profile)
  {}

  lemma OthersShow(servers: map<string, Profile>, sid: string, profile: Option<Profile>, other: Option<Profile>)
    requires Shows(servers, sid, profile) && (other.Some? ==> other.value.id != sid)
    ensures Shows(Extended(servers, other), sid, profile)
  {}

  lemma ReadLast(host: Host, entries: seq<Member>)
    requires entries != []
    ensures var n := |entries| - 1;
      ReadServers(host, entries) ==
        Extended(ReadServers(host, entries[..n]), ReadProfile(host, entries[n].key, entries[n].value))
  {}

  /** With distinct ids every entry shows in the result as it was read. */
  lemma {:induction false} EntryShows(host: Host, entries: seq<Member>, i: nat)
    requires DistinctIds(host, entries) && i < |entries|
    ensures Shows(ReadServers(host, entries), ServerId(host, entries[i].key, entries[i].value),
      ReadProfile(host, entries[i].key, entries[i].value))
    decreases |entries|
  {
    hide ReadServers, ReadProfile, ServerId, Shows, Extended;
    var n := |entries| - 1;
    var before, last, sid := entries[..n], entries[n], ServerId(host, entries[i].key, entries[i].value);
    var profile := ReadProfile(host, last.key, last.value);
    ReadLast(host, entries);
    ReadIdIsServerId(host, last.key, last.value);
    if i == n {
      forall j | 0 <= j < n ensures ServerId(host, before[j].key, before[j].value) != sid {
        assert before[j] == entries[j];
      }
      ReadKeys(host, before, sid);
      LastShows(ReadServers(host, before), sid, profile);
    } else {
      EntryShows(host, before, i);
      OthersShow(ReadServers(host, before), sid, ReadProfile(host, entries[i].key, entries[i].value), profile);
    }
  }

  lemma DistinctIdsStay(host: Host, entries: seq<Member>)
    requires DistinctIds(host, entries)
    ensures DistinctIds(host, MigratedMembers(host, entries))
  {
    forall i | 0 <= i < |entries|
      ensures ServerId(host, entries[i].key, MigratedServer(host, entries[i].value)) ==
        ServerId(host, entries[i].key, entries[i].value)
    {
      ServerIdStays(host, entries[i].key, entries[i].value);
    }
    hide ServerId, MigratedServer;
  }

  /** Servers with ids of their own are all read alike before and after exactly if each of them is. */
  lemma DistinctServersAgree(host: Host, entries: seq<Member>)
    requires Ordinary(host) && DistinctIds(host, entries)
    ensures ReadServers(host, MigratedMembers(host, entries)) == ReadServers(host, entries) <==>
      AllAgreeable(host, entries)
  {
    if AllAgreeable(host, entries) {
      ServersAgree(host, entries);
    }
    if ReadServers(host, MigratedMembers(host, entries)) == ReadServers(host, entries) {
      DistinctIdsStay(host, entries);
      forall i | 0 <= i < |entries| ensures Agreeable(host, entries[i].key, entries[i].value) {
        EntryShows(host, entries, i);
        EntryShows(host, MigratedMembers(host, entries), i);
        ServerIdStays(host, entries[i].key, entries[i].value);
        ProfileAgrees(host, entries[i].key, entries[i].value);
        hide ReadServers, ReadProfile, ServerId, MigratedServer, Agreeable;
      }
    }
  }

  // ----- entries with the same id -----

  /** How the entries read as they are. */
  function Readings(host: Host, entries: seq<Member>): seq<Option<Profile>> {
    seq(|entries|, i requires 0 <= i < |entries| => ReadProfile(host, entries[i].key, entries[i].value))
  }

  /** How an entry will read after the migration, from its fields before. */
  function ReadingAfter(host: Host, key: string, server: Json): Option<Profile> {
    var url, public := UrlField(host, server, "serverUrl"), UrlField(host, server, "publicServerUrl");
    var local, webapp := UrlField(host, server, "localServerUrl"), UrlField(host, server, "webappUrl");
    var moved := public != "" && public != url;
    var next := if moved then NormalizeUrl(public) else url;
    var nextLocal := if moved && url != "" && host.localish(url) then NormalizeUrl(url) else local;
    Assemble(ServerId(host, key, server), next, "", nextLocal, webapp, host.localish(next))
  }

  function ReadingsAfter(host: Host, entries: seq<Member>): seq<Option<Profile>> {
    seq(|entries|, i requires 0 <= i < |entries| => ReadingAfter(host, entries[i].key, entries[i].value))
  }

  lemma MigratedReading(host: Host, key: string, server: Json)
    requires Ordinary(host)
    ensures ReadProfile(host, key, MigratedServer(host, server)) == ReadingAfter(host, key, server)
  {
    MigratedUrls(host, server);
    ServerIdStays(host, key, server);
    hide MigratedServer, NormalizeUrl, UrlField, ServerId, Ordinary;
  }

  lemma MigratedReadings(host: Host, entries: seq<Member>)
    requires Ordinary(host)
    ensures Readings(host, MigratedMembers(host, entries)) == ReadingsAfter(host, entries)
  {
    forall i | 0 <= i < |entries|
      ensures ReadProfile(host, entries[i].key, MigratedServer(host, entries[i].value)) ==
        ReadingAfter(host, entries[i].key, entries[i].value)
    {
      MigratedReading(host, entries[i].key, entries[i].value);
    }
    hide ReadProfile, ReadingAfter, MigratedServer;
  }

  /** The entry reads, and no later one with the same id does. */
  predicate Wins(readings: seq<Option<Profile>>, i: nat) {
    && i < |readings| && readings[i].Some?
    && forall j :: i < j < |readings| && readings[j].Some? ==> readings[j].value.id != readings[i].value.id
  }

  /** Every entry that wins in `these` has one that wins in `those` and reads the same. */
  predicate WinnersAmong(these: seq<Option<Profile>>, those: seq<Option<Profile>>) {
    forall i :: 0 <= i < |these| && Wins(these, i) ==>
      exists j :: 0 <= j < |those| && Wins(those, j) && those[j] == these[i]
  }

  function Collected(readings: seq<Option<Profile>>): map<string, Profile> {
    if readings == [] then map[]
    else Extended(Collected(readings[..|readings| - 1]), readings[|readings| - 1])
  }

  lemma {:induction false} ServersAreCollected(host: Host, entries: seq<Member>)
    ensures ReadServers(host, entries) == Collected(Readings(host, entries))
  {
    hide ReadProfile;
    if entries != [] {
      var n := |entries| - 1;
      assert Readings(host, entries)[..n] == Readings(host, entries[..n]);
      ServersAreCollected(host, entries[..n]);
    }
  }

  /** The record holds a profile exactly if that is what a winning entry reads. */
  lemma {:induction false} WinnersAreHeld(readings: seq<Option<Profile>>, sid: string, profile: Profile)
    ensures sid in Collected(readings) && Collected(readings)[sid] == profile <==>
      profile.id == sid && exists i :: 0 <= i < |readings| && Wins(readings, i) && readings[i] == Some(profile)
  {
    if readings != [] {
      var n := |readings| - 1;
      var before, last := readings[..n], readings[n];
      WinnersAreHeld(before, sid, profile);
      if last.Some? && last.value.id == sid {
        assert Wins(readings, n);
      } else {
        forall i | 0 <= i < n && readings[i].Some? && readings[i].value.id == sid
          ensures Wins(readings, i) == Wins(before, i)
        {}
      }
    }
  }

  /** Two records are the same exactly if the winning entries of each are among those of the other. */
  lemma RecordsSameIffWinnersSame(these: seq<Option<Profile>>, those: seq<Option<Profile>>)
    ensures Collected(these) == Collected(those) <==> WinnersAmong(these, those) && WinnersAmong(those, these)
  {
    if Collected(these) == Collected(those) {
      SameRecordSameWinners(these, those);
      SameRecordSameWinners(those, these);
    }
    if WinnersAmong(these, those) && WinnersAmong(those, these) {
      WinnersMakeRecord(these, those);
      WinnersMakeRecord(those, these);
    }
  }

  lemma SameRecordSameWinners(these: seq<Option<Profile>>, those: seq<Option<Profile>>)
    requires Collected(these) == Collected(those)
    ensures WinnersAmong(these, those)
  {
    forall i | 0 <= i < |these| && Wins(these, i)
      ensures exists j :: 0 <= j < |those| && Wins(those, j) && those[j] == these[i]
    {
      WinnersAreHeld(these, these[i].value.id, these[i].value);
      WinnersAreHeld(those, these[i].value.id, these[i].value);
    }
  }

  lemma WinnersMakeRecord(these: seq<Option<Profile>>, those: seq<Option<Profile>>)
    requires WinnersAmong(these, those)
    ensures forall sid :: sid in Collected(these) ==>
      sid in Collected(those) && Collected(those)[sid] == Collected(these)[sid]
  {
    forall sid | sid in Collected(these)
      ensures sid in Collected(those) && Collected(those)[sid] == Collected(these)[sid]
    {
      WinnersAreHeld(these, sid, Collected(these)[sid]);
      WinnersAreHeld(those, sid, Collected(these)[sid]);
    }
  }

  /** The entries that win before the migration and those that win after it read the same. */
  predicate WinnersMatch(host: Host, entries: seq<Member>) {
    && WinnersAmong(Readings(host, entries), ReadingsAfter(host, entries))
    && WinnersAmong(ReadingsAfter(host, entries), Readings(host, entries))
  }

  /** Whatever the ids, the whole record reads the same exactly if the winning entries do. */
  lemma WinnersDecide(host: Host, entries: seq<Member>)
    requires Ordinary(host)
    ensures ReadServers(host, MigratedMembers(host, entries)) == ReadServers(host, entries) <==>
      WinnersMatch(host, entries)
  {
    ServersAreCollected(host, entries);
    ServersAreCollected(host, MigratedMembers(host, entries));
    MigratedReadings(host, entries);
    RecordsSameIffWinnersSame(Readings(host, entries), ReadingsAfter(host, entries));
    hide ReadServers, Collected, WinnersAmong, Readings, ReadingsAfter;
  }

  /** The migration makes no skipped entry readable, and none that is read unreadable. */
  predicate Steady(host: Host, key: string, server: Json) {
    var url, public := UrlField(host, server, "serverUrl"), UrlField(host, server, "publicServerUrl");
    || public == "" || public == url || ServerId(host, key, server) == "" || UrlField(host, server, "webappUrl") == ""
    || (url == "" <==> NormalizeUrl(public) == "")
  }

  lemma SteadyReads(host: Host, key: string, server: Json)
    requires Ordinary(host) && Steady(host, key, server)
    ensures var before, after := ReadProfile(host, key, server), ReadingAfter(host, key, server);
      && (before.Some? <==> after.Some?) && (before.Some? ==> before.value.id == after.value.id)
      && (before == after <==> Agreeable(host, key, server))
  {
    MigratedReading(host, key, server);
    ProfileAgrees(host, key, server);
    hide Agreeable, NormalizeUrl, UrlField, ServerId, Ordinary, MigratedServer;
  }

  /** If the same entries read, with the same ids, the winners are the same entries. */
  lemma WinnersStay(these: seq<Option<Profile>>, those: seq<Option<Profile>>)
    requires |these| == |those|
    requires forall i | 0 <= i < |these| ::
      (these[i].Some? <==> those[i].Some?) && (these[i].Some? ==> these[i].value.id == those[i].value.id)
    ensures WinnersAmong(these, those) && WinnersAmong(those, these) <==>
      forall i :: 0 <= i < |these| && Wins(these, i) ==> these[i] == those[i]
  {
    assert forall i :: 0 <= i < |these| ==> Wins(these, i) == Wins(those, i);
    if WinnersAmong(these, those) {
      forall i | 0 <= i < |these| && Wins(these, i) ensures these[i] == those[i] {
        var j :| 0 <= j < |those| && Wins(those, j) && those[j] == these[i];
        assert Wins(these, j) && Wins(those, i);
      }
    }
  }

  /** If the migration leaves alone which entries read, the exact condition is that those that win are agreeable. */
  lemma SteadyWinnersDecide(host: Host, entries: seq<Member>)
    requires Ordinary(host)
    requires forall i :: 0 <= i < |entries| ==> Steady(host, entries[i].key, entries[i].value)
    ensures ReadServers(host, MigratedMembers(host, entries)) == ReadServers(host, entries) <==>
      forall i :: 0 <= i < |entries| && Wins(Readings(host, entries), i) ==>
        Agreeable(host, entries[i].key, entries[i].value)
  {
    WinnersDecide(host, entries);
    forall i | 0 <= i < |entries|
      ensures var before, after := Readings(host, entries)[i], ReadingsAfter(host, entries)[i];
        && (before.Some? <==> after.Some?) && (before.Some? ==> before.value.id == after.value.id)
        && (before == after <==> Agreeable(host, entries[i].key, entries[i].value))
    {
      SteadyReads(host, entries[i].key, entries[i].value);
    }
    hide Steady, Agreeable, ReadProfile, ReadingAfter, ReadServers, Wins, WinnersAmong;
    WinnersStay(Readings(host, entries), ReadingsAfter(host, entries));
  }

  // ----- whole settings -----

  lemma {:induction false} PositionsMigrated(host: Host, items: seq<Json>, first: nat)
    ensures Indexed(seq(|items|, i requires 0 <= i < |items| => MigratedServer(host, items[i])), first)
      == MigratedMembers(host, Indexed(items, first))
    decreases |items|
  {
    var migrated := seq(|items|, i requires 0 <= i < |items| => MigratedServer(host, items[i]));
    if items != [] {
      PositionsMigrated(host, items[1..], first + 1);
      assert migrated[1..] == seq(|items[1..]|,
        i requires 0 <= i < |items[1..]| => MigratedServer(host, items[1..][i]));
      assert Indexed(items, first)[1..] == Indexed(items[1..], first + 1);
      assert MigratedMembers(host, Indexed(items, first))[1..] == MigratedMembers(host, Indexed(items, first)[1..]);
    }
  }

  lemma EntriesMigrated(host: Host, servers: Json)
    requires IsObject(servers)
    ensures IsObject(MigratedServers(host, servers))
    ensures Entries(MigratedServers(host, servers)) == MigratedMembers(host, Entries(servers))
  {
    if servers.Array? {
      PositionsMigrated(host, servers.items, 0);
    }
  }

  function EntriesOf(host: Host, raw: Json): seq<Member>
    requires HasServers(host, raw)
  {
    Entries(Field(raw, "servers").value)
  }

  /** Migrating settings of version 5 changes, for the second reader, the servers and nothing else. */
  lemma ReadAfterMigration(host: Host, raw: seq<Member>, now: real)
    requires Ordinary(host) && !Older(VersionOf(host, Object(raw)), 5.0) && Older(VersionOf(host, Object(raw)), 6.0)
    ensures var after := Object(Migrated(host, raw, VersionOf(host, Object(raw)), now));
      && HasServers(host, after) == HasServers(host, Object(raw))
      && (HasServers(host, after) ==>
        && EntriesOf(host, after) == MigratedMembers(host, EntriesOf(host, Object(raw)))
        && ActiveId(host, after) == ActiveId(host, Object(raw)))
  {
    SixthStageFields(host, raw);
    var servers := Field(Object(raw), "servers");
    if servers.Some? && IsObject(servers.value) {
      EntriesMigrated(host, servers.value);
    }
    hide WithCanonicalUrls, Field, MigratedMembers;
  }

  /** How one entry reads, field by field; it is skipped without an id, an address or a web address. */
  lemma ProfileByField(host: Host, key: string, server: Json)
    ensures var id := host.serverId(
        if Field(server, "id") in {None, Some(Null)} then Text(key) else Field(server, "id").value);
      var url, public := UrlField(host, server, "serverUrl"), UrlField(host, server, "publicServerUrl");
      var local, webapp := UrlField(host, server, "localServerUrl"), UrlField(host, server, "webappUrl");
      var differs := public != "" && public != url;
      ReadProfile(host, key, server) == (
        if id == "" || url == "" || webapp == "" then None
        else Some(Profile(
          id,
          if differs then public else url,
          if local != "" then Some(local) else if differs && host.localish(url) then Some(url) else None,
          webapp)))
  {
  }

  /**
   * What is selected: in a file of version 5 or later with a usable id of the active server and a server record, the
   * profiles that the last readable entries of each id read as, provided the active server is among them.
   */
  lemma SelectionHolds(host: Host, raw: Json)
    ensures var version, servers := Field(raw, "schemaVersion"), Field(raw, "servers");
      var number := if version in {None, Some(Null)} then Some(0.0) else host.number(version.value);
      var active := host.serverId(
        if Field(raw, "activeServerId") in {None, Some(Null)} then Text("")
        else Field(raw, "activeServerId").value);
      var selection := ReadActive(host, raw);
      if number.Some? && number.value >= 5.0 && active != "" && servers.Some? && IsObject(servers.value) then
        var readings := Readings(host, Entries(servers.value));
        && (selection.Some? <==>
            exists i :: 0 <= i < |readings| && readings[i].Some? && readings[i].value.id == active)
        && (selection.Some? ==>
          && selection.value.activeServerId == active
          && forall sid, profile ::
            sid in selection.value.servers && selection.value.servers[sid] == profile <==>
              Holds(readings, sid, profile))
      else selection == None
  {
    if HasServers(host, raw) {
      var entries := Entries(Field(raw, "servers").value);
      var readings := Readings(host, entries);
      ServersAreCollected(host, entries);
      HeldIffRead(readings, ActiveId(host, raw));
      AllHeld(readings);
      hide ReadServers, Collected, Readings, Entries, Holds;
    }
  }

  /** The last readable entry with that id reads so. */
  ghost predicate Holds(readings: seq<Option<Profile>>, sid: string, profile: Profile) {
    profile.id == sid && exists i :: 0 <= i < |readings| && Wins(readings, i) && readings[i] == Some(profile)
  }

  lemma AllHeld(readings: seq<Option<Profile>>)
    ensures forall sid, profile | sid in Collected(readings) ::
      Collected(readings)[sid] == profile <==> Holds(readings, sid, profile)
    ensures forall sid, profile :: Holds(readings, sid, profile) ==> sid in Collected(readings)
  {
    forall sid: string, profile: Profile
      ensures sid in Collected(readings) && Collected(readings)[sid] == profile <==> Holds(readings, sid, profile)
    {
      WinnersAreHeld(readings, sid, profile);
    }
  }

  /** Some entry with that id reads after the migration. */
  predicate ReadsLater(host: Host, entries: seq<Member>, sid: string) {
    exists i :: 0 <= i < |entries| && ReadingsAfter(host, entries)[i].Some?
      && ReadingsAfter(host, entries)[i].value.id == sid
  }

  lemma {:induction false} HeldIffRead(readings: seq<Option<Profile>>, sid: string)
    ensures sid in Collected(readings) <==>
      exists i :: 0 <= i < |readings| && readings[i].Some? && readings[i].value.id == sid
  {
    if readings != [] {
      var n := |readings| - 1;
      HeldIffRead(readings[..n], sid);
      assert forall i :: 0 <= i < n ==> readings[..n][i] == readings[i];
    }
  }

  /**
   * When the two readers agree. Settings of version 5 or later give the second reader the same selection before and
   * after migration exactly if they are of version 6 already or have no servers to read, or if the winning entries
   * read the same or, with no readable active server before, none after. That all servers are agreeable is enough.
   */
  lemma TwoReadersAgree(host: Host, raw: seq<Member>, now: real)
    requires Ordinary(host) && !Older(VersionOf(host, Object(raw)), 5.0)
    ensures var before, after := Object(raw), Object(Migrated(host, raw, VersionOf(host, Object(raw)), now));
      var same := ReadActive(host, after) == ReadActive(host, before);
      var affected := Older(VersionOf(host, before), 6.0) && HasServers(host, before);
      && (!affected ==> same)
      && (affected ==>
        var entries := EntriesOf(host, before);
        && (AllAgreeable(host, entries) ==> same)
        && (same <==> if ReadActive(host, before).Some? then WinnersMatch(host, entries)
                      else !ReadsLater(host, entries, ActiveId(host, before))))
  {
    var version := VersionOf(host, Object(raw));
    if Older(version, 6.0) {
      ReadAfterMigration(host, raw, now);
      if HasServers(host, Object(raw)) {
        var entries := EntriesOf(host, Object(raw));
        hide HasServers, ReadServers, AllAgreeable, Migrated, ActiveId, WinnersMatch;
        if AllAgreeable(host, entries) {
          ServersAgree(host, entries);
        }
        WinnersDecide(host, entries);
        ServersAreCollected(host, MigratedMembers(host, entries));
        MigratedReadings(host, entries);
        HeldIffRead(ReadingsAfter(host, entries), ActiveId(host, Object(raw)));
      }
    }
  }

  /** The common case: addresses without white space, a canonical one, and no local one yet. */
  ghost predicate Plain(host: Host, server: Json) {
    && UrlField(host, server, "serverUrl") != "" && UrlField(host, server, "localServerUrl") == ""
    && BlankFree(TextOr(host.shown, Field(server, "serverUrl")))
    && BlankFree(TextOr(host.shown, Field(server, "publicServerUrl")))
  }

  lemma PlainIsAgreeable(host: Host, key: string, server: Json)
    requires Plain(host, server)
    ensures Agreeable(host, key, server)
  {
    BlankFreeStays(TextOr(host.shown, Field(server, "serverUrl")));
    BlankFreeStays(TextOr(host.shown, Field(server, "publicServerUrl")));
  }

  lemma PlainSettingsAgree(host: Host, raw: seq<Member>, now: real)
    requires Ordinary(host) && !Older(VersionOf(host, Object(raw)), 5.0)
    requires HasServers(host, Object(raw)) ==> forall entry :: entry in EntriesOf(host, Object(raw)) ==>
      Plain(host, entry.value)
    ensures ReadActive(host, Object(Migrated(host, raw, VersionOf(host, Object(raw)), now))) ==
      ReadActive(host, Object(raw))
  {
    TwoReadersAgree(host, raw, now);
    if HasServers(host, Object(raw)) {
      forall i | 0 <= i < |EntriesOf(host, Object(raw))|
        ensures Agreeable(host, EntriesOf(host, Object(raw))[i].key, EntriesOf(host, Object(raw))[i].value)
      {
        PlainIsAgreeable(host, EntriesOf(host, Object(raw))[i].key, EntriesOf(host, Object(raw))[i].value);
      }
    }
  }
}
