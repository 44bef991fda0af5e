/** The file hook that buffers a source until its end and then canonicalizes it (apps/ui/fingerprint.config.js). */
module FingerprintHook {
  import opened Options
  import opened JsText
  import opened StableJson
  import opened JsonObjects
  import opened EasJson

  newtype Byte = b: int | 0 <= b < 0x100

  datatype Source = Source(kind: string, filePath: string, id: string)

  datatype Chunk = NoChunk | Bytes(bytes: seq<Byte>) | Chars(text: string)

  /** What the hook cannot see into: parsers, encoders and the resolved variant configuration. */
  datatype Tools = Tools(
    parse: seq<Byte> -> Option<Json>,
    utf8: string -> seq<Byte>,
    texts: Texts,
    variantConfig: string -> Option<Json>)

  /** One call, with APP_ENV as it reads at that moment. */
  datatype Call = Call(source: Source, chunk: Chunk, isEndOfFile: bool, appEnv: string)

  /** Nothing yet, the chunk as it came, the text of a JSON tree, or the file as it came. */
  datatype Output = Nothing | Unchanged(chunk: Chunk) | TreeText(tree: Json) | FileText(bytes: seq<Byte>)

  datatype Kind = AppConfig | EasFile | VariantFile | Other

  type Buffers = map<string, seq<Byte>>

  function ForwardSlashes(path: string): string {
    seq(|path|, i requires 0 <= i < |path| => if path[i] == '\\' then '/' else path[i])
  }

  function KindOf(source: Source): Kind {
    if source.kind == "contents" && Trim(source.id) == "expoConfig" then AppConfig
    else if source.kind == "file" && ForwardSlashes(source.filePath) == "eas.json" then EasFile
    else if source.kind == "file" && ForwardSlashes(source.filePath) == "appVariantConfig.cjs" then VariantFile
    else Other
  }

  /** The call is answered from a buffer; without an APP_ENV nothing is. */
  function BufferedAs(call: Call): Kind {
    if call.appEnv == "" then Other else KindOf(call.source)
  }

  function Key(kind: Kind): string {
    match kind
    case AppConfig => "contents:expoConfig"
    case EasFile => "eas.json"
    case VariantFile => "appVariantConfig.cjs"
    case Other => ""
  }

  function Encoded(tools: Tools, chunk: Chunk): seq<Byte> {
    match chunk
    case NoChunk => []
    case Bytes(bytes) => bytes
    case Chars(text) => tools.utf8(text)
  }

  function Pending(buffers: Buffers, kind: Kind): seq<Byte> {
    if Key(kind) in buffers then buffers[Key(kind)] else []
  }

  // ----- canonicalizing a whole file -----

  const SECRETS := {"postHogKey", "revenueCatAppleKey", "revenueCatGoogleKey", "revenueCatStripeKey"}

  /** The Expo configuration without the identifiers that do not affect native output. */
  function Redacted(config: Json): Json {
    var extra := Field(config, "extra");
    var app := if extra.Some? then Field(extra.value, "app") else None;
    if app.Some? && IsObject(app.value) then
      var nextApp := Object(Without(Entries(app.value), SECRETS));
      Object(Put(config.members, "extra", Object(Put(extra.value.members, "app", nextApp))))
    else config
  }

  /** The text of a whole file. A file that does not parse is passed on as it is. */
  ghost function Whole(tools: Tools, kind: Kind, bytes: seq<Byte>, appEnv: string): Output {
    match kind
    case AppConfig =>
      (match tools.parse(bytes)
       case Some(config) => TreeText(Normalize(Redacted(config)))
       case None => FileText(bytes))
    case EasFile =>
      (match tools.parse(bytes)
       case Some(eas) => TreeText(Normalize(CanonicalEas(tools.texts, eas, appEnv)))
       case None => FileText(bytes))
    case VariantFile =>
      (match tools.variantConfig(appEnv)
       case Some(config) => TreeText(Normalize(config))
       case None => FileText(bytes))
    case Other => Nothing
  }

  // ----- one call -----

  ghost function Answer(tools: Tools, buffers: Buffers, call: Call): Output {
    var kind := BufferedAs(call);
    if kind == Other then Unchanged(call.chunk)
    else if !call.isEndOfFile then Nothing
    else Whole(tools, kind, Pending(buffers, kind) + Encoded(tools, call.chunk), call.appEnv)
  }

  function Afterwards(tools: Tools, buffers: Buffers, call: Call): Buffers {
    var kind := BufferedAs(call);
    if kind == Other then buffers
    else if call.isEndOfFile then buffers - {Key(kind)}
    else if call.chunk == NoChunk then buffers
    else buffers[Key(kind) := Pending(buffers, kind) + Encoded(tools, call.chunk)]
  }

  class Hook {
    const tools: Tools
    var fileBufferByPath: Buffers

    constructor (tools: Tools)
      ensures this.tools == tools && fileBufferByPath == map[]
    {
      this.tools := tools;
      fileBufferByPath := map[];
    }

    method Transform(call: Call) returns (output: Output)
      modifies this
      ensures output == Answer(tools, old(fileBufferByPath), call)
      ensures fileBufferByPath == Afterwards(tools, old(fileBufferByPath), call)
    {
      hide Normalize, Redacted, CanonicalEas, KindOf;
      if call.appEnv == "" {
        return Unchanged(call.chunk);
      }
      var kind := KindOf(call.source);
      if kind == Other {
        return Unchanged(call.chunk);
      }
      var key := Key(kind);
      if call.chunk != NoChunk {
        var bytes := Encoded(tools, call.chunk);
        assert [] + bytes == bytes;
        var buffered := if key in fileBufferByPath then fileBufferByPath[key] + bytes else bytes;
        fileBufferByPath := fileBufferByPath[key := buffered];
      }
      if !call.isEndOfFile {
        return Nothing;
      }
      var full := if key in fileBufferByPath then fileBufferByPath[key] else [];
      fileBufferByPath := fileBufferByPath - {key};
      assert full == Pending(old(fileBufferByPath), kind) + Encoded(tools, call.chunk);
      output := Canonicalized(kind, full, call.appEnv);
    }

    method Canonicalized(kind: Kind, full: seq<Byte>, appEnv: string) returns (output: Output)
      requires kind != Other
      ensures output == Whole(tools, kind, full, appEnv)
    {
      if kind == VariantFile {
        var config := tools.variantConfig(appEnv);
        return if config.Some? then TreeText(Normalize(config.value)) else FileText(full);
      }
      var parsed := tools.parse(full);
      if parsed == None {
        return FileText(full);
      }
      if kind == AppConfig {
        return TreeText(Normalize(Redacted(parsed.value)));
      }
      var canonical := CanonicalizeEasJson(tools.texts, parsed.value, appEnv);
      output := TreeText(Normalize(canonical));
    }
  }

  // ----- which sources, by name -----

  lemma PlainPath(path: string, name: string)
    requires '/' !in name && '\\' !in name
    ensures ForwardSlashes(path) == name <==> path == name
  {
    if ForwardSlashes(path) == name {
      forall i | 0 <= i < |path| ensures path[i] == name[i] {
        assert ForwardSlashes(path)[i] == name[i];
      }
    }
    if path == name {
      forall i | 0 <= i < |path| ensures path[i] == ForwardSlashes(path)[i] {}
    }
  }

  /** The sources that are buffered, each under its key, by name. */
  lemma KindByName(source: Source)
    ensures source.kind == "contents" && Trim(source.id) == "expoConfig" ==>
      KindOf(source) == AppConfig && Key(AppConfig) == "contents:expoConfig"
    ensures source.kind == "file" && source.filePath == "eas.json" ==>
      KindOf(source) == EasFile && Key(EasFile) == "eas.json"
    ensures source.kind == "file" && source.filePath == "appVariantConfig.cjs" ==>
      KindOf(source) == VariantFile && Key(VariantFile) == "appVariantConfig.cjs"
    ensures
      !(source.kind == "contents" && Trim(source.id) == "expoConfig")
      && !(source.kind == "file" && source.filePath in {"eas.json", "appVariantConfig.cjs"}) ==>
        KindOf(source) == Other
  {
    PlainPath(source.filePath, "eas.json");
    PlainPath(source.filePath, "appVariantConfig.cjs");
    hide ForwardSlashes, Trim;
  }

  /** The bytes of a chunk. */
  function Received(tools: Tools, chunk: Chunk): seq<Byte> {
    match chunk
    case NoChunk => []
    case Bytes(bytes) => bytes
    case Chars(text) => tools.utf8(text)
  }

  /**
   * What one call comes to, by the names of the sources. The last call for a source yields the sorted tree of the
   * redacted configuration, of the selected build profiles or of the resolved variant, or the bytes if that fails.
   */
  lemma CallByName(tools: Tools, buffers: Buffers, call: Call, key: string)
    requires var source := call.source;
      || (source.kind == "contents" && Trim(source.id) == "expoConfig" && key == "contents:expoConfig")
      || (source.kind == "file" && source.filePath == "eas.json" && key == "eas.json")
      || (source.kind == "file" && source.filePath == "appVariantConfig.cjs" && key == "appVariantConfig.cjs")
    requires call.appEnv != ""
    ensures var full := (if key in buffers then buffers[key] else []) + Received(tools, call.chunk);
      var answer, after := Answer(tools, buffers, call), Afterwards(tools, buffers, call);
      var parsed, variant := tools.parse(full), tools.variantConfig(call.appEnv);
      if !call.isEndOfFile then
        answer == Nothing && after == if call.chunk == NoChunk then buffers else buffers[key := full]
      else
        && after == buffers - {key}
        && answer == (
            if key == "appVariantConfig.cjs" then
              if variant.Some? then TreeText(Normalize(variant.value)) else FileText(full)
            else if parsed == None then FileText(full)
            else if key == "eas.json" then TreeText(Normalize(CanonicalEas(tools.texts, parsed.value, call.appEnv)))
            else TreeText(Normalize(Redacted(parsed.value))))
  {
    KindByName(call.source);
    hide KindOf, Normalize, Redacted, CanonicalEas, Trim;
  }

  /** Any other source, and any source without an APP_ENV, passes through untouched. */
  lemma OthersPassThrough(tools: Tools, buffers: Buffers, call: Call)
    requires var source := call.source;
      || call.appEnv == ""
      || !((source.kind == "contents" && Trim(source.id) == "expoConfig")
           || (source.kind == "file" && source.filePath in {"eas.json", "appVariantConfig.cjs"}))
    ensures Answer(tools, buffers, call) == Unchanged(call.chunk) && Afterwards(tools, buffers, call) == buffers
  {
    KindByName(call.source);
    hide KindOf, Trim, Whole;
  }

  // ----- runs -----

  ghost function Answers(tools: Tools, buffers: Buffers, calls: seq<Call>): seq<Output>
    decreases |calls|
  {
    if calls == [] then []
    else [Answer(tools, buffers, calls[0])] + Answers(tools, Afterwards(tools, buffers, calls[0]), calls[1..])
  }

  function AfterAll(tools: Tools, buffers: Buffers, calls: seq<Call>): Buffers
    decreases |calls|
  {
    if calls == [] then buffers else AfterAll(tools, Afterwards(tools, buffers, calls[0]), calls[1..])
  }

  function AllBytes(tools: Tools, calls: seq<Call>): seq<Byte> {
    if calls == [] then [] else Encoded(tools, calls[0].chunk) + AllBytes(tools, calls[1..])
  }

  /** The calls hand over one file: they end with the end of it, and APP_ENV stays what it is. */
  ghost predicate OneFile(calls: seq<Call>, kind: Kind, appEnv: string) {
    && kind != Other && calls != []
    && (forall i :: 0 <= i < |calls| ==> BufferedAs(calls[i]) == kind && calls[i].appEnv == appEnv)
    && (forall i :: 0 <= i < |calls| ==> (calls[i].isEndOfFile <==> i == |calls| - 1))
  }

  function Silence(n: nat): (outputs: seq<Output>)
    ensures |outputs| == n && forall i :: 0 <= i < n ==> outputs[i] == Nothing
  {
    seq(n, i => Nothing)
  }

  /**
   * However a file is cut into chunks, nothing comes out before its end, then the whole; and nothing of it
   * stays behind.
   */
  lemma {:induction false} ChunksDoNotMatter(tools: Tools, buffers: Buffers, calls: seq<Call>, kind: Kind,
          appEnv: string)
    requires OneFile(calls, kind, appEnv)
    ensures Answers(tools, buffers, calls)
      == Silence(|calls| - 1) + [Whole(tools, kind, Pending(buffers, kind) + AllBytes(tools, calls), appEnv)]
    ensures AfterAll(tools, buffers, calls) == buffers - {Key(kind)}
    decreases |calls|
  {
    var call, rest := calls[0], calls[1..];
    var next := Afterwards(tools, buffers, call);
    if rest == [] {
      LastChunk(tools, buffers, call, kind, appEnv);
      assert calls == [call];
    } else {
      LaterChunks(calls, kind, appEnv);
      ChunkIsKept(tools, buffers, call, kind);
      hide *;
      ChunksDoNotMatter(tools, next, rest, kind, appEnv);
      AllUnfold(tools, buffers, calls);
      Regroup(Pending(buffers, kind), Encoded(tools, call.chunk), AllBytes(tools, rest));
      var whole := Whole(tools, kind, Pending(buffers, kind) + AllBytes(tools, calls), appEnv);
      assert Answers(tools, buffers, calls) == [Nothing] + (Silence(|rest| - 1) + [whole]);
      LongerSilence(|rest| - 1, whole);
    }
  }

  lemma Regroup(a: seq<Byte>, b: seq<Byte>, c: seq<Byte>)
    ensures (a + b) + c == a + (b + c)
  {}

  lemma LongerSilence(n: nat, output: Output)
    ensures [Nothing] + (Silence(n) + [output]) == Silence(n + 1) + [output]
  {}

  lemma AllUnfold(tools: Tools, buffers: Buffers, calls: seq<Call>)
    requires calls != []
    ensures var next := Afterwards(tools, buffers, calls[0]);
      && AllBytes(tools, calls) == Encoded(tools, calls[0].chunk) + AllBytes(tools, calls[1..])
      && Answers(tools, buffers, calls) == [Answer(tools, buffers, calls[0])] + Answers(tools, next, calls[1..])
      && AfterAll(tools, buffers, calls) == AfterAll(tools, next, calls[1..])
  {
    hide Afterwards, Answer, Encoded;
  }

  lemma LastChunk(tools: Tools, buffers: Buffers, call: Call, kind: Kind, appEnv: string)
    requires OneFile([call], kind, appEnv)
    ensures Answers(tools, buffers, [call])
      == Silence(0) + [Whole(tools, kind, Pending(buffers, kind) + AllBytes(tools, [call]), appEnv)]
    ensures AfterAll(tools, buffers, [call]) == buffers - {Key(kind)}
  {
    assert [call][0] == call;
    hide Whole, BufferedAs, Encoded, Pending;
    assert AllBytes(tools, [call]) == Encoded(tools, call.chunk);
  }

  lemma LaterChunks(calls: seq<Call>, kind: Kind, appEnv: string)
    requires OneFile(calls, kind, appEnv) && |calls| > 1
    ensures OneFile(calls[1..], kind, appEnv)
    ensures BufferedAs(calls[0]) == kind != Other && !calls[0].isEndOfFile
  {
    assert forall i :: 0 <= i < |calls[1..]| ==> calls[1..][i] == calls[i + 1];
  }

  lemma ChunkIsKept(tools: Tools, buffers: Buffers, call: Call, kind: Kind)
    requires kind != Other && BufferedAs(call) == kind && !call.isEndOfFile
    ensures Answer(tools, buffers, call) == Nothing
    ensures var next := Afterwards(tools, buffers, call);
      && Pending(next, kind) == Pending(buffers, kind) + Encoded(tools, call.chunk)
      && next - {Key(kind)} == buffers - {Key(kind)}
  {
    hide BufferedAs;
  }

  /** So two ways of cutting up the same bytes end in the same output. */
  lemma SameBytesSameOutput(tools: Tools, buffers: Buffers, a: seq<Call>, b: seq<Call>, kind: Kind, appEnv: string)
    requires OneFile(a, kind, appEnv) && OneFile(b, kind, appEnv) && AllBytes(tools, a) == AllBytes(tools, b)
    ensures |Answers(tools, buffers, a)| == |a| && |Answers(tools, buffers, b)| == |b|
    ensures Answers(tools, buffers, a)[|a| - 1] == Answers(tools, buffers, b)[|b| - 1]
    ensures AfterAll(tools, buffers, a) == AfterAll(tools, buffers, b)
  {
    ChunksDoNotMatter(tools, buffers, a, kind, appEnv);
    ChunksDoNotMatter(tools, buffers, b, kind, appEnv);
  }

  // ----- several files at once -----

  function Select(calls: seq<Call>, kind: Kind): seq<Call> {
    if calls == [] then []
    else (if BufferedAs(calls[0]) == kind then [calls[0]] else []) + Select(calls[1..], kind)
  }

  /** The answers to the calls of one kind. */
  ghost function AnswersTo(tools: Tools, buffers: Buffers, calls: seq<Call>, kind: Kind): seq<Output>
    decreases |calls|
  {
    if calls == [] then []
    else
      (if BufferedAs(calls[0]) == kind then [Answer(tools, buffers, calls[0])] else [])
      + AnswersTo(tools, Afterwards(tools, buffers, calls[0]), calls[1..], kind)
  }

  lemma OnlyItsOwnBuffer(tools: Tools, a: Buffers, b: Buffers, call: Call, kind: Kind)
    requires kind != Other && Pending(a, kind) == Pending(b, kind)
    ensures BufferedAs(call) == kind ==>
      && Answer(tools, a, call) == Answer(tools, b, call)
      && Pending(Afterwards(tools, a, call), kind) == Pending(Afterwards(tools, b, call), kind)
    ensures BufferedAs(call) != kind ==> Pending(Afterwards(tools, a, call), kind) == Pending(a, kind)
  {
    hide Whole, BufferedAs;
  }

  /** Files that arrive interleaved do not disturb each other: each is answered as if it came alone. */
  lemma {:induction false} FilesDoNotMix(tools: Tools, buffers: Buffers, alone: Buffers, calls: seq<Call>, kind: Kind)
    requires kind != Other && Pending(buffers, kind) == Pending(alone, kind)
    ensures AnswersTo(tools, buffers, calls, kind) == Answers(tools, alone, Select(calls, kind))
    ensures Pending(AfterAll(tools, buffers, calls), kind) == Pending(AfterAll(tools, alone, Select(calls, kind)), kind)
    decreases |calls|
  {
    if calls != [] {
      var call, rest := calls[0], calls[1..];
      OnlyItsOwnBuffer(tools, buffers, alone, call, kind);
      hide Answer, Afterwards, Pending, BufferedAs;
      if BufferedAs(call) == kind {
        FilesDoNotMix(tools, Afterwards(tools, buffers, call), Afterwards(tools, alone, call), rest, kind);
        assert Select(calls, kind)[1..] == Select(rest, kind);
      } else {
        FilesDoNotMix(tools, Afterwards(tools, buffers, call), alone, rest, kind);
        assert Select(calls, kind) == Select(rest, kind);
      }
    }
  }
}
