/**
 * Quoting of command lines for cmd.exe and the C runtime (apps/server/scripts/runCommand.ts).
 *
 * The escape functions follow their regular expressions literally. Their partner is the reader:
 * cmd.exe splits off the command and makes one caret pass over the rest, then come the rules of
 * Microsoft's "Parsing C command-line arguments".
 */
module CommandQuoting {
  import opened Options

  const BACKSLASH := '\\'
  const QUOTE := '\"'

  // ---- The writer ----

  predicate IsMeta(c: char) {
    c in "()][%!^\"`<>&|;, *?"
  }

  /** Puts a caret before every character that is special to cmd.exe. */
  function Careted(s: string): string {
    if s == "" then ""
    else (if IsMeta(s[0]) then ['^', s[0]] else [s[0]]) + Careted(s[1..])
  }

  /**
   * The first replacement. Its lookahead captures one backslash, if there is one, and does not
   * backtrack; so only a backslash directly before a quote is doubled.
   */
  function EscapeQuotes(s: string): string {
    if s == "" then ""
    else if s[0] == BACKSLASH && |s| > 1 && s[1] == QUOTE then
      [BACKSLASH, BACKSLASH, BACKSLASH, QUOTE] + EscapeQuotes(s[2..])
    else if s[0] == QUOTE then [BACKSLASH, QUOTE] + EscapeQuotes(s[1..])
    else [s[0]] + EscapeQuotes(s[1..])
  }

  /** The second replacement: one backslash at the end is doubled. */
  function DoubleLast(s: string): string {
    if s != "" && s[|s| - 1] == BACKSLASH then s + [BACKSLASH] else s
  }

  function Quoted(arg: string): string {
    [QUOTE] + DoubleLast(EscapeQuotes(arg)) + [QUOTE]
  }

  function EscapeArgument(arg: string): string {
    Careted(Quoted(arg))
  }

  function EscapeCommand(command: string): string {
    Careted(command)
  }

  /** Words with a space before each. */
  function Trailing(words: seq<string>): string {
    if words == [] then "" else " " + words[0] + Trailing(words[1..])
  }

  function Join(words: seq<string>): string {
    if words == [] then "" else words[0] + Trailing(words[1..])
  }

  function Map(f: string -> string, words: seq<string>): seq<string> {
    if words == [] then [] else [f(words[0])] + Map(f, words[1..])
  }

  /** The last argument given to cmd.exe, after /d /s /c. */
  function ShimCommandLine(command: string, args: seq<string>): string {
    [QUOTE] + Join([EscapeCommand(command)] + Map(EscapeArgument, args)) + [QUOTE]
  }

  // ---- The reader ----

  /** Under /s, cmd.exe strips the first and the last quote. */
  function StripOuterQuotes(s: string): string {
    if |s| >= 2 && s[0] == QUOTE && s[|s| - 1] == QUOTE then s[1..|s| - 1] else s
  }

  /** Characters that would split or redirect a command if cmd.exe met them unescaped. */
  predicate IsOperator(c: char) {
    c in "&|<>()"
  }

  /** One caret pass; nothing if an operator takes effect. Quotes suspend both carets and operators. */
  function CaretPass(s: string, inQuotes: bool): Option<string> {
    if s == "" then Some("")
    else if s[0] == '^' && !inQuotes then
      if |s| == 1 then Some("") else Prefixed(s[1], CaretPass(s[2..], false))
    else if s[0] == QUOTE then Prefixed(QUOTE, CaretPass(s[1..], !inQuotes))
    else if IsOperator(s[0]) && !inQuotes then None
    else Prefixed(s[0], CaretPass(s[1..], inQuotes))
  }

  function Prefixed(c: char, rest: Option<string>): Option<string> {
    match rest
    case None => None
    case Some(text) => Some([c] + text)
  }

  /** What cmd.exe skips before the name of a command: separators, and the sign that turns its echo off. */
  predicate IsLead(c: char) {
    c in "@ \t=,;"
  }

  function SkipLead(s: string): string {
    if s != "" && IsLead(s[0]) then SkipLead(s[1..]) else s
  }

  /** Where cmd.exe ends the name: at what separates words, starts a switch or starts another command. */
  predicate IsBreak(c: char) {
    c in " \t=,;/" || IsOperator(c)
  }

  /** The command to run, carets removed, and the rest of the line as it is. */
  function SplitCommand(s: string, inQuotes: bool): (string, string) {
    if s == "" then ("", "")
    else if s[0] == '^' && !inQuotes then
      if |s| == 1 then ("", "") else LongerName(s[1], SplitCommand(s[2..], false))
    else if s[0] == QUOTE then LongerName(QUOTE, SplitCommand(s[1..], !inQuotes))
    else if IsBreak(s[0]) && !inQuotes then ("", s)
    else LongerName(s[0], SplitCommand(s[1..], inQuotes))
  }

  function LongerName(c: char, split: (string, string)): (string, string) {
    ([c] + split.0, split.1)
  }

  function Backslashes(s: string): nat {
    if s != "" && s[0] == BACKSLASH then 1 + Backslashes(s[1..]) else 0
  }

  function Repeat(c: char, n: nat): string {
    if n == 0 then "" else [c] + Repeat(c, n - 1)
  }

  predicate IsSpace(c: char) {
    c == ' ' || c == '\t'
  }

  lemma {:induction false} RunBounds(s: string)
    ensures Backslashes(s) <= |s|
    ensures Backslashes(s) < |s| ==> s[Backslashes(s)] != BACKSLASH
    ensures s[..Backslashes(s)] == Repeat(BACKSLASH, Backslashes(s))
  {
    if s != "" && s[0] == BACKSLASH {
      var t := s[1..];
      var n := Backslashes(t);
      RunBounds(t);
      assert Repeat(BACKSLASH, n + 1) == [BACKSLASH] + Repeat(BACKSLASH, n);
      hide Repeat;
      assert s[..n + 1] == [BACKSLASH] + t[..n];
    }
  }

  /** The arguments of a command line; `current` is the argument being read, if one has begun. */
  function Parse(s: string, quoted: bool, current: Option<string>): seq<string>
    decreases |s|
  {
    var soFar := if current.Some? then current.value else "";
    if s == "" then
      if current.Some? then [current.value] else []
    else if s[0] == BACKSLASH then
      RunBounds(s);
      var n := Backslashes(s);
      if n < |s| && s[n] == QUOTE then
        if n % 2 == 1 then Parse(s[n + 1..], quoted, Some(soFar + Repeat(BACKSLASH, n / 2) + [QUOTE]))
        else Parse(s[n..], quoted, Some(soFar + Repeat(BACKSLASH, n / 2)))
      else Parse(s[n..], quoted, Some(soFar + Repeat(BACKSLASH, n)))
    else if s[0] == QUOTE then
      if quoted && |s| > 1 && s[1] == QUOTE then Parse(s[2..], true, Some(soFar + [QUOTE]))
      else Parse(s[1..], !quoted, Some(soFar))
    else if IsSpace(s[0]) && !quoted then
      (if current.Some? then [current.value] else []) + Parse(s[1..], false, None)
    else Parse(s[1..], quoted, Some(soFar + [s[0]]))
  }

  /** The command that cmd.exe /s /c runs on a line, and the arguments that the program behind it reads. */
  function Received(line: string): Option<(string, seq<string>)> {
    var (command, rest) := SplitCommand(SkipLead(StripOuterQuotes(line)), false);
    match CaretPass(rest, false)
    case None => None
    case Some(text) => Some((command, Parse(text, false, None)))
  }
}
