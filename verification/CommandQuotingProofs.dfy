/** When what EscapeArgument writes is read back unchanged: exactly for the faithful argument lists. */
module CommandQuotingProofs {
  import opened Options
  import opened CommandQuoting

  lemma Regroup(a: string, b: string, c: string)
    ensures a + b + c == a + (b + c)
  {}

  // ---- Carets ----

  /** The caret pass undoes the carets, and no operator in the text ever takes effect. */
  lemma CaretUndone(c: char, rest: string)
    ensures CaretPass((if IsMeta(c) then ['^', c] else [c]) + rest, false) == Prefixed(c, CaretPass(rest, false))
  {
    if IsMeta(c) {
      assert (['^', c] + rest)[2..] == rest;
    } else {
      assert ([c] + rest)[1..] == rest;
      assert !IsOperator(c) && c != '^' && c != QUOTE;
    }
  }

  lemma {:induction false} CaretsUndone(s: string, rest: string)
    ensures CaretPass(Careted(s) + rest, false) ==
      (match CaretPass(rest, false) case None => None case Some(t) => Some(s + t))
  {
    hide CaretPass, IsMeta;
    if s == "" {
      assert Careted(s) + rest == rest;
      assert CaretPass(rest, false).Some? ==> s + CaretPass(rest, false).value == CaretPass(rest, false).value;
    } else {
      CaretsUndone(s[1..], rest);
      CaretUndone(s[0], Careted(s[1..]) + rest);
      Regroup(if IsMeta(s[0]) then ['^', s[0]] else [s[0]], Careted(s[1..]), rest);
      if CaretPass(rest, false).Some? {
        assert s == [s[0]] + s[1..];
        Regroup([s[0]], s[1..], CaretPass(rest, false).value);
      }
    }
  }

  /** Character by character: these characters get a caret, and no others change. */
  lemma {:induction false} CaretedByCharacter(s: string, c: char)
    ensures Careted(s + [c]) == Careted(s) + (if c in "()[]%!^\"`<>&|;, *?" then ['^', c] else [c])
    ensures Careted("") == ""
  {
    if s == "" {
      assert s + [c] == [c] && [c][1..] == "";
    } else {
      CaretedByCharacter(s[1..], c);
      assert (s + [c])[0] == s[0] && (s + [c])[1..] == s[1..] + [c];
    }
  }

  lemma SpacePasses(s: string)
    ensures CaretPass(" " + s, false) == Prefixed(' ', CaretPass(s, false))
  {
    assert (" " + s)[1..] == s;
  }

  lemma {:induction false} TrailingCaretsUndone(args: seq<string>)
    ensures CaretPass(Trailing(Map(EscapeArgument, args)), false) == Some(Trailing(Map(Quoted, args)))
  {
    hide CaretPass, Careted, Quoted;
    if args == [] {
      assert CaretPass("", false) == Some("") by { EmptyPasses(); }
    } else {
      var word := Quoted(args[0]);
      var tail, text := Trailing(Map(EscapeArgument, args[1..])), Trailing(Map(Quoted, args[1..]));
      TrailingCaretsUndone(args[1..]);
      CaretsUndone(word, tail);
      SpacePasses(Careted(word) + tail);
      assert Trailing(Map(EscapeArgument, args)) == " " + (Careted(word) + tail);
      assert Trailing(Map(Quoted, args)) == " " + (word + text);
    }
  }

  lemma EmptyPasses()
    ensures CaretPass("", false) == Some("")
  {
  }

  lemma StrippedLine(command: string, args: seq<string>)
    ensures StripOuterQuotes(ShimCommandLine(command, args)) == Careted(command) + Trailing(Map(EscapeArgument, args))
  {
    var words := [EscapeCommand(command)] + Map(EscapeArgument, args);
    var line := ShimCommandLine(command, args);
    assert words[1..] == Map(EscapeArgument, args);
    assert line[1..|line| - 1] == Join(words);
  }

  /** What reaches the C runtime: the command, then the quoted arguments, each after one space. */
  lemma ShimReachesRuntime(command: string, args: seq<string>)
    ensures CaretPass(StripOuterQuotes(ShimCommandLine(command, args)), false) ==
      Some(command + Trailing(Map(Quoted, args)))
  {
    StrippedLine(command, args);
    CaretsUndone(command, Trailing(Map(EscapeArgument, args)));
    TrailingCaretsUndone(args);
  }

  // ---- What is written, run of backslashes by run ----

  /** The text after the opening quote, read off the runs of backslashes; the closing quote included. */
  function Emitted(s: string): string
    decreases |s|
  {
    RunBounds(s);
    var n := Backslashes(s);
    if n == |s| then Repeat(BACKSLASH, if n == 0 then 0 else n + 1) + [QUOTE]
    else if s[n] == QUOTE then Repeat(BACKSLASH, if n == 0 then 1 else n + 2) + [QUOTE] + Emitted(s[n + 1..])
    else Repeat(BACKSLASH, n) + [s[n]] + Emitted(s[n + 1..])
  }

  lemma {:induction false} RunAppends(n: nat, t: string)
    requires t != "" ==> t[0] != BACKSLASH
    ensures Backslashes(Repeat(BACKSLASH, n) + t) == n
    ensures |Repeat(BACKSLASH, n)| == n && (Repeat(BACKSLASH, n) + t)[n..] == t
  {
    if n > 0 {
      RunAppends(n - 1, t);
      assert Repeat(BACKSLASH, n) + t == [BACKSLASH] + (Repeat(BACKSLASH, n - 1) + t);
      assert (Repeat(BACKSLASH, n) + t)[1..] == Repeat(BACKSLASH, n - 1) + t;
      assert (Repeat(BACKSLASH, n) + t)[n..] == (Repeat(BACKSLASH, n - 1) + t)[n - 1..];
    } else {
      assert Repeat(BACKSLASH, n) + t == t;
    }
  }

  lemma {:induction false} RepeatGrows(n: nat)
    ensures Repeat(BACKSLASH, n + 1) == Repeat(BACKSLASH, n) + [BACKSLASH] == [BACKSLASH] + Repeat(BACKSLASH, n)
  {
    if n > 0 {
      RepeatGrows(n - 1);
    }
  }

  lemma DoubleLastAppends(a: string, b: string)
    requires b != "" || a == "" || a[|a| - 1] != BACKSLASH
    ensures DoubleLast(a + b) == a + DoubleLast(b)
  {
    if b == "" {
      assert a + b == a;
    } else {
      assert (a + b)[|a + b| - 1] == b[|b| - 1];
    }
  }

  lemma EscapeOne(c: char, t: string)
    requires c != QUOTE && (c == BACKSLASH && t != "" ==> t[0] != QUOTE)
    ensures EscapeQuotes([c] + t) == [c] + EscapeQuotes(t)
  {
    assert ([c] + t)[1..] == t;
  }

  /** Escaping the backslashes before anything but a quote keeps them. */
  lemma {:induction false} EscapeRun(n: nat, t: string)
    requires t == "" || t[0] != QUOTE
    ensures EscapeQuotes(Repeat(BACKSLASH, n) + t) == Repeat(BACKSLASH, n) + EscapeQuotes(t)
  {
    hide EscapeQuotes;
    if n == 0 {
      assert Repeat(BACKSLASH, n) + t == t;
    } else {
      var u := Repeat(BACKSLASH, n - 1) + t;
      EscapeRun(n - 1, t);
      EscapeOne(BACKSLASH, u);
      assert Repeat(BACKSLASH, n) + t == [BACKSLASH] + u;
      assert [BACKSLASH] + (Repeat(BACKSLASH, n - 1) + EscapeQuotes(t)) == Repeat(BACKSLASH, n) + EscapeQuotes(t);
    }
  }

  lemma {:induction false} EscapeRunBeforeQuote(n: nat, t: string)
    ensures EscapeQuotes(Repeat(BACKSLASH, n) + [QUOTE] + t) ==
      Repeat(BACKSLASH, if n == 0 then 1 else n + 2) + [QUOTE] + EscapeQuotes(t)
  {
    var s := Repeat(BACKSLASH, n) + [QUOTE] + t;
    if n == 0 {
      assert s == [QUOTE] + t && s[1..] == t;
      assert Repeat(BACKSLASH, 1) == [BACKSLASH];
    } else if n == 1 {
      assert Repeat(BACKSLASH, 1) == [BACKSLASH];
      assert s == [BACKSLASH, QUOTE] + t && s[2..] == t;
      assert Repeat(BACKSLASH, 3) == [BACKSLASH, BACKSLASH, BACKSLASH];
    } else {
      var u := Repeat(BACKSLASH, n - 1) + [QUOTE] + t;
      EscapeRunBeforeQuote(n - 1, t);
      assert s == [BACKSLASH] + u && s[1..] == u;
      assert u[0] == BACKSLASH;
      assert EscapeQuotes(s) == [BACKSLASH] + EscapeQuotes(u);
      hide EscapeQuotes;
      assert Repeat(BACKSLASH, n + 2) == [BACKSLASH] + Repeat(BACKSLASH, n + 1);
      Regroup([BACKSLASH], Repeat(BACKSLASH, n + 1) + [QUOTE], EscapeQuotes(t));
      Regroup([BACKSLASH], Repeat(BACKSLASH, n + 1), [QUOTE]);
    }
  }

  lemma EscapeAtEnd(n: nat)
    ensures DoubleLast(EscapeQuotes(Repeat(BACKSLASH, n))) + [QUOTE] ==
      Repeat(BACKSLASH, if n == 0 then 0 else n + 1) + [QUOTE]
  {
    EscapeRun(n, "");
    assert Repeat(BACKSLASH, n) + "" == Repeat(BACKSLASH, n);
    if n > 0 {
      RepeatGrows(n - 1);
      RepeatGrows(n);
    }
  }

  lemma EscapePrefix(a: string, t: string)
    requires a != "" && a[|a| - 1] != BACKSLASH
    ensures DoubleLast(a + EscapeQuotes(t)) + [QUOTE] == a + (DoubleLast(EscapeQuotes(t)) + [QUOTE])
  {
    hide EscapeQuotes;
    DoubleLastAppends(a, EscapeQuotes(t));
  }

  /** The regular expressions, seen as what they do to each run of backslashes. */
  lemma {:induction false} EmittedIsEscaped(s: string)
    ensures DoubleLast(EscapeQuotes(s)) + [QUOTE] == Emitted(s)
    decreases |s|
  {
    hide EscapeQuotes, DoubleLast, Repeat;
    RunBounds(s);
    var n := Backslashes(s);
    var run := Repeat(BACKSLASH, n);
    if n == |s| {
      assert s == run;
      EscapeAtEnd(n);
    } else {
      var t := s[n + 1..];
      EmittedIsEscaped(t);
      if s[n] == QUOTE {
        EscapeRunBeforeQuote(n, t);
        assert s == run + [QUOTE] + t;
        EscapePrefix(Repeat(BACKSLASH, if n == 0 then 1 else n + 2) + [QUOTE], t);
      } else {
        assert s == run + ([s[n]] + t);
        EscapeRun(n, [s[n]] + t);
        EscapeOne(s[n], t);
        assert run + ([s[n]] + EscapeQuotes(t)) == (run + [s[n]]) + EscapeQuotes(t);
        EscapePrefix(run + [s[n]], t);
      }
    }
  }

  // ---- Reading it back ----

  /** No run of two or more backslashes directly precedes a quote or the end. */
  predicate Clean(s: string)
    decreases |s|
  {
    RunBounds(s);
    var n := Backslashes(s);
    if n == |s| then n <= 1
    else (s[n] == QUOTE ==> n <= 1) && Clean(s[n + 1..])
  }

  /** As Clean, but the argument may end in two backslashes and a quote. */
  predicate CleanOrOpenEnded(s: string)
    decreases |s|
  {
    RunBounds(s);
    var n := Backslashes(s);
    if n == |s| then n <= 1
    else if s[n] == QUOTE && n > 1 then n == 2 && n + 1 == |s|
    else CleanOrOpenEnded(s[n + 1..])
  }

  /**
   * The argument lists that survive. The closing quote of an open-ended last argument is read as part
   * of a doubled quote, and the end of the line closes it.
   */
  predicate Faithful(args: seq<string>) {
    if args == [] then true
    else if |args| == 1 then CleanOrOpenEnded(args[0])
    else Clean(args[0]) && Faithful(args[1..])
  }

  lemma ParseRunBeforeQuote(n: nat, t: string, quoted: bool, current: string)
    ensures Parse(Repeat(BACKSLASH, n) + [QUOTE] + t, quoted, Some(current)) ==
      if n % 2 == 1 then Parse(t, quoted, Some(current + Repeat(BACKSLASH, n / 2) + [QUOTE]))
      else Parse([QUOTE] + t, quoted, Some(current + Repeat(BACKSLASH, n / 2)))
  {
    var s := Repeat(BACKSLASH, n) + ([QUOTE] + t);
    assert Repeat(BACKSLASH, n) + [QUOTE] + t == s;
    RunAppends(n, [QUOTE] + t);
    if n == 0 {
      assert s == [QUOTE] + t && current + Repeat(BACKSLASH, 0) == current;
    } else {
      assert s[0] == BACKSLASH && s[n] == QUOTE;
      assert s[n + 1..] == s[n..][1..] == t;
    }
  }

  lemma ParseRunBeforeOther(n: nat, t: string, quoted: bool, current: string)
    requires t != "" ==> t[0] != BACKSLASH && t[0] != QUOTE
    ensures Parse(Repeat(BACKSLASH, n) + t, quoted, Some(current)) ==
      Parse(t, quoted, Some(current + Repeat(BACKSLASH, n)))
  {
    var s := Repeat(BACKSLASH, n) + t;
    RunAppends(n, t);
    if n == 0 {
      assert s == t && current + Repeat(BACKSLASH, 0) == current;
    } else {
      assert s[0] == BACKSLASH && (n < |s| ==> s[n] == t[0]);
    }
  }

  lemma ParseOther(c: char, t: string, quoted: bool, current: string)
    requires c != BACKSLASH && c != QUOTE && (quoted || !IsSpace(c))
    ensures Parse([c] + t, quoted, Some(current)) == Parse(t, quoted, Some(current + [c]))
  {
    assert ([c] + t)[1..] == t;
  }

  lemma ParseQuote(t: string, quoted: bool, current: string)
    ensures Parse([QUOTE] + t, quoted, Some(current)) ==
      if quoted && t != "" && t[0] == QUOTE then Parse(t[1..], true, Some(current + [QUOTE]))
      else Parse(t, !quoted, Some(current))
  {
    assert ([QUOTE] + t)[1..] == t;
    assert t != "" ==> ([QUOTE] + t)[2..] == t[1..];
  }

  /** A run of backslashes and the character behind it, as they come back when all is well. */
  lemma ParseUnit(n: nat, c: char, t: string, current: string)
    requires c != BACKSLASH && (c == QUOTE ==> n <= 1)
    ensures
      Parse(Repeat(BACKSLASH, if c != QUOTE then n else if n == 0 then 1 else n + 2) + [c] + t, true, Some(current)) ==
      Parse(t, true, Some(current + Repeat(BACKSLASH, n) + [c]))
  {
    hide Parse;
    if c == QUOTE {
      ParseRunBeforeQuote(if n == 0 then 1 else 3, t, true, current);
      assert Repeat(BACKSLASH, 1) == [BACKSLASH] && Repeat(BACKSLASH, 0) == "";
    } else {
      assert Repeat(BACKSLASH, n) + [c] + t == Repeat(BACKSLASH, n) + ([c] + t);
      ParseRunBeforeOther(n, [c] + t, true, current);
      ParseOther(c, t, true, current + Repeat(BACKSLASH, n));
    }
  }

  lemma ParseEnd(n: nat, rest: string, current: string)
    requires n <= 1 && (rest != "" ==> rest[0] != QUOTE)
    ensures Parse(Repeat(BACKSLASH, if n == 0 then 0 else n + 1) + [QUOTE] + rest, true, Some(current)) ==
      Parse(rest, false, Some(current + Repeat(BACKSLASH, n)))
  {
    hide Parse;
    var m := if n == 0 then 0 else 2;
    ParseRunBeforeQuote(m, rest, true, current);
    ParseQuote(rest, true, current + Repeat(BACKSLASH, n));
    assert m / 2 == n;
  }

  lemma EmittedEnd(s: string, rest: string)
    requires Backslashes(s) == |s|
    ensures s == Repeat(BACKSLASH, |s|)
    ensures Emitted(s) + rest == Repeat(BACKSLASH, if s == "" then 0 else |s| + 1) + ([QUOTE] + rest)
  {
    RunBounds(s);
    assert s[..|s|] == s;
    var run := Repeat(BACKSLASH, if s == "" then 0 else |s| + 1);
    assert Emitted(s) == run + [QUOTE];
    hide *;
    Regroup(run, [QUOTE], rest);
  }

  lemma EmittedUnit(s: string, rest: string)
    requires Backslashes(s) < |s|
    ensures var n, t := Backslashes(s), s[Backslashes(s) + 1..];
      && s == Repeat(BACKSLASH, n) + [s[n]] + t && s[n] != BACKSLASH
      && Emitted(s) + rest ==
        Repeat(BACKSLASH, if s[n] != QUOTE then n else if n == 0 then 1 else n + 2) + [s[n]] + (Emitted(t) + rest)
  {
    RunBounds(s);
    var n := Backslashes(s);
    assert s == s[..n] + [s[n]] + s[n + 1..];
  }

  lemma {:induction false} ParseClean(s: string, current: string, rest: string)
    requires Clean(s) && (rest != "" ==> rest[0] != QUOTE)
    ensures Parse(Emitted(s) + rest, true, Some(current)) == Parse(rest, false, Some(current + s))
    decreases |s|
  {
    hide Parse, Repeat, Emitted, Backslashes;
    RunBounds(s);
    var n := Backslashes(s);
    var run := Repeat(BACKSLASH, n);
    if n == |s| {
      EmittedEnd(s, rest);
      Regroup(Repeat(BACKSLASH, if n == 0 then 0 else n + 1), [QUOTE], rest);
      ParseEnd(n, rest, current);
    } else {
      var t := s[n + 1..];
      EmittedUnit(s, rest);
      ParseUnit(n, s[n], Emitted(t) + rest, current);
      ParseClean(t, current + run + [s[n]], rest);
      Regroup(current + run, [s[n]], t);
      Regroup(current, run, [s[n]] + t);
      Regroup(run, [s[n]], t);
    }
  }

  /** Whatever follows, the argument being read keeps what it has. */
  lemma {:induction false} HeadGrows(s: string, quoted: bool, current: string)
    ensures var r := Parse(s, quoted, Some(current)); r != [] && current <= r[0]
    decreases |s|
  {
    RunBounds(s);
    if s == "" {
    } else if s[0] == BACKSLASH {
      var n := Backslashes(s);
      if n < |s| && s[n] == QUOTE {
        if n % 2 == 1 {
          HeadGrows(s[n + 1..], quoted, current + Repeat(BACKSLASH, n / 2) + [QUOTE]);
        } else {
          HeadGrows(s[n..], quoted, current + Repeat(BACKSLASH, n / 2));
        }
      } else {
        HeadGrows(s[n..], quoted, current + Repeat(BACKSLASH, n));
      }
    } else if s[0] == QUOTE {
      if quoted && |s| > 1 && s[1] == QUOTE {
        HeadGrows(s[2..], true, current + [QUOTE]);
      } else {
        HeadGrows(s[1..], !quoted, current);
      }
    } else if quoted || !IsSpace(s[0]) {
      HeadGrows(s[1..], quoted, current + [s[0]]);
    }
  }

  // ---- What goes wrong otherwise: backslashes are lost ----

  function Count(s: string): nat {
    if s == "" then 0 else (if s[0] == BACKSLASH then 1 else 0) + Count(s[1..])
  }

  function CountAll(words: seq<string>): nat {
    if words == [] then 0 else Count(words[0]) + CountAll(words[1..])
  }

  /** How many backslashes a command line yields; quoting does not matter to that. */
  function Yield(s: string): nat
    decreases |s|
  {
    if s == "" then 0
    else if s[0] != BACKSLASH then Yield(s[1..])
    else
      RunBounds(s);
      var n := Backslashes(s);
      (if n < |s| && s[n] == QUOTE then n / 2 else n) + Yield(s[n..])
  }

  lemma {:induction false} CountAppends(a: string, b: string)
    ensures Count(a + b) == Count(a) + Count(b)
  {
    if a == "" {
      assert a + b == b;
    } else {
      CountAppends(a[1..], b);
      assert (a + b)[1..] == a[1..] + b;
    }
  }

  lemma {:induction false} CountRun(n: nat)
    ensures Count(Repeat(BACKSLASH, n)) == n
  {
    if n > 0 {
      CountRun(n - 1);
    }
  }

  lemma {:induction false} ParseYields(s: string, quoted: bool, current: Option<string>)
    ensures CountAll(Parse(s, quoted, current)) == (if current.Some? then Count(current.value) else 0) + Yield(s)
    decreases |s|
  {
    var soFar := if current.Some? then current.value else "";
    if s == "" {
    } else if s[0] == BACKSLASH {
      RunBounds(s);
      hide Repeat, Backslashes, Count, CountAll;
      assert Count("") == 0 by { CountNothing(); }
      var n := Backslashes(s);
      var half := soFar + Repeat(BACKSLASH, n / 2);
      if n < |s| && s[n] == QUOTE {
        ParseYieldsRun(s, soFar, n / 2);
        if n % 2 == 1 {
          ParseYields(s[n + 1..], quoted, Some(half + [QUOTE]));
          assert s[n..][1..] == s[n + 1..];
        } else {
          ParseYields(s[n..], quoted, Some(half));
        }
      } else {
        ParseYieldsRun(s, soFar, n);
        ParseYields(s[n..], quoted, Some(soFar + Repeat(BACKSLASH, n)));
      }
    } else if s[0] == QUOTE {
      CountAppends(soFar, [QUOTE]);
      if quoted && |s| > 1 && s[1] == QUOTE {
        ParseYields(s[2..], true, Some(soFar + [QUOTE]));
        assert s[1..][1..] == s[2..];
      } else {
        ParseYields(s[1..], !quoted, Some(soFar));
      }
    } else if IsSpace(s[0]) && !quoted {
      ParseYields(s[1..], false, None);
      var before, after := if current.Some? then [current.value] else [], Parse(s[1..], false, None);
      assert before != [] ==> (before + after)[1..] == after;
      assert before == [] ==> before + after == after;
    } else {
      CountAppends(soFar, [s[0]]);
      ParseYields(s[1..], quoted, Some(soFar + [s[0]]));
    }
  }

  lemma CountNothing()
    ensures Count("") == 0
  {}

  lemma ParseYieldsRun(s: string, soFar: string, n: nat)
    ensures Count(soFar + Repeat(BACKSLASH, n)) == Count(soFar) + n
    ensures Count(soFar + Repeat(BACKSLASH, n) + [QUOTE]) == Count(soFar) + n
  {
    CountRun(n);
    CountAppends(soFar, Repeat(BACKSLASH, n));
    CountAppends(soFar + Repeat(BACKSLASH, n), [QUOTE]);
  }

  /** How many backslashes of an argument survive. */
  function Survivors(s: string): nat
    decreases |s|
  {
    RunBounds(s);
    var n := Backslashes(s);
    if n == |s| then (if n == 0 then 0 else (n + 1) / 2)
    else (if s[n] != QUOTE then n else if n == 0 then 0 else (n + 2) / 2) + Survivors(s[n + 1..])
  }

  /** No backslash of the argument is lost. */
  predicate Mild(s: string)
    decreases |s|
  {
    RunBounds(s);
    var n := Backslashes(s);
    if n == |s| then n <= 1
    else (s[n] == QUOTE ==> n <= 2) && Mild(s[n + 1..])
  }

  lemma YieldRun(n: nat, t: string)
    requires t != "" ==> t[0] != BACKSLASH
    ensures Yield(Repeat(BACKSLASH, n) + t) == (if t != "" && t[0] == QUOTE then n / 2 else n) + Yield(t)
  {
    RunAppends(n, t);
    var s := Repeat(BACKSLASH, n) + t;
    if n == 0 {
      assert s == t;
    } else {
      assert s[0] == BACKSLASH && (n < |s| ==> s[n] == t[0]);
    }
  }

  lemma YieldOne(c: char, t: string)
    requires c != BACKSLASH
    ensures Yield([c] + t) == Yield(t)
  {
    assert ([c] + t)[1..] == t;
  }

  lemma SurvivorsUnfold(s: string)
    ensures Backslashes(s) <= |s|
    ensures var n := Backslashes(s);
      Survivors(s) ==
        if n == |s| then (if n == 0 then 0 else (n + 1) / 2)
        else (if s[n] != QUOTE then n else if n == 0 then 0 else (n + 2) / 2) + Survivors(s[n + 1..])
  {
    RunBounds(s);
    hide Repeat, Backslashes;
  }

  lemma YieldUnit(n: nat, c: char, t: string)
    requires c != BACKSLASH
    ensures Yield(Repeat(BACKSLASH, n) + ([c] + t)) == (if c == QUOTE then n / 2 else n) + Yield(t)
  {
    hide Yield, Repeat;
    YieldRun(n, [c] + t);
    YieldOne(c, t);
  }

  lemma YieldEnd(n: nat, t: string)
    ensures Yield(Repeat(BACKSLASH, n) + ([QUOTE] + t)) == n / 2 + Yield(t)
  {
    YieldUnit(n, QUOTE, t);
  }

  lemma {:induction false} EmittedYields(s: string, rest: string)
    ensures Yield(Emitted(s) + rest) == Survivors(s) + Yield(rest)
    decreases |s|
  {
    hide *;
    SurvivorsUnfold(s);
    var n := Backslashes(s);
    if n == |s| {
      EmittedEnd(s, rest);
      YieldEnd(if n == 0 then 0 else n + 1, rest);
    } else {
      var t := s[n + 1..];
      var m := if s[n] != QUOTE then n else if n == 0 then 1 else n + 2;
      EmittedUnit(s, rest);
      EmittedYields(t, rest);
      Regroup(Repeat(BACKSLASH, m), [s[n]], Emitted(t) + rest);
      YieldUnit(m, s[n], Emitted(t) + rest);
    }
  }

  lemma {:induction false} SurvivorsBound(s: string)
    ensures Survivors(s) <= Count(s)
    ensures Survivors(s) == Count(s) ==> Mild(s)
    decreases |s|
  {
    RunBounds(s);
    var n := Backslashes(s);
    CountRun(n);
    if n == |s| {
      assert s == Repeat(BACKSLASH, n);
    } else {
      var t := s[n + 1..];
      EmittedUnit(s, "");
      CountAppends(Repeat(BACKSLASH, n) + [s[n]], t);
      CountAppends(Repeat(BACKSLASH, n), [s[n]]);
      SurvivorsBound(t);
    }
  }

  // ---- What goes wrong otherwise: a quote is lost ----

  /** Once a quote has been taken for a delimiter, the argument can no longer come out right. */
  lemma {:induction false} LostQuote(s: string, current: string, rest: string)
    requires Mild(s) && (rest != "" ==> rest[0] == ' ')
    ensures var r := Parse(Emitted(s) + rest, false, Some(current)); r != [] && r[0] != current + [QUOTE] + s
    decreases |s|
  {
    hide Parse, Repeat, Emitted;
    RunBounds(s);
    var n := Backslashes(s);
    if s == "" {
      LostQuoteAtEnd(current, rest);
      EmittedEmpty();
    } else if n == 0 && s[0] == QUOTE {
      var t := s[1..];
      EmittedUnit(s, rest);
      EmptyRun();
      ParseRunBeforeQuote(1, Emitted(t) + rest, false, current);
      LostQuote(t, current + [QUOTE], rest);
      assert current + Repeat(BACKSLASH, 0) == current;
      assert s == [QUOTE] + t;
      Regroup(current + [QUOTE], [QUOTE], t);
    } else {
      WrongNext(s, current, rest);
    }
  }

  lemma EmptyRun()
    ensures Repeat(BACKSLASH, 0) == ""
  {
  }

  lemma LostQuoteAtEnd(current: string, rest: string)
    requires rest != "" ==> rest[0] == ' '
    ensures var r := Parse([QUOTE] + rest, false, Some(current)); r != [] && r[0] != current + [QUOTE] + ""
  {
    ParseQuote(rest, false, current);
    if rest == "" {
      assert |current + [QUOTE]| == |current| + 1;
    } else {
      assert rest == [' '] + rest[1..];
      ParseOther(' ', rest[1..], true, current);
      HeadGrows(rest[1..], true, current + [' ']);
      assert (current + [' '])[|current|] != (current + [QUOTE])[|current|];
    }
  }

  /** The next character to come out is not the lost quote. */
  lemma WrongNext(s: string, current: string, rest: string)
    requires s != "" && Mild(s) && !(Backslashes(s) == 0 && s[0] == QUOTE)
    ensures var r := Parse(Emitted(s) + rest, false, Some(current)); r != [] && r[0] != current + [QUOTE] + s
  {
    hide Parse;
    RunBounds(s);
    var n := Backslashes(s);
    var wanted := current + [QUOTE] + s;
    if n == 0 && IsSpace(s[0]) {
      EmittedUnit(s, rest);
      assert Emitted(s) + rest == [s[0]] + (Emitted(s[1..]) + rest);
      ParseBreak(s[0], Emitted(s[1..]) + rest, current);
      assert |wanted| > |current|;
    } else if n == 0 {
      EmittedUnit(s, rest);
      assert Emitted(s) + rest == [s[0]] + (Emitted(s[1..]) + rest);
      ParseOther(s[0], Emitted(s[1..]) + rest, false, current);
      HeadGrows(Emitted(s[1..]) + rest, false, current + [s[0]]);
      assert (current + [s[0]])[|current|] != wanted[|current|];
    } else {
      BackslashNext(s, current, rest);
      assert (current + [BACKSLASH])[|current|] != wanted[|current|];
    }
  }

  lemma ParseBreak(c: char, t: string, current: string)
    requires IsSpace(c)
    ensures Parse([c] + t, false, Some(current)) == [current] + Parse(t, false, None)
  {
    assert ([c] + t)[1..] == t;
  }

  lemma BackslashNext(s: string, current: string, rest: string)
    requires Backslashes(s) > 0
    ensures var r := Parse(Emitted(s) + rest, false, Some(current)); r != [] && current + [BACKSLASH] <= r[0]
  {
    hide Parse;
    RunBounds(s);
    var n := Backslashes(s);
    if n == |s| {
      assert Emitted(s) + rest == Repeat(BACKSLASH, n + 1) + [QUOTE] + rest;
      RunComesOut(n + 1, rest, current);
    } else {
      var tail := Emitted(s[n + 1..]) + rest;
      EmittedUnit(s, rest);
      if s[n] == QUOTE {
        RunComesOut(n + 2, tail, current);
      } else {
        assert Repeat(BACKSLASH, n) + [s[n]] + tail == Repeat(BACKSLASH, n) + ([s[n]] + tail);
        ParseRunBeforeOther(n, [s[n]] + tail, false, current);
        HeadGrows([s[n]] + tail, false, current + Repeat(BACKSLASH, n));
        assert current + Repeat(BACKSLASH, n) == current + [BACKSLASH] + Repeat(BACKSLASH, n - 1);
      }
    }
  }

  lemma RunComesOut(m: nat, t: string, current: string)
    requires m >= 2
    ensures var r := Parse(Repeat(BACKSLASH, m) + [QUOTE] + t, false, Some(current));
      r != [] && current + [BACKSLASH] <= r[0]
  {
    hide Parse;
    ParseRunBeforeQuote(m, t, false, current);
    var half := current + Repeat(BACKSLASH, m / 2);
    assert half == current + [BACKSLASH] + Repeat(BACKSLASH, m / 2 - 1);
    if m % 2 == 1 {
      HeadGrows(t, false, half + [QUOTE]);
    } else {
      HeadGrows([QUOTE] + t, false, half);
    }
  }

  lemma EmittedStart(s: string)
    requires s != ""
    ensures Emitted(s) != "" && Emitted(s)[0] != QUOTE
  {
    RunBounds(s);
  }

  lemma MildUnit(s: string)
    ensures var n := Backslashes(s);
      n <= |s| && Mild(s) == if n == |s| then n <= 1 else (s[n] == QUOTE ==> n <= 2) && Mild(s[n + 1..])
  {
    RunBounds(s);
    hide Backslashes, Repeat;
  }

  lemma CleanUnit(s: string)
    ensures var n := Backslashes(s);
      n <= |s| && Clean(s) == if n == |s| then n <= 1 else (s[n] == QUOTE ==> n <= 1) && Clean(s[n + 1..])
  {
    RunBounds(s);
    hide Backslashes, Repeat;
  }

  lemma OpenEndedUnit(s: string)
    ensures var n := Backslashes(s);
      n <= |s| && (n < |s| && !(s[n] == QUOTE && n > 1) ==> CleanOrOpenEnded(s) == CleanOrOpenEnded(s[n + 1..]))
  {
    RunBounds(s);
    hide Backslashes, Repeat;
  }

  /** Where an argument stops being clean: here, or behind its first unit. */
  lemma DirtyUnit(s: string)
    requires Mild(s) && !Clean(s)
    ensures var n := Backslashes(s);
      && n < |s| && (s[n] == QUOTE ==> n <= 2)
      && (!(s[n] == QUOTE && n == 2) ==>
        Mild(s[n + 1..]) && !Clean(s[n + 1..]) && CleanOrOpenEnded(s) == CleanOrOpenEnded(s[n + 1..]))
  {
    hide *;
    MildUnit(s);
    CleanUnit(s);
    OpenEndedUnit(s);
  }

  /** It comes back wrong, or as it was if it may and does end the line open. */
  predicate OnlyOpenEnded(s: string, current: string, rest: string) {
    var r := Parse(Emitted(s) + rest, true, Some(current));
    if rest == "" && CleanOrOpenEnded(s) then r == [current + s] else r != [] && r[0] != current + s
  }

  lemma DirtyTail(s: string, current: string, rest: string, n: nat, t: string)
    requires n == Backslashes(s) < |s| && t == s[n + 1..] && (s[n] == QUOTE ==> n <= 1)
    requires CleanOrOpenEnded(s) == CleanOrOpenEnded(t)
    requires OnlyOpenEnded(t, current + Repeat(BACKSLASH, n) + [s[n]], rest)
    ensures OnlyOpenEnded(s, current, rest)
  {
    hide Parse, Repeat, Emitted, Backslashes, CleanOrOpenEnded;
    var run := Repeat(BACKSLASH, n);
    EmittedUnit(s, rest);
    ParseUnit(n, s[n], Emitted(t) + rest, current);
    Regroup(current + run, [s[n]], t);
    Regroup(current, run, [s[n]] + t);
    Regroup(run, [s[n]], t);
  }

  /** An argument that is not clean but loses no backslash comes back wrong, unless it may end the line open. */
  lemma {:induction false} DirtyArgument(s: string, current: string, rest: string)
    requires Mild(s) && !Clean(s) && (rest != "" ==> rest[0] == ' ')
    ensures OnlyOpenEnded(s, current, rest)
    decreases |s|
  {
    DirtyUnit(s);
    var n := Backslashes(s);
    if s[n] == QUOTE && n == 2 {
      TwoBackslashesAndQuote(s, current, rest);
      OpenEndedHere(s);
      hide *;
      OnlyOpenEndedMeans(s, current, rest);
    } else {
      hide *;
      DirtyArgument(s[n + 1..], current + Repeat(BACKSLASH, n) + [s[n]], rest);
      DirtyTail(s, current, rest, n, s[n + 1..]);
    }
  }

  lemma OnlyOpenEndedMeans(s: string, current: string, rest: string)
    ensures OnlyOpenEnded(s, current, rest) ==
      var r := Parse(Emitted(s) + rest, true, Some(current));
      if rest == "" && CleanOrOpenEnded(s) then r == [current + s] else r != [] && r[0] != current + s
  {
  }

  lemma OpenEndedHere(s: string)
    requires Backslashes(s) == 2 < |s| && s[2] == QUOTE
    ensures CleanOrOpenEnded(s) == (|s| == 3)
  {
    hide Backslashes, Repeat;
    RunBounds(s);
  }

  lemma TwoBackslashesAndQuote(s: string, current: string, rest: string)
    requires Mild(s) && Backslashes(s) == 2 < |s| && s[2] == QUOTE && (rest != "" ==> rest[0] == ' ')
    ensures var r := Parse(Emitted(s) + rest, true, Some(current));
      if rest == "" && |s| == 3 then r == [current + s] else r != [] && r[0] != current + s
  {
    hide Parse, Emitted, Mild, CleanOrOpenEnded;
    var run, t := Repeat(BACKSLASH, 2), s[3..];
    var tail := Emitted(t) + rest;
    EmittedUnit(s, rest);
    assert Mild(t) by { MildTail(s); }
    ParseRunBeforeQuote(4, tail, true, current);
    ParseQuote(tail, true, current + run);
    if t == "" {
      assert Emitted("") == [QUOTE] by { EmittedEmpty(); }
      assert tail[1..] == rest;
      assert current + s == current + run + [QUOTE];
      OpenEnd(rest, current + run + [QUOTE]);
    } else {
      EmittedStart(t);
      LostQuote(t, current + run, rest);
      assert current + run + [QUOTE] + t == current + s;
    }
  }

  lemma EmittedEmpty()
    ensures Emitted("") == [QUOTE]
  {
  }

  lemma MildTail(s: string)
    requires Mild(s) && Backslashes(s) < |s|
    ensures Mild(s[Backslashes(s) + 1..])
  {
  }

  lemma OpenEnd(rest: string, current: string)
    requires rest != "" ==> rest[0] == ' '
    ensures var r := Parse(rest, true, Some(current)); if rest == "" then r == [current] else r != [] && r[0] != current
  {
    if rest != "" {
      assert rest == [' '] + rest[1..];
      ParseOther(' ', rest[1..], true, current);
      HeadGrows(rest[1..], true, current + [' ']);
    }
  }

  predicate AllMild(args: seq<string>) {
    args == [] || (Mild(args[0]) && AllMild(args[1..]))
  }

  lemma {:induction false} CleanIsMild(s: string)
    ensures Clean(s) ==> Mild(s) && CleanOrOpenEnded(s)
    ensures CleanOrOpenEnded(s) ==> Mild(s)
    decreases |s|
  {
    RunBounds(s);
    if Backslashes(s) < |s| {
      CleanIsMild(s[Backslashes(s) + 1..]);
    }
  }

  lemma {:induction false} FaithfulIsMild(args: seq<string>)
    requires Faithful(args)
    ensures AllMild(args)
  {
    if args != [] {
      CleanIsMild(args[0]);
      if |args| > 1 {
        FaithfulIsMild(args[1..]);
      }
    }
  }

  lemma TrailingStart(words: seq<string>)
    ensures var t := Trailing(words); if words == [] then t == "" else t != "" && t[0] == ' '
  {
  }

  lemma QuotedIsEmitted(args: seq<string>)
    requires args != []
    ensures Trailing(Map(Quoted, args)) == [' '] + ([QUOTE] + (Emitted(args[0]) + Trailing(Map(Quoted, args[1..]))))
  {
    var rest := Trailing(Map(Quoted, args[1..]));
    EmittedIsEscaped(args[0]);
    assert Map(Quoted, args) == [Quoted(args[0])] + Map(Quoted, args[1..]);
    assert Map(Quoted, args)[1..] == Map(Quoted, args[1..]);
    assert Quoted(args[0]) == [QUOTE] + Emitted(args[0]) by {
      hide Emitted, EscapeQuotes, DoubleLast;
      Regroup([QUOTE], DoubleLast(EscapeQuotes(args[0])), [QUOTE]);
    }
    hide *;
    TrailingUnfold(Map(Quoted, args));
    Regroup([' '], [QUOTE] + Emitted(args[0]), rest);
    Regroup([QUOTE], Emitted(args[0]), rest);
  }

  lemma TrailingUnfold(words: seq<string>)
    requires words != []
    ensures Trailing(words) == [' '] + words[0] + Trailing(words[1..])
  {}

  lemma ReadOpening(text: string, current: Option<string>)
    ensures var line := [' '] + ([QUOTE] + text);
      && Parse(line, false, current) == (if current.Some? then [current.value] else []) + Parse(text, true, Some(""))
      && Yield(line) == Yield(text)
  {
    assert ([' '] + ([QUOTE] + text))[1..] == [QUOTE] + text;
    assert ([QUOTE] + text)[1..] == text;
  }

  /** The line of the arguments, once its first opening quote is read. */
  lemma OpenFirst(args: seq<string>, current: Option<string>)
    requires args != []
    ensures Parse(Trailing(Map(Quoted, args)), false, current) ==
      (if current.Some? then [current.value] else [])
      + Parse(Emitted(args[0]) + Trailing(Map(Quoted, args[1..])), true, Some(""))
    ensures Yield(Trailing(Map(Quoted, args))) == Yield(Emitted(args[0]) + Trailing(Map(Quoted, args[1..])))
  {
    hide *;
    QuotedIsEmitted(args);
    ReadOpening(Emitted(args[0]) + Trailing(Map(Quoted, args[1..])), current);
  }

  lemma {:induction false} ReadBackMild(args: seq<string>)
    requires AllMild(args)
    ensures Parse(Trailing(Map(Quoted, args)), false, None) == args <==> Faithful(args)
  {
    hide Parse, Map, Trailing, Emitted;
    if args == [] {
      assert Parse(Trailing(Map(Quoted, args)), false, None) == [] by { NothingToRead(); }
    } else {
      var a, tail := args[0], args[1..];
      var rest := Trailing(Map(Quoted, tail));
      var r := Parse(Trailing(Map(Quoted, args)), false, None);
      OpenFirst(args, None);
      RestStart(tail);
      assert args == [a] + tail;
      if Clean(a) {
        CleanIsMild(a);
        ParseClean(a, "", rest);
        assert "" + a == a;
        if tail == [] {
          assert r == [a] by { EndOfLine(a); }
        } else {
          ReadBackMild(tail);
          OpenFirst(tail, None);
          OpenFirst(tail, Some(a));
          assert r == [a] + Parse(rest, false, None);
        }
      } else {
        DirtyArgument(a, "", rest);
        assert "" + a == a;
      }
    }
  }

  lemma NothingToRead()
    ensures Parse(Trailing(Map(Quoted, [])), false, None) == []
  {
  }

  lemma EndOfLine(a: string)
    ensures Parse("", false, Some(a)) == [a]
  {
  }

  lemma RestStart(tail: seq<string>)
    ensures var rest := Trailing(Map(Quoted, tail)); if tail == [] then rest == "" else rest != "" && rest[0] == ' '
  {
    TrailingStart(Map(Quoted, tail));
  }

  function AllSurvivors(args: seq<string>): nat {
    if args == [] then 0 else Survivors(args[0]) + AllSurvivors(args[1..])
  }

  lemma {:induction false} ArgumentsYield(args: seq<string>)
    ensures Yield(Trailing(Map(Quoted, args))) == AllSurvivors(args)
  {
    if args != [] {
      OpenFirst(args, None);
      EmittedYields(args[0], Trailing(Map(Quoted, args[1..])));
      ArgumentsYield(args[1..]);
    }
  }

  lemma {:induction false} SurvivorsDecide(args: seq<string>)
    ensures AllSurvivors(args) <= CountAll(args)
    ensures AllSurvivors(args) == CountAll(args) ==> AllMild(args)
  {
    if args != [] {
      SurvivorsBound(args[0]);
      SurvivorsDecide(args[1..]);
    }
  }

  /** The arguments come back as they were exactly if the list is faithful. */
  lemma ReadBack(args: seq<string>)
    ensures Parse(Trailing(Map(Quoted, args)), false, None) == args <==> Faithful(args)
  {
    if AllMild(args) {
      ReadBackMild(args);
    } else {
      ParseYields(Trailing(Map(Quoted, args)), false, None);
      ArgumentsYield(args);
      SurvivorsDecide(args);
      if Faithful(args) {
        FaithfulIsMild(args);
      }
    }
  }

  /** Every character that would end the name of the command gets a caret, but for three. */
  predicate Unbroken(command: string) {
    '\t' !in command && '=' !in command && '/' !in command
  }

  /** Nothing before the name is skipped, it does not end early, and no argument takes the place of a missing one. */
  predicate NameKept(command: string, args: seq<string>) {
    Unbroken(command) && if command == "" then args == [] else command[0] != '@'
  }

  lemma SplitStep(c: char, rest: string)
    ensures var s := (if IsMeta(c) then ['^', c] else [c]) + rest;
      SplitCommand(s, false) == if c in "\t=/" then ("", s) else LongerName(c, SplitCommand(rest, false))
  {
    if IsMeta(c) {
      assert (['^', c] + rest)[2..] == rest;
    } else {
      assert ([c] + rest)[1..] == rest;
    }
  }

  /** The name of the command ends where the escaped command does, or at the first unescaped separator in it. */
  lemma {:induction false} SplitEscaped(command: string, rest: string)
    requires rest != "" ==> rest[0] == ' '
    ensures var split := SplitCommand(Careted(command) + rest, false);
      if Unbroken(command) then split == (command, rest) else |split.0| < |command|
  {
    hide IsMeta, SplitCommand;
    if command == "" {
      assert Careted(command) + rest == rest;
      SplitAtSpace(rest);
    } else {
      var tail := command[1..];
      SplitEscaped(tail, rest);
      SplitStep(command[0], Careted(tail) + rest);
      Regroup(if IsMeta(command[0]) then ['^', command[0]] else [command[0]], Careted(tail), rest);
      assert command == [command[0]] + tail;
    }
  }

  lemma SplitAtSpace(rest: string)
    requires rest != "" ==> rest[0] == ' '
    ensures SplitCommand(rest, false) == ("", rest)
  {}

  lemma EscapedStart(args: seq<string>)
    ensures var rest := Trailing(Map(EscapeArgument, args)); rest != "" ==> rest[0] == ' '
  {
    TrailingStart(Map(EscapeArgument, args));
  }

  /** Every caret stands before a character that is special. */
  predicate WellCareted(s: string) {
    s == ""
    || (if s[0] == '^' then |s| > 1 && IsMeta(s[1]) && WellCareted(s[2..]) else WellCareted(s[1..]))
  }

  lemma {:induction false} CaretedIsWell(s: string, rest: string)
    requires WellCareted(rest)
    ensures WellCareted(Careted(s) + rest)
  {
    if s == "" {
      assert Careted(s) + rest == rest;
    } else {
      CaretedIsWell(s[1..], rest);
      var unit := if IsMeta(s[0]) then ['^', s[0]] else [s[0]];
      var line := unit + (Careted(s[1..]) + rest);
      Regroup(unit, Careted(s[1..]), rest);
      assert line[|unit|..] == Careted(s[1..]) + rest;
    }
  }

  lemma {:induction false} TrailingIsWell(args: seq<string>)
    ensures WellCareted(Trailing(Map(EscapeArgument, args)))
  {
    if args != [] {
      var words := Map(EscapeArgument, args);
      var rest := Careted(Quoted(args[0])) + Trailing(words[1..]);
      TrailingIsWell(args[1..]);
      assert words[1..] == Map(EscapeArgument, args[1..]);
      CaretedIsWell(Quoted(args[0]), Trailing(words[1..]));
      hide Careted, Quoted;
      TrailingUnfold(words);
      Regroup(" ", words[0], Trailing(words[1..]));
      assert (" " + rest)[1..] == rest;
    }
  }

  /** No name starts with an unescaped character that is skipped. */
  lemma {:induction false} SkippedStart(s: string)
    requires WellCareted(s)
    ensures var name := SplitCommand(SkipLead(s), false).0; name != "" ==> name[0] !in "@\t="
    ensures s != "" && !IsLead(s[0]) ==> SkipLead(s) == s
  {
    if s != "" && IsLead(s[0]) {
      SkippedStart(s[1..]);
    }
  }

  /** What cmd.exe takes for the command, and what it leaves, of an escaped line. */
  lemma LineSplit(command: string, args: seq<string>)
    ensures var rest := Trailing(Map(EscapeArgument, args));
      var split := SplitCommand(SkipLead(Careted(command) + rest), false);
      if NameKept(command, args) then split == (command, rest) else split.0 != command
  {
    var rest := Trailing(Map(EscapeArgument, args));
    EscapedStart(args);
    if command == "" {
      assert Careted(command) + rest == rest;
      if args != [] {
        FirstArgumentRuns(args);
      }
    } else {
      SplitEscaped(command, rest);
      TrailingIsWell(args);
      CaretedIsWell(command, rest);
      CaretedStart(command, rest);
      hide SplitCommand, SkipLead, Careted, Trailing, Map, WellCareted;
      SkippedStart(Careted(command) + rest);
    }
  }

  lemma CaretedStart(command: string, rest: string)
    requires command != ""
    ensures var line := Careted(command) + rest; line != "" && (IsLead(line[0]) <==> command[0] in "@\t=")
  {
  }

  /** Without a name, the first argument takes its place. */
  lemma FirstArgumentRuns(args: seq<string>)
    requires args != []
    ensures SplitCommand(SkipLead(Trailing(Map(EscapeArgument, args))), false).0 != ""
  {
    var words := Map(EscapeArgument, args);
    hide *;
    assert words != [] && words[0] == EscapeArgument(args[0]) by { MapStart(EscapeArgument, args); }
    TrailingUnfold(words);
    var body := EscapedOpens(args[0]);
    var more := Trailing(words[1..]);
    Regroup(" ", ['^', QUOTE] + body, more);
    Regroup(['^', QUOTE], body, more);
    QuoteRuns(body + more);
  }

  lemma MapStart(f: string -> string, words: seq<string>)
    requires words != []
    ensures Map(f, words) != [] && Map(f, words)[0] == f(words[0])
  {
  }

  lemma EscapedOpens(arg: string) returns (body: string)
    ensures EscapeArgument(arg) == ['^', QUOTE] + body
  {
    hide DoubleLast, EscapeQuotes;
    var quoted := DoubleLast(EscapeQuotes(arg)) + [QUOTE];
    Regroup([QUOTE], DoubleLast(EscapeQuotes(arg)), [QUOTE]);
    assert ([QUOTE] + quoted)[1..] == quoted;
    body := Careted(quoted);
  }

  lemma QuoteRuns(rest: string)
    ensures SplitCommand(SkipLead(" " + (['^', QUOTE] + rest)), false).0 != ""
  {
    assert (" " + (['^', QUOTE] + rest))[1..] == ['^', QUOTE] + rest;
  }

  /**
   * The whole way of a command line: cmd.exe /s /c runs the given command, and the program reads the given list,
   * exactly if the command is kept (no tab, equals sign or slash, no at sign in front, and empty only without
   * arguments) and the list is faithful.
   */
  lemma ShimRoundTrip(command: string, args: seq<string>)
    ensures Received(ShimCommandLine(command, args)) == Some((command, args)) <==>
      NameKept(command, args) && Faithful(args)
  {
    StrippedLine(command, args);
    LineSplit(command, args);
    hide StripOuterQuotes, ShimCommandLine, SplitCommand, SkipLead, Careted, Trailing, Map, CaretPass, Parse, Faithful,
      NameKept;
    if NameKept(command, args) {
      TrailingCaretsUndone(args);
      ReadBack(args);
    }
  }

  predicate AllClean(args: seq<string>) {
    forall i :: 0 <= i < |args| ==> Clean(args[i])
  }

  /** In particular, lists of clean arguments always survive. */
  lemma {:induction false} CleanIsFaithful(args: seq<string>)
    requires AllClean(args)
    ensures Faithful(args)
  {
    if args != [] {
      assert Clean(args[0]);
      CleanIsMild(args[0]);
      forall i | 0 <= i < |args[1..]| ensures Clean(args[1..][i]) { assert args[1..][i] == args[i + 1]; }
      CleanIsFaithful(args[1..]);
    }
  }

  /**
   * Where it fails: an argument ending in two backslashes, and one ending in two backslashes and a quote
   * unless it is the last. The backslash doubling reaches only one backslash of a run.
   */
  lemma DoubledBackslashesFail(command: string)
    ensures Received(ShimCommandLine(command, ["C:\\\\"])) != Some((command, ["C:\\\\"]))
    ensures Received(ShimCommandLine(command, ["\\\\\"", "x"])) != Some((command, ["\\\\\"", "x"]))
    ensures NameKept(command, ["x", "\\\\\""]) ==>
      Received(ShimCommandLine(command, ["x", "\\\\\""])) == Some((command, ["x", "\\\\\""]))
  {
    ShimRoundTrip(command, ["C:\\\\"]);
    ShimRoundTrip(command, ["\\\\\"", "x"]);
    ShimRoundTrip(command, ["x", "\\\\\""]);
    FaithfulExamples();
    hide Received, ShimCommandLine, Faithful;
  }

  lemma FaithfulExamples()
    ensures !Faithful(["C:\\\\"]) && !Faithful(["\\\\\"", "x"]) && Faithful(["x", "\\\\\""])
  {
    assert ["x", "\\\\\""][1..] == ["\\\\\""];
  }
}
