/** The string operations of JavaScript that several modules use. */
module JsText {

  /** White space and line terminators (sections 12.2 and 12.3 of ECMA-262). */
  predicate IsBlank(c: char) {
    var point := c as int;
    || 0x9 <= point <= 0xD || point == 0x20 || point == 0xA0 || point == 0x1680 || 0x2000 <= point <= 0x200A
    || point == 0x2028 || point == 0x2029 || point == 0x202F || point == 0x205F || point == 0x3000 || point == 0xFEFF
  }

  function TrimStart(s: string): string {
    if s != "" && IsBlank(s[0]) then TrimStart(s[1..]) else s
  }

  function TrimEnd(s: string): string {
    if s != "" && IsBlank(s[|s| - 1]) then TrimEnd(s[..|s| - 1]) else s
  }

  function Trim(s: string): string {
    TrimEnd(TrimStart(s))
  }

  predicate Trimmed(s: string) {
    s == "" || (!IsBlank(s[0]) && !IsBlank(s[|s| - 1]))
  }

  lemma {:induction false} StartTrimmed(s: string)
    ensures TrimStart(s) == "" || !IsBlank(TrimStart(s)[0])
  {
    if s != "" && IsBlank(s[0]) {
      StartTrimmed(s[1..]);
    }
  }

  lemma {:induction false} EndTrimmed(s: string)
    ensures TrimEnd(s) <= s && (TrimEnd(s) == "" || !IsBlank(TrimEnd(s)[|TrimEnd(s)| - 1]))
  {
    if s != "" && IsBlank(s[|s| - 1]) {
      EndTrimmed(s[..|s| - 1]);
    }
  }

  predicate AllBlank(s: string) {
    forall i :: 0 <= i < |s| ==> IsBlank(s[i])
  }

  lemma {:induction false} StartIsBlank(s: string) returns (lead: string)
    ensures s == lead + TrimStart(s) && AllBlank(lead)
  {
    lead := "";
    if s != "" && IsBlank(s[0]) {
      var more := StartIsBlank(s[1..]);
      lead := [s[0]] + more;
      assert s == [s[0]] + s[1..];
    }
  }

  lemma {:induction false} EndIsBlank(s: string) returns (tail: string)
    ensures s == TrimEnd(s) + tail && AllBlank(tail)
  {
    tail := "";
    if s != "" && IsBlank(s[|s| - 1]) {
      var less := EndIsBlank(s[..|s| - 1]);
      tail := less + [s[|s| - 1]];
      assert s == s[..|s| - 1] + [s[|s| - 1]];
    }
  }

  /** Trimming takes away white space at both ends, all of it and nothing else. */
  lemma TrimTakesBlanks(s: string) returns (lead: string, tail: string)
    ensures s == lead + Trim(s) + tail && AllBlank(lead) && AllBlank(tail) && Trimmed(Trim(s))
  {
    lead := StartIsBlank(s);
    tail := EndIsBlank(TrimStart(s));
    TrimTrims(s);
  }

  /** The blank characters: tab, line feed, vertical tab, form feed, carriage return, space, and those of Unicode. */
  lemma BlankCharacters(c: char)
    ensures IsBlank(c) <==>
      c in "\t\n\U{B}\U{C}\r \U{A0}\U{1680}\U{2000}\U{2001}\U{2002}\U{2003}\U{2004}\U{2005}\U{2006}\U{2007}"
        + "\U{2008}\U{2009}\U{200A}\U{2028}\U{2029}\U{202F}\U{205F}\U{3000}\U{FEFF}"
  {
  }

  /** Trimming leaves no white space at either end, and does nothing to a string that has none. */
  lemma TrimTrims(s: string)
    ensures Trimmed(Trim(s)) && (Trim(s) == s <==> Trimmed(s))
  {
    StartTrimmed(s);
    EndTrimmed(TrimStart(s));
  }
}
