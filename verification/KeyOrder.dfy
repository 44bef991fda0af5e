/** The order of keys in canonical JSON, said without the functions that sort (apps/ui/fingerprint.config.js). */
module KeyOrder {
  import opened StableJson
  import opened JsonObjects

  // ----- array indices -----

  lemma {:induction false} NumeralIsCanonical(n: nat)
    ensures var s := Decimal(n);
      s != [] && Digits(s) && Value(s) == n && (s[0] != '0' || s == "0") && (n > 0 ==> s[0] != '0')
  {
    DecimalValue(n);
    if n >= 10 {
      NumeralIsCanonical(n / 10);
      assert Decimal(n)[0] == Decimal(n / 10)[0];
    }
  }

  /** The keys that come first are the decimal numerals of 0 to 4294967294. */
  lemma IndexIsNumeral(key: string)
    ensures IsIndex(key) <==> exists n: nat :: n < 4_294_967_295 && key == Decimal(n)
  {
    if IsIndex(key) {
      NumeralIsCanonical(Value(key));
      IndicesDiffer(key, Decimal(Value(key)));
      assert key == Decimal(Value(key));
    }
    if exists n: nat :: n < 4_294_967_295 && key == Decimal(n) {
      var n: nat :| n < 4_294_967_295 && key == Decimal(n);
      NumeralIsCanonical(n);
    }
  }

  // ----- other keys -----

  /** A character in UTF-16. */
  function Units(c: char): seq<int> {
    var point := c as int;
    if point < 0x10000 then [point]
    else [0xD800 + (point - 0x10000) / 0x400, 0xDC00 + (point - 0x10000) % 0x400]
  }

  /** Characters compare by their first differing code unit; no unit sequence of a character begins another's. */
  lemma CharactersByUnits(a: char, b: char)
    ensures var u, v := Units(a), Units(b);
      CharLess(a, b) <==> u[0] < v[0] || (u[0] == v[0] && |u| == 2 && |v| == 2 && u[1] < v[1])
  {
  }

  /** One key is a proper beginning of the other, or has the smaller character where they first differ. */
  ghost predicate DiffersAt(a: string, b: string, k: nat) {
    && k <= |a| && k < |b| && a[..k] == b[..k]
    && (k == |a| || CharLess(a[k], b[k]))
  }

  lemma CommonStart(a: string, b: string, k: nat)
    requires DiffersAt(a, b, k)
    ensures k > 0 ==> a != [] && a[0] == b[0]
  {
    if k > 0 {
      assert a[0] == a[..k][0] && b[0] == b[..k][0];
    }
  }

  lemma {:induction false} LexByFirstDifference(a: string, b: string)
    ensures LexLess(a, b) <==> exists k: nat :: DiffersAt(a, b, k)
  {
    if a != [] && b != [] && a[0] == b[0] {
      LexByFirstDifference(a[1..], b[1..]);
      if LexLess(a, b) {
        var k: nat :| DiffersAt(a[1..], b[1..], k);
        assert a[..k + 1] == [a[0]] + a[1..][..k] && b[..k + 1] == [b[0]] + b[1..][..k];
        assert DiffersAt(a, b, k + 1);
      }
      if exists k: nat :: DiffersAt(a, b, k) {
        var k: nat :| DiffersAt(a, b, k);
        assert k > 0;
        assert a[1..][..k - 1] == a[..k][1..] && b[1..][..k - 1] == b[..k][1..];
        assert DiffersAt(a[1..], b[1..], k - 1);
      }
    } else if b != [] {
      if LexLess(a, b) {
        assert DiffersAt(a, b, 0);
      }
      if exists k: nat :: DiffersAt(a, b, k) {
        var k: nat :| DiffersAt(a, b, k);
        CommonStart(a, b, k);
      }
    }
  }

  /** The order of a canonical object: numerals by their numbers, then all other keys by their code units. */
  lemma CanonicalOrder(a: string, b: string)
    ensures forall m: nat, n: nat | m < 4_294_967_295 && n < 4_294_967_295 && a == Decimal(m) && b == Decimal(n) ::
      Before(a, b) <==> m < n
    ensures IsIndex(a) && !IsIndex(b) ==> Before(a, b) && !Before(b, a)
    ensures !IsIndex(a) && !IsIndex(b) ==> (Before(a, b) <==> exists k: nat :: DiffersAt(a, b, k))
  {
    forall m: nat, n: nat | m < 4_294_967_295 && n < 4_294_967_295 && a == Decimal(m) && b == Decimal(n)
      ensures Before(a, b) <==> m < n
    {
      NumeralIsCanonical(m);
      NumeralIsCanonical(n);
    }
    LexByFirstDifference(a, b);
  }
}
