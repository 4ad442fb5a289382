/**
 * The few pieces of Java library behaviour the transaction code relies on:
 * `int` arithmetic (32-bit two's complement), `String.split(",")`,
 * `Integer.parseInt` and the decimal rendering of `String.format("%d")`.
 */
module JavaLang {
  import opened Wrappers

  const INT_MIN: int := -0x8000_0000
  const INT_MAX: int := 0x7fff_ffff
  const TWO_TO_32: int := 0x1_0000_0000

  /** Values of Java's `int` (and of a CQL `int` column). */
  type Int32 = x: int | INT_MIN <= x <= INT_MAX

  /** Java `int` arithmetic: the exact result reduced into the 32-bit range. */
  function Wrap32(x: int): (r: Int32)
    ensures INT_MIN <= x <= INT_MAX ==> r == x
    ensures (x - r) % TWO_TO_32 == 0
  {
    (x - INT_MIN) % TWO_TO_32 + INT_MIN
  }

  /** `n + 1` on a Java `int` never yields `n` again: it is `n + 1`, or INT_MIN after INT_MAX. */
  lemma IncrementChanges(n: Int32)
    ensures Wrap32(n + 1) != n
    ensures Wrap32(n + 1) == if n == INT_MAX then INT_MIN else n + 1
  {
    if n == INT_MAX {
      assert (n + 1 - INT_MIN) % TWO_TO_32 == 0;
    }
  }

  // ---------------------------------------------------------------------
  // String.split(",")

  /** All the comma-separated pieces of `s`, empty ones included. */
  function Pieces(s: string): (r: seq<string>)
    ensures |r| >= 1
  {
    if s == [] then [""]
    else if s[0] == ',' then [""] + Pieces(s[1..])
    else
      var rest := Pieces(s[1..]);
      [[s[0]] + rest[0]] + rest[1..]
  }

  /** Java's `split` with limit 0 removes trailing empty strings. */
  function DropTrailingEmpty(ts: seq<string>): seq<string>
  {
    if ts == [] then []
    else if ts[|ts| - 1] == "" then DropTrailingEmpty(ts[..|ts| - 1])
    else ts
  }

  /** No piece holds a comma. */
  lemma {:induction false} PiecesCommaFree(s: string)
    ensures forall t | t in Pieces(s) :: ',' !in t
  {
    if s != [] {
      PiecesCommaFree(s[1..]);
    }
  }

  /** The result is a prefix of `ts` that ends in a non-empty string, and everything cut off is empty. */
  lemma {:induction false} DropTrailingEmptyShape(ts: seq<string>)
    ensures var r := DropTrailingEmpty(ts);
      && |r| <= |ts| && r == ts[..|r|]
      && (r != [] ==> r[|r| - 1] != "")
      && (forall k | |r| <= k < |ts| :: ts[k] == "")
  {
    if ts != [] && ts[|ts| - 1] == "" {
      DropTrailingEmptyShape(ts[..|ts| - 1]);
    }
  }

  /**
   * `s.split(",")`: the pieces between commas with trailing empty pieces
   * dropped, except that a string without a comma comes back whole, so the
   * empty string gives one empty piece.
   */
  function Split(s: string): (r: seq<string>)
    ensures ',' !in s ==> r == [s]
  {
    if s == [] then [""]
    else if ',' !in s then PiecesOfPlain(s); DropTrailingEmpty(Pieces(s))
    else DropTrailingEmpty(Pieces(s))
  }

  /** No piece holds a comma, a comma-free string is its own only piece, and a last piece is never empty after a comma. */
  lemma SplitShape(s: string)
    ensures forall t | t in Split(s) :: ',' !in t
    ensures ',' !in s ==> Split(s) == [s]
    ensures ',' in s && Split(s) != [] ==> Split(s)[|Split(s)| - 1] != ""
  {
    if s != [] {
      PiecesCommaFree(s);
      DropTrailingEmptyShape(Pieces(s));
      if ',' !in s {
        PiecesOfPlain(s);
      }
    }
  }

  /** The inverse of splitting: the pieces joined with commas. */
  function Join(ts: seq<string>): string
    requires |ts| >= 1
  {
    if |ts| == 1 then ts[0] else ts[0] + "," + Join(ts[1..])
  }

  lemma {:induction false} PiecesOfPlain(t: string)
    requires ',' !in t
    ensures Pieces(t) == [t]
  {
    if t != [] {
      PiecesOfPlain(t[1..]);
      assert [t[0]] + t[1..] == t;
    }
  }

  lemma {:induction false} PiecesOfPrefixed(t: string, rest: string)
    requires ',' !in t
    ensures Pieces(t + "," + rest) == [t] + Pieces(rest)
  {
    if t == [] {
      assert t + "," + rest == [','] + rest;
      assert ([','] + rest)[1..] == rest;
    } else {
      PiecesOfPrefixed(t[1..], rest);
      assert (t + "," + rest)[1..] == t[1..] + "," + rest;
      assert [t[0]] + t[1..] == t;
    }
  }

  lemma {:induction false} PiecesOfJoin(ts: seq<string>)
    requires |ts| >= 1
    requires forall t | t in ts :: ',' !in t
    ensures Pieces(Join(ts)) == ts
  {
    if |ts| == 1 {
      PiecesOfPlain(ts[0]);
    } else {
      PiecesOfJoin(ts[1..]);
      PiecesOfPrefixed(ts[0], Join(ts[1..]));
    }
  }

  /**
   * Splitting undoes joining, for comma-free pieces whose last one is not
   * empty (the last condition only matters when there are several pieces).
   */
  lemma {:induction false} SplitJoin(ts: seq<string>)
    requires |ts| >= 1
    requires forall t | t in ts :: ',' !in t
    requires |ts| > 1 ==> ts[|ts| - 1] != ""
    ensures Split(Join(ts)) == ts
  {
    PiecesOfJoin(ts);
    if |ts| > 1 {
      assert Join(ts) == ts[0] + "," + Join(ts[1..]);
    }
  }

  // ---------------------------------------------------------------------
  // Integer.parseInt and decimal rendering

  predicate IsDigit(c: char)
  {
    '0' <= c <= '9'
  }

  predicate AllDigits(s: string)
  {
    s == [] || (AllDigits(s[..|s| - 1]) && IsDigit(s[|s| - 1]))
  }

  /** The value of a run of decimal digits, most significant first. */
  function DigitsValue(s: string): nat
    requires AllDigits(s)
  {
    if s == [] then 0 else DigitsValue(s[..|s| - 1]) * 10 + (s[|s| - 1] as int - '0' as int)
  }

  /**
   * `Integer.parseInt(s)`: an optional sign followed by at least one ASCII
   * digit '0'..'9', whose value fits in an `int`; anything else throws
   * NumberFormatException, which is `None` here. The value is negative only
   * under a minus sign and never under a plus sign or none.
   */
  function ParseInt(s: string): (r: Option<Int32>)
    ensures r.Some? ==> |s| >= 1 && (s[0] == '-' || s[0] == '+' ==> |s| >= 2)
    ensures r.Some? && s[0] != '-' ==> r.value >= 0
    ensures r.Some? && s[0] == '-' ==> r.value <= 0
  {
    if |s| == 0 then None
    else
      var digits := if s[0] == '-' || s[0] == '+' then s[1..] else s;
      if |digits| == 0 || !AllDigits(digits) then None
      else
        var v: int := if s[0] == '-' then -(DigitsValue(digits) as int) else DigitsValue(digits);
        if INT_MIN <= v <= INT_MAX then Some(v) else None
  }

  function DigitChar(d: int): char
    requires 0 <= d < 10
  {
    ('0' as int + d) as char
  }

  /** The decimal digits of a natural number, without leading zeros. */
  function NatDigits(n: nat): (s: string)
    ensures |s| >= 1 && AllDigits(s) && IsDigit(s[0])
    ensures ',' !in s
  {
    if n < 10 then
      assert [DigitChar(n)][..0] == [];
      [DigitChar(n)]
    else
      var prefix := NatDigits(n / 10);
      assert (prefix + [DigitChar(n % 10)])[..|prefix|] == prefix;
      prefix + [DigitChar(n % 10)]
  }

  /** `String.format("%d", n)` / `Integer.toString(n)`. */
  function FormatInt(n: int): (s: string)
    ensures |s| >= 1
    ensures ',' !in s
  {
    if n < 0 then "-" + NatDigits(-n) else NatDigits(n)
  }

  lemma {:induction false} DigitsValueOfNatDigits(n: nat)
    ensures DigitsValue(NatDigits(n)) == n
  {
    if n >= 10 {
      DigitsValueOfNatDigits(n / 10);
      var s := NatDigits(n);
      assert s[..|s| - 1] == NatDigits(n / 10);
    }
  }

  /** Parsing a rendered `int` gives the `int` back. */
  lemma ParseFormat(n: Int32)
    ensures ParseInt(FormatInt(n)) == Some(n)
  {
    if n < 0 {
      var m: nat := -(n as int);
      DigitsValueOfNatDigits(m);
      assert ("-" + NatDigits(m))[1..] == NatDigits(m);
    } else {
      DigitsValueOfNatDigits(n);
      assert IsDigit(NatDigits(n)[0]);
    }
  }
}
