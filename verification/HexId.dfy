/** Ids as hex strings.  strconv.ParseUint(s, 16, 64) and fmt's %016x belong to Go's library; they
    are modelled by what they compute, digit by digit from the left, and by padding. */
module HexId {
  import opened Words

  const CUTOFF: nat := 0x1000_0000_0000_0000

  datatype Parsed = Value(v: nat) | SyntaxError | RangeError

  // ----- Go's library

  function DigitChar(d: nat): char
    requires d < 16
  {
    "0123456789abcdef"[d]
  }

  /** The value of a digit or letter, or 36 for any other character. */
  function CharValue(c: char): nat {
    if '0' <= c <= '9' then c as int - '0' as int
    else if 'a' <= c <= 'z' then c as int - 'a' as int + 10
    else if 'A' <= c <= 'Z' then c as int - 'A' as int + 10
    else 36
  }

  function ParseFrom(s: string, n: nat): Parsed {
    if s == "" then Value(n)
    else
      var d := CharValue(s[0]);
      if d >= 16 then SyntaxError
      else if n >= CUTOFF || n * 16 + d >= TWO_64 then RangeError
      else ParseFrom(s[1..], n * 16 + d)
  }

  function ParseUint(s: string): Parsed {
    if s == "" then SyntaxError else ParseFrom(s, 0)
  }

  /** %x */
  function Hex(v: nat): string {
    if v < 16 then [DigitChar(v)] else Hex(v / 16) + [DigitChar(v % 16)]
  }

  /** The zero padding of width 16. */
  function Pad(s: string): string
    decreases 16 - |s|
  {
    if |s| >= 16 then s else Pad("0" + s)
  }

  // ----- the package

  function String(id: nat): string {
    Pad(Hex(id))
  }

  function StringOrEmpty(id: nat): string {
    if id == 0 then "" else String(id)
  }

  function ParseID(s: string): Parsed {
    ParseUint(s)
  }

  function ParseIDOptional(s: string): Parsed {
    if s == "" then Value(0) else ParseID(s)
  }

  /** The error is dropped, but not the value that comes with it. */
  function ParseIDSafe(s: string): nat {
    match ParseUint(s)
    case Value(v) => v
    case SyntaxError => 0
    case RangeError => TWO_64 - 1
  }

  // ----- what a hex string denotes

  predicate AllHex(s: string) {
    forall i :: 0 <= i < |s| ==> CharValue(s[i]) < 16
  }

  /** What the first `n` characters denote. */
  function Denotes(s: string, n: nat): nat
    requires n <= |s|
  {
    if n == 0 then 0 else Denotes(s, n - 1) * 16 + CharValue(s[n - 1])
  }

  /** The hex digits a string starts with. */
  function Lead(s: string): (r: string)
    ensures r <= s && AllHex(r)
    ensures |r| < |s| ==> CharValue(s[|r|]) >= 16
  {
    if s == "" || CharValue(s[0]) >= 16 then ""
    else
      var r := Lead(s[1..]);
      [s[0]] + r
  }

  function Pow16(n: nat): (r: nat)
    ensures r > 0
  {
    if n == 0 then 1 else 16 * Pow16(n - 1)
  }

  lemma Times16(d: nat, p: nat)
    ensures 16 * (d * p) == d * (16 * p)
  {
  }

  lemma {:induction false} DenotesFirst(s: string, n: nat)
    requires n < |s|
    ensures Denotes(s, n + 1) == CharValue(s[0]) * Pow16(n) + Denotes(s[1..], n)
  {
    if n > 0 {
      DenotesFirst(s, n - 1);
      assert s[1..][n - 1] == s[n];
      Times16(CharValue(s[0]), Pow16(n - 1));
    }
  }

  /** Reading on from `n` up to the first character that is no hex digit. */
  function ReadOn(n: nat, s: string): (r: nat)
    ensures r >= n
    decreases |s|
  {
    if s == "" || CharValue(s[0]) >= 16 then n else ReadOn(n * 16 + CharValue(s[0]), s[1..])
  }

  lemma {:induction false} ReadOnIs(s: string, i: nat)
    requires i <= |s|
    ensures ReadOn(Denotes(s, i), s[i..]) == Denotes(s, i + |Lead(s[i..])|)
    decreases |s| - i
  {
    if i < |s| && CharValue(s[i]) < 16 {
      assert s[i..][1..] == s[i + 1..];
      ReadOnIs(s, i + 1);
    }
  }

  lemma {:induction false} ParseFromIs(s: string, n: nat)
    requires n < TWO_64
    ensures ParseFrom(s, n) == if ReadOn(n, s) >= TWO_64 then RangeError
                               else if Lead(s) == s then Value(ReadOn(n, s))
                               else SyntaxError
  {
    if s != "" && CharValue(s[0]) < 16 {
      assert Lead(s)[1..] == Lead(s[1..]);
      if n * 16 + CharValue(s[0]) < TWO_64 {
        ParseFromIs(s[1..], n * 16 + CharValue(s[0]));
      }
    }
  }

  /** ParseID: the value of an all-hex string below 2^64; a range error once the leading hex digits
      reach 2^64, even if the rest is malformed; a syntax error otherwise. */
  lemma ParseIDIs(s: string)
    ensures ParseID(s) == if Denotes(s, |Lead(s)|) >= TWO_64 then RangeError
                          else if s != "" && Lead(s) == s then Value(Denotes(s, |s|))
                          else SyntaxError
  {
    ParseFromIs(s, 0);
    ReadOnIs(s, 0);
    assert s[0..] == s;
  }

  /** ParseIDSafe does not coerce all malformed input to zero: it does exactly when the leading hex
      digits stay below 2^64. */
  lemma ParseIDSafeIs(s: string)
    ensures ParseID(s).Value? ==> ParseIDSafe(s) == ParseID(s).v
    ensures !ParseID(s).Value? ==> (ParseIDSafe(s) == 0 <==> Denotes(s, |Lead(s)|) < TWO_64)
  {
    ParseIDIs(s);
  }

  /** In particular not on any hex string of more than 16 digits that does not start with a zero:
      there it is the largest id. */
  lemma OverlongIsLargest(s: string)
    requires AllHex(s) && |s| > 16 && s[0] != '0'
    ensures ParseID(s).RangeError? && ParseIDSafe(s) == TWO_64 - 1
  {
    SixteenDigits();
    PowGrows(16, |s| - 1);
    DenotesFirst(s, |s| - 1);
    TimesAtLeast(CharValue(s[0]), Pow16(|s| - 1));
    WholeLead(s);
    ParseIDIs(s);
  }

  lemma OverlongExample()
    ensures ParseID("10000000000000000").RangeError? && ParseIDSafe("10000000000000000") != 0
  {
    OverlongIsLargest("10000000000000000");
  }

  lemma TimesAtLeast(d: nat, p: nat)
    requires d > 0
    ensures d * p >= p
  {
  }

  lemma {:induction false} PowGrows(m: nat, n: nat)
    requires m <= n
    ensures Pow16(m) <= Pow16(n)
  {
    if m < n {
      PowGrows(m, n - 1);
    }
  }

  lemma {:induction false} WholeLead(s: string)
    requires AllHex(s)
    ensures Lead(s) == s
  {
  }

  /** The hex digits, in either case, and nothing else. */
  lemma HexDigitsAre(c: char, d: nat)
    requires d < 16
    ensures CharValue(c) < 16 <==> c in "0123456789abcdefABCDEF"
    ensures CharValue("0123456789abcdef"[d]) == d && CharValue("0123456789ABCDEF"[d]) == d
  {
    if CharValue(c) < 16 {
      assert c == "0123456789abcdef"[CharValue(c)] || c == "0123456789ABCDEF"[CharValue(c)];
    }
  }

  // ----- round trips

  /** A string of `n` digits of `v`, zeros in front. */
  function Digits(v: nat, n: nat): (s: string)
    ensures |s| == n && AllHex(s)
  {
    if n == 0 then "" else Digits(v / 16, n - 1) + [DigitChar(v % 16)]
  }

  lemma DigitValue(d: nat)
    requires d < 16
    ensures CharValue(DigitChar(d)) == d
  {
  }

  lemma {:induction false} DigitsDenote(v: nat, n: nat)
    requires v < Pow16(n)
    ensures Denotes(Digits(v, n), n) == v
  {
    if n > 0 {
      DigitsDenote(v / 16, n - 1);
      DenotesPrefix(Digits(v, n), Digits(v / 16, n - 1), n - 1);
      DigitValue(v % 16);
    }
  }

  lemma {:induction false} DenotesPrefix(s: string, t: string, n: nat)
    requires n <= |s| && n <= |t| && forall i :: 0 <= i < n ==> s[i] == t[i]
    ensures Denotes(s, n) == Denotes(t, n)
  {
    if n > 0 {
      DenotesPrefix(s, t, n - 1);
    }
  }

  lemma {:induction false} HexIsDigits(v: nat)
    ensures |Hex(v)| > 0 && Hex(v) == Digits(v, |Hex(v)|)
  {
    if v >= 16 {
      HexIsDigits(v / 16);
    } else {
      assert Digits(v, 1) == Digits(0, 0) + [DigitChar(v)];
    }
  }

  lemma {:induction false} HexLength(v: nat, n: nat)
    requires 0 < n && v < Pow16(n)
    ensures |Hex(v)| <= n
  {
    if v >= 16 {
      HexLength(v / 16, n - 1);
    }
  }

  /** A digit in front is a zero when the value does not need it. */
  lemma {:induction false} MoreDigits(v: nat, n: nat)
    requires v < Pow16(n)
    ensures Digits(v, n + 1) == "0" + Digits(v, n)
  {
    if n > 0 {
      MoreDigits(v / 16, n - 1);
    } else {
      assert Digits(v, 1) == Digits(0, 0) + [DigitChar(0)];
    }
  }

  lemma {:induction false} PadIsDigits(v: nat, n: nat)
    requires v < Pow16(n) && n <= 16
    ensures Pad(Digits(v, n)) == Digits(v, 16)
    decreases 16 - n
  {
    if n < 16 {
      MoreDigits(v, n);
      assert Pow16(n + 1) == 16 * Pow16(n);
      PadIsDigits(v, n + 1);
    }
  }

  lemma {:induction false} FitsItsDigits(v: nat)
    ensures v < Pow16(|Hex(v)|)
  {
    if v >= 16 {
      FitsItsDigits(v / 16);
    } else {
      assert Pow16(1) == 16;
    }
  }

  lemma SixteenDigits()
    ensures Pow16(16) == TWO_64
  {
    assert Pow16(8) == 0x1_0000_0000;
  }

  /** A rendered id has exactly 16 hex digits. */
  lemma StringIsDigits(id: nat)
    requires id < TWO_64
    ensures String(id) == Digits(id, 16)
  {
    SixteenDigits();
    HexIsDigits(id);
    HexLength(id, 16);
    FitsItsDigits(id);
    PadIsDigits(id, |Hex(id)|);
  }

  /** Rendering and parsing are inverse, for the required and the optional form. */
  lemma RoundTrip(id: nat)
    requires id < TWO_64
    ensures |String(id)| == 16
    ensures ParseID(String(id)) == Value(id) && ParseIDSafe(String(id)) == id
    ensures ParseIDOptional(StringOrEmpty(id)) == Value(id)
  {
    SixteenDigits();
    StringIsDigits(id);
    DigitsDenote(id, 16);
    WholeLead(String(id));
    ParseIDIs(String(id));
  }

  /** The optional forms: "" and the zero id stand for each other, and everything else is parsed and
      rendered, errors included, like a required id. */
  lemma OptionalIs(s: string, id: nat)
    ensures ParseIDOptional("") == Value(0) && StringOrEmpty(0) == ""
    ensures s != "" ==>
              ParseIDOptional(s) == if Denotes(s, |Lead(s)|) >= TWO_64 then RangeError
                                    else if Lead(s) == s then Value(Denotes(s, |s|))
                                    else SyntaxError
    ensures 0 < id < TWO_64 ==> |StringOrEmpty(id)| == 16 && ParseID(StringOrEmpty(id)) == Value(id)
  {
    ParseIDIs(s);
    if 0 < id < TWO_64 {
      RoundTrip(id);
    }
  }

  lemma StringInjective(a: nat, b: nat)
    requires a < TWO_64 && b < TWO_64
    ensures String(a) == String(b) <==> a == b
    ensures StringOrEmpty(a) == StringOrEmpty(b) <==> a == b
  {
    RoundTrip(a);
    RoundTrip(b);
  }

  predicate LowerDigit(c: char) {
    '0' <= c <= '9' || 'a' <= c <= 'f'
  }

  predicate LowerHex(s: string) {
    forall i :: 0 <= i < |s| ==> LowerDigit(s[i])
  }

  /** Lower-case hex strings of one length are told apart by what they denote. */
  lemma {:induction false} LowerDenotes(s: string, t: string, n: nat)
    requires n <= |s| && n <= |t| && LowerHex(s) && LowerHex(t) && Denotes(s, n) == Denotes(t, n)
    ensures forall i :: 0 <= i < n ==> s[i] == t[i]
  {
    if n > 0 {
      LowerChar(s[n - 1]);
      LowerChar(t[n - 1]);
      LowerDenotes(s, t, n - 1);
    }
  }

  lemma LowerChar(c: char)
    requires LowerDigit(c)
    ensures CharValue(c) < 16 && DigitChar(CharValue(c)) == c
  {
  }

  lemma {:induction false} DigitsLower(v: nat, n: nat)
    ensures LowerHex(Digits(v, n))
  {
    if n > 0 {
      DigitsLower(v / 16, n - 1);
    }
  }

  /** Parsing then rendering gives the string back exactly when it was in canonical form. */
  lemma Canonical(s: string)
    requires ParseID(s).Value?
    ensures String(ParseID(s).v) == s <==> |s| == 16 && LowerHex(s)
  {
    ParseIDIs(s);
    var v := Denotes(s, |s|);
    StringIsDigits(v);
    DigitsLower(v, 16);
    if |s| == 16 && LowerHex(s) {
      SixteenDigits();
      DigitsDenote(v, 16);
      LowerDenotes(s, Digits(v, 16), 16);
    }
  }
}
