/** The textual form of identifiers: "0x" and hexadecimal digits. */
module HexNumber {
  import opened Digits
  import opened Number160

  type Nibble = x: nat | x < 16

  datatype Parsed = Parsed(value: nat) | NotHexadecimal | IllegalText

  /** The digits 0 to 9 and the small letters a to f. */
  function HexChar(d: Nibble): (c: char) {
    if d < 10 then ('0' as int + d) as char else ('a' as int + (d - 10)) as char
  }

  /** `Character.digit(c, 16)` on the Latin letters and digits; -1 for anything else. */
  function CharDigit(c: char): (d: int)
    ensures -1 <= d < 16
  {
    if '0' <= c <= '9' then c as int - '0' as int
    else if 'a' <= c <= 'f' then c as int - 'a' as int + 10
    else if 'A' <= c <= 'F' then c as int - 'A' as int + 10
    else -1
  }

  lemma CharDigitInverse(d: Nibble)
    ensures CharDigit(HexChar(d)) == d
  {
  }

  function Chars(ds: seq<Nibble>): (s: seq<char>)
    ensures |s| == |ds| && forall i :: 0 <= i < |ds| ==> s[i] == HexChar(ds[i])
  {
    seq(|ds|, i requires 0 <= i < |ds| => HexChar(ds[i]))
  }

  /** The last `n` hexadecimal digits of `x`. */
  function Nibbles(x: nat, n: nat): (ds: seq<Nibble>)
    ensures |ds| == n
  {
    if n == 0 then [] else Nibbles(x / 16, n - 1) + [x % 16]
  }

  lemma {:induction false} NibblesValue(x: nat, n: nat)
    requires x < Pow(16, n)
    ensures Horner(16, Nibbles(x, n)) == x
  {
    if n != 0 {
      NibblesValue(x / 16, n - 1);
      assert Nibbles(x, n)[..n - 1] == Nibbles(x / 16, n - 1);
    }
  }

  /** Without its leading zeros. */
  function Trim(ds: seq<Nibble>): (r: seq<Nibble>)
    ensures |r| <= |ds| && (r == [] || r[0] != 0)
    ensures ds == Zeros(|ds| - |r|) + r
  {
    if ds != [] && ds[0] == 0 then Trim(ds[1..]) else ds
  }

  lemma {:induction false} TrimUnique(zeros: seq<Nibble>, r: seq<Nibble>)
    requires forall i :: 0 <= i < |zeros| ==> zeros[i] == 0
    requires r == [] || r[0] != 0
    ensures Trim(zeros + r) == r
  {
    if zeros == [] {
      assert zeros + r == r;
    } else {
      assert (zeros + r)[1..] == zeros[1..] + r;
      TrimUnique(zeros[1..], r);
    }
  }

  /** All forty digits of an identifier. */
  function AllNibbles(limbs: seq<Limb>): (ds: seq<Nibble>)
    ensures |ds| == 8 * |limbs|
  {
    if limbs == [] then [] else AllNibbles(limbs[..|limbs| - 1]) + Nibbles(limbs[|limbs| - 1], 8)
  }

  lemma {:induction false} AllNibblesValue(limbs: seq<Limb>)
    ensures Horner(16, AllNibbles(limbs)) == Horner(WORD, limbs)
  {
    if limbs != [] {
      var n := |limbs| - 1;
      AllNibblesValue(limbs[..n]);
      SixteenPowers();
      NibblesValue(limbs[n], 8);
      HornerConcat(16, AllNibbles(limbs[..n]), Nibbles(limbs[n], 8));
    }
  }

  /** What `toString` denotes. */
  function Text(n: Key, removeLeadingZero: bool): (s: seq<char>) {
    "0x" + Chars(Shown(n.val, removeLeadingZero))
  }

  ghost predicate AllHex(cs: seq<char>) {
    forall i :: 0 <= i < |cs| ==> CharDigit(cs[i]) >= 0
  }

  ghost function CharDigits(cs: seq<char>): (ds: seq<Nibble>)
    requires AllHex(cs)
    ensures |ds| == |cs| && forall i :: 0 <= i < |cs| ==> ds[i] == CharDigit(cs[i])
  {
    seq(|cs|, i requires 0 <= i < |cs| => CharDigit(cs[i]))
  }

  /** What the string constructor accepts, and the number it then means. */
  ghost function Parse(text: seq<char>): (p: Parsed) {
    if |text| > STRING_LENGTH || |text| < 2 || text[..2] != "0x" then IllegalText
    else if !AllHex(text[2..]) then NotHexadecimal
    else Parsed(Horner(16, CharDigits(text[2..])))
  }

  /** A text is accepted exactly when it has at most 42 characters, begins with "0x" and goes on with hexadecimal
      digits, small or capital; it may be "0x" alone. */
  lemma AcceptsExactly(text: seq<char>)
    ensures Parse(text).Parsed? <==>
            2 <= |text| <= 42 && text[..2] == "0x" &&
            forall i :: 2 <= i < |text| ==> '0' <= text[i] <= '9' || 'a' <= text[i] <= 'f' || 'A' <= text[i] <= 'F'
  {
    if 2 <= |text| {
      var digits := text[2..];
      assert forall i :: 2 <= i < |text| ==> text[i] == digits[i - 2];
    }
  }

  /** The printed text is "0x" and small hexadecimal digits: all forty, or as few as the number needs. */
  lemma TextShape(n: Key, removeLeadingZero: bool)
    ensures var text := Text(n, removeLeadingZero);
            2 <= |text| && text[..2] == "0x" && (forall i :: 2 <= i < |text| ==> '0' <= text[i] <= '9' || 'a' <= text[i] <= 'f') &&
            if removeLeadingZero then |text| == 2 || text[2] != '0' else |text| == 42
  {
    var text, ds := Text(n, removeLeadingZero), Shown(n.val, removeLeadingZero);
    assert forall i :: 0 <= i < |ds| ==> text[i + 2] == HexChar(ds[i]);
    forall i | 2 <= i < |text| ensures '0' <= text[i] <= '9' || 'a' <= text[i] <= 'f' {
      assert text[i] == HexChar(ds[i - 2]);
    }
  }

  lemma CharsInverse(ds: seq<Nibble>)
    ensures (forall i :: 0 <= i < |ds| ==> CharDigit(Chars(ds)[i]) == ds[i]) && CharDigits(Chars(ds)) == ds
  {
    forall i | 0 <= i < |ds| ensures CharDigit(Chars(ds)[i]) == ds[i] {
      CharDigitInverse(ds[i]);
    }
  }

  lemma ParseChars(ds: seq<Nibble>)
    requires |ds| <= STRING_LENGTH - 2
    ensures Parse("0x" + Chars(ds)) == Parsed(Horner(16, ds))
  {
    var cs := Chars(ds);
    CharsInverse(ds);
    var text := "0x" + cs;
    assert text[..2] == "0x" && text[2..] == cs;
  }

  /** Text round trip, with and without leading zeros, zero included. */
  lemma HexRoundTrip(n: Key, removeLeadingZero: bool)
    ensures Parse(Text(n, removeLeadingZero)) == Parsed(Value(n))
  {
    var all := AllNibbles(n.val);
    AllNibblesValue(n.val);
    if removeLeadingZero {
      var ds := Trim(all);
      HornerPadded(16, Zeros(|all| - |ds|), ds);
      ParseChars(ds);
    } else {
      ParseChars(all);
    }
  }

  /** Writes one limb, lowest digit first, stopping at zero when asked to. */
  method ToHex(x: Limb, removeLeadingZero: bool) returns (buf: seq<Nibble>)
    ensures buf == if removeLeadingZero then Trim(Nibbles(x, 8)) else Nibbles(x, 8)
  {
    buf := [];
    var integer: nat := x;
    var i := 0;
    while i < 8 && !(removeLeadingZero && integer == 0)
      invariant i == |buf| <= 8
      invariant Nibbles(x, 8) == Nibbles(integer, 8 - i) + buf
      invariant integer < Pow(16, 8 - i)
      invariant integer == 0 && buf != [] && removeLeadingZero ==> buf[0] != 0
      decreases 8 - i
    {
      var high := Nibbles(integer / 16, 7 - i);
      assert Nibbles(integer, 8 - i) + buf == high + ([integer % 16] + buf);
      buf := [integer % 16] + buf;
      integer := integer / 16;
      i := i + 1;
    }
    if removeLeadingZero {
      ZeroNibbles(8 - i);
      TrimUnique(Nibbles(0, 8 - i), buf);
    }
  }

  lemma {:induction false} ZeroNibbles(n: nat)
    ensures forall i :: 0 <= i < n ==> Nibbles(0, n)[i] == 0
  {
    if n != 0 {
      ZeroNibbles(n - 1);
    }
  }

  lemma {:induction false} TrimConcat(xs: seq<Nibble>, ys: seq<Nibble>)
    ensures Trim(xs + ys) == if Trim(xs) == [] then Trim(ys) else Trim(xs) + ys
  {
    if xs == [] {
      assert xs + ys == ys;
    } else if xs[0] == 0 {
      assert (xs + ys)[1..] == xs[1..] + ys;
      TrimConcat(xs[1..], ys);
    }
  }

  /** The digits written for some limbs. */
  function Shown(limbs: seq<Limb>, removeLeadingZero: bool): (ds: seq<Nibble>) {
    if removeLeadingZero then Trim(AllNibbles(limbs)) else AllNibbles(limbs)
  }

  lemma ShownNext(limbs: seq<Limb>, x: Limb, removeLeadingZero: bool)
    ensures var before, after := Shown(limbs, removeLeadingZero), Shown(limbs + [x], removeLeadingZero);
            var trim := removeLeadingZero && before == [];
            after == before + (if trim then Trim(Nibbles(x, 8)) else Nibbles(x, 8)) && (trim ==> (after == [] <==> x == 0))
  {
    assert (limbs + [x])[..|limbs|] == limbs;
    TrimConcat(AllNibbles(limbs), Nibbles(x, 8));
    TrimmedEmpty(x);
  }

  method ToString(n: Key, removeLeadingZero: bool) returns (s: seq<char>)
    ensures s == Text(n, removeLeadingZero)
  {
    var digits: seq<Nibble> := [];
    var removeZero := removeLeadingZero;
    var i := 0;
    while i < INT_ARRAY_SIZE
      invariant i <= INT_ARRAY_SIZE
      invariant digits == Shown(n.val[..i], removeLeadingZero)
      invariant removeZero == (removeLeadingZero && digits == [])
    {
      var hex := ToHex(n.val[i], removeZero);
      assert n.val[..i + 1] == n.val[..i] + [n.val[i]];
      ShownNext(n.val[..i], n.val[i], removeLeadingZero);
      digits := digits + hex;
      if removeZero && n.val[i] != 0 {
        removeZero := false;
      }
      i := i + 1;
    }
    assert n.val[..i] == n.val;
    return "0x" + Chars(digits);
  }

  lemma TrimmedEmpty(x: Limb)
    ensures Trim(Nibbles(x, 8)) == [] <==> x == 0
  {
    SixteenPowers();
    NibblesValue(x, 8);
    ZeroNibbles(8);
    var ds := Nibbles(x, 8);
    if Trim(ds) == [] {
      HornerZeros(16, ds);
    }
    if x == 0 {
      assert ds + [] == ds;
      TrimUnique(ds, []);
    }
  }

  /** Fills the limbs from the left, shifting each in digit by digit. */
  method FromString(text: seq<char>) returns (p: Parsed, n: Key)
    ensures p == Parse(text)
    ensures p.Parsed? ==> Value(n) == p.value
  {
    n := Number([0, 0, 0, 0, 0]);
    if |text| > STRING_LENGTH || |text| < 2 || text[..2] != "0x" {
      return IllegalText, n;
    }
    var zeros := STRING_LENGTH - |text|;
    var limbs: seq<Limb> := [0, 0, 0, 0, 0];
    ghost var pad: seq<Nibble> := Zeros(zeros);
    var i, j := zeros, 2;
    PartialZero(pad);
    while i < STRING_LENGTH - 2
      invariant 2 <= j <= |text| && i == zeros + (j - 2)
      invariant Read(text, j, zeros, pad) && Filled(limbs, pad)
    {
      var digit := CharDigit(text[j]);
      if digit < 0 {
        assert CharDigit(text[2..][j - 2]) < 0;
        return NotHexadecimal, n;
      }
      ShiftIn(limbs, pad, digit);
      ReadNext(text, j, zeros, pad, digit);
      limbs := limbs[i / 8 := limbs[i / 8] * 16 + digit];
      pad := pad + [digit];
      i, j := i + 1, j + 1;
    }
    n := Number(limbs);
    p := Parsed(Value(n));
    assert text[2..] == text[2..j];
    WholeText(pad, limbs, zeros, CharDigits(text[2..]));
  }

  /** `pad` is the leading zeros and the digits of `text` up to position `j`. */
  ghost predicate Read(text: seq<char>, j: nat, zeros: nat, pad: seq<Nibble>) {
    2 <= j <= |text| && |text| + zeros == STRING_LENGTH &&
    AllHex(text[2..j]) && pad == Zeros(zeros) + CharDigits(text[2..j])
  }

  lemma ReadNext(text: seq<char>, j: nat, zeros: nat, pad: seq<Nibble>, d: Nibble)
    requires Read(text, j, zeros, pad) && j < |text| && CharDigit(text[j]) == d
    ensures Read(text, j + 1, zeros, pad + [d])
  {
    assert text[2..j + 1] == text[2..j] + [text[j]];
    assert CharDigits(text[2..j + 1]) == CharDigits(text[2..j]) + [d];
  }

  ghost predicate Filled(limbs: seq<Limb>, pad: seq<Nibble>) {
    |limbs| == INT_ARRAY_SIZE &&
    forall m :: 0 <= m < INT_ARRAY_SIZE ==> limbs[m] == Horner(16, Partial(pad, m))
  }

  lemma WholeText(pad: seq<Nibble>, limbs: seq<Limb>, zeros: nat, ds: seq<Nibble>)
    requires |pad| == 40 && pad == Zeros(zeros) + ds && Filled(limbs, pad)
    ensures Horner(WORD, limbs) == Horner(16, ds)
  {
    HornerPadded(16, Zeros(zeros), ds);
    SixteenPowers();
    HornerGrouped(16, 8, pad, limbs);
  }

  /** The digits read so far that belong to limb `m`. */
  function Partial(pad: seq<Nibble>, m: nat): (s: seq<Nibble>) {
    if |pad| <= 8 * m then [] else if |pad| >= 8 * m + 8 then pad[8 * m..8 * m + 8] else pad[8 * m..]
  }

  lemma PartialZero(zeros: seq<Nibble>)
    requires forall i :: 0 <= i < |zeros| ==> zeros[i] == 0
    ensures Filled([0, 0, 0, 0, 0], zeros)
  {
    forall m | 0 <= m < 5 ensures Horner(16, Partial(zeros, m)) == 0 {
      HornerZeros(16, Partial(zeros, m));
    }
  }

  lemma ShiftIn(limbs: seq<Limb>, pad: seq<Nibble>, d: Nibble)
    requires |pad| < 40 && Filled(limbs, pad)
    ensures limbs[|pad| / 8] * 16 + d < WORD
    ensures Filled(limbs[|pad| / 8 := limbs[|pad| / 8] * 16 + d], pad + [d])
  {
    var m := |pad| / 8;
    var s := Partial(pad, m);
    var t := Partial(pad + [d], m);
    assert t == s + [d];
    assert t[..|s|] == s;
    HornerBound(16, t);
    PowMonotone(|t|);
    SixteenPowers();
    forall k | 0 <= k < 5 && k != m ensures Partial(pad + [d], k) == Partial(pad, k) {
      PartialOther(pad, d, k);
    }
  }

  lemma PartialOther(pad: seq<Nibble>, d: Nibble, k: nat)
    requires k != |pad| / 8
    ensures Partial(pad + [d], k) == Partial(pad, k)
  {
  }

  lemma {:induction false} PowMonotone(n: nat)
    requires n <= 8
    ensures Pow(16, n) <= Pow(16, 8)
    decreases 8 - n
  {
    if n < 8 {
      PowMonotone(n + 1);
    }
  }
}
