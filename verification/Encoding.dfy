/** Wire encodings: 32-byte big-endian words, strict hex, signature limbs. */
module Encoding {
  import opened Field
  import opened Circuit

  type Byte = b: int | 0 <= b < 256

  const WORD := 32

  // ---------- big-endian numbers ----------

  function Pow256(n: nat): (r: nat)
    ensures r >= 1
  {
    if n == 0 then 1 else 256 * Pow256(n - 1)
  }

  /** Value of a big-endian byte string. */
  function Value(w: seq<Byte>): (r: nat)
    decreases |w|
  {
    if w == [] then 0 else w[0] * Pow256(|w| - 1) + Value(w[1..])
  }

  /** The n low bytes of x, big-endian. */
  function Bytes(x: nat, n: nat): (r: seq<Byte>)
    ensures |r| == n
  {
    if n == 0 then [] else Bytes(x / 256, n - 1) + [x % 256]
  }

  lemma {:induction false} HeadBound(b: Byte, p: nat)
    ensures b * p <= 255 * p
  {}

  lemma {:induction false} ValueBound(w: seq<Byte>)
    ensures Value(w) < Pow256(|w|)
    decreases |w|
  {
    if w != [] {
      ValueBound(w[1..]);
      HeadBound(w[0], Pow256(|w| - 1));
    }
  }

  lemma {:induction false} ValueSnoc(w: seq<Byte>, b: Byte)
    ensures Value(w + [b]) == 256 * Value(w) + b
    decreases |w|
  {
    if w == [] {
      assert [b][1..] == [];
    } else {
      assert (w + [b])[1..] == w[1..] + [b];
      ValueSnoc(w[1..], b);
      assert w[0] * (256 * Pow256(|w| - 1)) == 256 * (w[0] * Pow256(|w| - 1));
    }
  }

  lemma {:induction false} ValueOfBytes(x: nat, n: nat)
    requires x < Pow256(n)
    ensures Value(Bytes(x, n)) == x
  {
    if n != 0 {
      ValueOfBytes(x / 256, n - 1);
      ValueSnoc(Bytes(x / 256, n - 1), x % 256);
    }
  }

  lemma {:induction false} BytesSnoc(v: nat, b: Byte, n: nat)
    ensures Bytes(256 * v + b, n + 1) == Bytes(v, n) + [b]
  {}

  lemma {:induction false} BytesOfValue(w: seq<Byte>)
    ensures Bytes(Value(w), |w|) == w
    decreases |w|
  {
    if w != [] {
      var n := |w| - 1;
      assert w == w[..n] + [w[n]];
      ValueSnoc(w[..n], w[n]);
      BytesOfValue(w[..n]);
      BytesSnoc(Value(w[..n]), w[n], n);
    }
  }

  // ---------- array comparison ----------

  /** Rust's `<` on byte arrays: lexicographic. */
  predicate LessBytes(a: seq<Byte>, b: seq<Byte>)
    requires |a| == |b|
    decreases |a|
  {
    a != [] && (a[0] < b[0] || (a[0] == b[0] && LessBytes(a[1..], b[1..])))
  }

  lemma {:induction false} DigitOrder(x: int, y: int, u: int, v: int, p: int)
    requires 0 <= u < p && 0 <= v < p
    ensures x < y ==> x * p + u < y * p + v
    ensures x == y ==> (x * p + u < y * p + v <==> u < v)
  {
    if x < y { assert (x + 1) * p <= y * p; }
  }

  /** Byte-wise comparison of big-endian words is numeric comparison. */
  lemma {:induction false} LessIsNumeric(a: seq<Byte>, b: seq<Byte>)
    requires |a| == |b|
    ensures LessBytes(a, b) <==> Value(a) < Value(b)
    decreases |a|
  {
    if a != [] {
      LessIsNumeric(a[1..], b[1..]);
      ValueBound(a[1..]);
      ValueBound(b[1..]);
      DigitOrder(a[0], b[0], Value(a[1..]), Value(b[1..]), Pow256(|a| - 1));
      DigitOrder(b[0], a[0], Value(b[1..]), Value(a[1..]), Pow256(|a| - 1));
    }
  }

  predicate IsWord(w: seq<Byte>) {
    |w| == WORD
  }

  /** hexutil.rs and publics.rs `is_canonical`: below the modulus, byte-wise. */
  predicate IsCanonical(p: nat, w: seq<Byte>)
    requires IsWord(w)
  {
    LessBytes(w, Bytes(p, WORD))
  }

  /** A word is canonical exactly when it is the encoding of a field element,
      and distinct canonical words denote distinct elements. */
  lemma {:induction false} CanonicalWords(p: nat, w: seq<Byte>, v: seq<Byte>)
    requires 0 < p < Pow256(WORD) && IsWord(w) && IsWord(v)
    ensures IsCanonical(p, w) <==> InField(p, Value(w))
    ensures w == Bytes(Value(w), WORD)
    ensures IsCanonical(p, w) && IsCanonical(p, v) && w != v ==> Value(w) % p != Value(v) % p
  {
    LessIsNumeric(w, Bytes(p, WORD));
    LessIsNumeric(v, Bytes(p, WORD));
    ValueOfBytes(p, WORD);
    BytesOfValue(w);
    BytesOfValue(v);
    if IsCanonical(p, w) && IsCanonical(p, v) {
      RemUnique(Value(w), p, 0, Value(w));
      RemUnique(Value(v), p, 0, Value(v));
    }
  }

  // ---------- hex ----------

  datatype HexResult = Parsed(word: seq<Byte>) | BadFormat | NonCanonical

  function Digit(d: int): char
    requires 0 <= d < 16
  {
    if d < 10 then (d + '0' as int) as char else (d - 10 + 'a' as int) as char
  }

  function Lower(c: char): char {
    if 'A' <= c <= 'F' then c - 'A' + 'a' else c
  }

  /** Value of an ASCII hex digit of either case. */
  function DigitValue(c: char): (r: Option<int>)
    ensures r.Some? ==> 0 <= r.value < 16 && Digit(r.value) == Lower(c)
  {
    if '0' <= c <= '9' then Some(c as int - '0' as int)
    else if 'a' <= c <= 'f' then Some(c as int - 'a' as int + 10)
    else if 'A' <= c <= 'F' then Some(c as int - 'A' as int + 10)
    else None
  }

  function HexEncode(w: seq<Byte>): (r: string)
    ensures |r| == 2 * |w|
  {
    if w == [] then "" else [Digit(w[0] / 16), Digit(w[0] % 16)] + HexEncode(w[1..])
  }

  function HexDecode(s: string): (r: Option<seq<Byte>>)
    ensures r.Some? ==> 2 * |r.value| == |s|
    decreases |s|
  {
    if s == [] then Some([])
    else if |s| == 1 then None
    else
      var hi, lo, rest := DigitValue(s[0]), DigitValue(s[1]), HexDecode(s[2..]);
      if hi.None? || lo.None? || rest.None? then None else Some([16 * hi.value + lo.value] + rest.value)
  }

  function LowerAll(s: string): (r: string)
    ensures |r| == |s|
  {
    if s == [] then [] else [Lower(s[0])] + LowerAll(s[1..])
  }

  /** hexutil.rs `fr_hex`. */
  function FrHex(w: seq<Byte>): string {
    "0x" + HexEncode(w)
  }

  /** hexutil.rs `parse_fr`: 0x, 64 hex digits of either case, canonical. */
  function ParseFr(p: nat, s: string): HexResult {
    if |s| < 2 || s[..2] != "0x" then BadFormat
    else if |s| - 2 != 2 * WORD then BadFormat
    else
      match HexDecode(s[2..])
      case None => BadFormat
      case Some(w) => if IsCanonical(p, w) then Parsed(w) else NonCanonical
  }

  lemma {:induction false} DigitRoundTrip(d: int)
    requires 0 <= d < 16
    ensures DigitValue(Digit(d)) == Some(d)
  {}

  lemma {:induction false} DecodeCons(h: char, l: char, rest: string)
    ensures HexDecode([h, l] + rest) ==
            if DigitValue(h).None? || DigitValue(l).None? || HexDecode(rest).None? then None
            else Some([16 * DigitValue(h).value + DigitValue(l).value] + HexDecode(rest).value)
  {
    assert ([h, l] + rest)[2..] == rest;
  }

  lemma {:induction false} DecodeEncode(w: seq<Byte>)
    ensures HexDecode(HexEncode(w)) == Some(w)
    decreases |w|
  {
    if w != [] {
      DecodeEncode(w[1..]);
      var hi, lo := w[0] / 16, w[0] % 16;
      DigitRoundTrip(hi);
      DigitRoundTrip(lo);
      DecodeCons(Digit(hi), Digit(lo), HexEncode(w[1..]));
      assert [w[0]] + w[1..] == w;
    }
  }

  lemma {:induction false} EncodeCons(b: Byte, hi: int, lo: int, rest: seq<Byte>)
    requires 0 <= hi < 16 && 0 <= lo < 16 && b / 16 == hi && b % 16 == lo
    ensures HexEncode([b] + rest) == [Digit(hi), Digit(lo)] + HexEncode(rest)
  {
    assert ([b] + rest)[0] == b && ([b] + rest)[1..] == rest;
  }

  lemma {:induction false} Nibbles(hi: int, lo: int)
    requires 0 <= hi < 16 && 0 <= lo < 16
    ensures 0 <= 16 * hi + lo < 256 && (16 * hi + lo) / 16 == hi && (16 * hi + lo) % 16 == lo
  {}

  lemma {:induction false} LowerCons(h: char, l: char, rest: string)
    ensures LowerAll([h, l] + rest) == [Lower(h), Lower(l)] + LowerAll(rest)
  {
    assert ([h, l] + rest)[1..] == [l] + rest;
    assert ([l] + rest)[1..] == rest;
    assert LowerAll([h, l] + rest) == [Lower(h)] + ([Lower(l)] + LowerAll(rest));
  }

  lemma {:induction false} EncodeDecode(s: string)
    requires HexDecode(s).Some?
    ensures HexEncode(HexDecode(s).value) == LowerAll(s)
    decreases |s|
  {
    if s != [] {
      EncodeDecode(s[2..]);
      var hi, lo, rest := DigitValue(s[0]).value, DigitValue(s[1]).value, HexDecode(s[2..]).value;
      Nibbles(hi, lo);
      EncodeCons(16 * hi + lo, hi, lo, rest);
      assert s == [s[0], s[1]] + s[2..];
      LowerCons(s[0], s[1], s[2..]);
    }
  }

  /** Printing then parsing succeeds, as the identity, exactly on canonical
      words; every other word is refused as non-canonical. */
  lemma {:induction false} ParseOfHex(p: nat, w: seq<Byte>)
    requires IsWord(w)
    ensures ParseFr(p, FrHex(w)) == if IsCanonical(p, w) then Parsed(w) else NonCanonical
  {
    DecodeEncode(w);
    assert FrHex(w)[..2] == "0x" && FrHex(w)[2..] == HexEncode(w);
  }

  lemma {:induction false} LowerDecodes(s: string)
    ensures HexDecode(LowerAll(s)) == HexDecode(s)
    decreases |s|
  {
    if |s| >= 2 {
      LowerDecodes(s[2..]);
      assert s == [s[0], s[1]] + s[2..];
      LowerCons(s[0], s[1], s[2..]);
      DecodeCons(Lower(s[0]), Lower(s[1]), LowerAll(s[2..]));
    }
  }

  predicate Prefixed(s: string) {
    |s| >= 2 && s[..2] == "0x"
  }

  /** Letter case is ignored throughout: a string is treated as its lower-case form is,
      refusals included. */
  lemma {:induction false} CaseIgnored(p: nat, s: string)
    requires Prefixed(s)
    ensures ParseFr(p, "0x" + LowerAll(s[2..])) == ParseFr(p, s)
  {
    var t := "0x" + LowerAll(s[2..]);
    assert t[..2] == "0x" && t[2..] == LowerAll(s[2..]);
    LowerDecodes(s[2..]);
  }

  lemma {:induction false} AcceptedCanonical(p: nat, s: string)
    requires ParseFr(p, s).Parsed?
    ensures IsWord(ParseFr(p, s).word) && IsCanonical(p, ParseFr(p, s).word)
    ensures LowerAll(s[2..]) == HexEncode(ParseFr(p, s).word)
  {
    EncodeDecode(s[2..]);
  }

  /** A string is accepted and denotes the field element an accepted one does exactly
      when the two agree up to letter case. */
  lemma {:induction false} AcceptedStringsAgree(p: nat, s: string, t: string)
    requires 0 < p < Pow256(WORD) && ParseFr(p, s).Parsed?
    ensures ParseFr(p, t).Parsed? && Value(ParseFr(p, t).word) % p == Value(ParseFr(p, s).word) % p
            <==> Prefixed(t) && LowerAll(t[2..]) == LowerAll(s[2..])
  {
    AcceptedCanonical(p, s);
    if Prefixed(t) && LowerAll(t[2..]) == LowerAll(s[2..]) {
      CaseIgnored(p, s);
      CaseIgnored(p, t);
    }
    if ParseFr(p, t).Parsed? {
      AcceptedCanonical(p, t);
      CanonicalWords(p, ParseFr(p, s).word, ParseFr(p, t).word);
    }
  }

  /** The promise that only lower-case digits are accepted holds of an accepted string,
      and the string is the one `fr_hex` prints, exactly when it has no upper-case
      digit. */
  lemma {:induction false} PrintsBackIff(p: nat, s: string)
    requires ParseFr(p, s).Parsed?
    ensures FrHex(ParseFr(p, s).word) == s <==> forall i :: 2 <= i < |s| ==> !('A' <= s[i] <= 'F')
  {
    EncodeDecode(s[2..]);
    assert s == "0x" + s[2..];
    LowerIsSame(s[2..]);
    assert forall i :: 0 <= i < |s[2..]| ==> s[2..][i] == s[i + 2];
    if FrHex(ParseFr(p, s).word) == s {
      assert s[2..] == LowerAll(s[2..]);
      forall i | 2 <= i < |s| ensures !('A' <= s[i] <= 'F') { assert s[i] == s[2..][i - 2]; }
    }
  }

  lemma {:induction false} LowerIsSame(s: string)
    ensures LowerAll(s) == s <==> forall i :: 0 <= i < |s| ==> !('A' <= s[i] <= 'F')
  {
    if s != [] {
      LowerIsSame(s[1..]);
      assert s == [s[0]] + s[1..];
      assert forall i :: 0 < i < |s| ==> s[i] == s[1..][i - 1];
    }
  }

  /** Decoding byte by byte from the front. */
  lemma {:induction false} DecodeMore(s: string, t: string, d: Byte, v: seq<Byte>)
    requires |s| >= 2 && HexDecode(s).Some? && HexDecode(s).value[0] == d && HexDecode(s[2..] + t) == Some(v)
    ensures HexDecode(s + t) == Some([d] + v)
  {
    assert s + t == [s[0], s[1]] + (s[2..] + t);
    DecodeCons(s[0], s[1], s[2..] + t);
  }

  lemma {:induction false} DecodeAppend(s: string, t: string, a: seq<Byte>, b: seq<Byte>)
    requires HexDecode(s) == Some(a) && HexDecode(t) == Some(b)
    ensures HexDecode(s + t) == Some(a + b)
    decreases |s|
  {
    if s == [] {
      assert s + t == t && a + b == b;
    } else {
      var d, rest := a[0], HexDecode(s[2..]).value;
      DecodeAppend(s[2..], t, rest, b);
      DecodeMore(s, t, d, rest + b);
      FirstApart(d, rest, b);
    }
  }

  lemma {:induction false} FirstApart(d: Byte, v: seq<Byte>, w: seq<Byte>)
    ensures ([d] + v) + w == [d] + (v + w)
  {}

  lemma {:induction false} DecodePair(h: char, l: char, b: Byte)
    requires DigitValue(h).Some? && DigitValue(l).Some? && b == 16 * DigitValue(h).value + DigitValue(l).value
    ensures HexDecode([h, l]) == Some([b])
  {
    DecodeCons(h, l, "");
    assert [h, l] + "" == [h, l];
    assert [b] + HexDecode("").value == [b];
  }

  /** The number ten, its last digit spelled as given. */
  function Ten(last: char): string {
    "0x" + (HexEncode(Zeros(WORD - 1)) + ['0', last])
  }

  lemma {:induction false} TenIs(w: seq<Byte>)
    requires w == Zeros(WORD - 1) + [10]
    ensures Value(w) == 10 && w == Bytes(10, WORD)
  {
    ZeroExtended(WORD - 1, [10]);
    assert Value([10]) == 10;
    BytesOfValue(w);
  }

  lemma {:induction false} TenAccepted(p: nat, last: char, w: seq<Byte>)
    requires DigitValue(last) == Some(10) && w == Zeros(WORD - 1) + [10]
    requires IsCanonical(p, w)
    ensures ParseFr(p, Ten(last)) == Parsed(w)
  {
    var z := Zeros(WORD - 1);
    DecodeEncode(z);
    DecodePair('0', last, 10);
    DecodeAppend(HexEncode(z), ['0', last], z, [10]);
    assert Ten(last)[..2] == "0x" && Ten(last)[2..] == HexEncode(z) + ['0', last];
  }

  /** An input that breaks the promise: ten with a capital A is accepted, as the word
      of ten with a small one, and does not print back. */
  lemma {:induction false} UpperCaseAccepted(p: nat)
    requires 10 < p < Pow256(WORD)
    ensures ParseFr(p, Ten('A')) == ParseFr(p, Ten('a')) == Parsed(Bytes(10, WORD))
    ensures FrHex(Bytes(10, WORD)) != Ten('A')
  {
    var w, k := Zeros(WORD - 1) + [10], 2 * WORD + 1;
    TenIs(w);
    LessIsNumeric(w, Bytes(p, WORD));
    ValueOfBytes(p, WORD);
    TenAccepted(p, 'A', w);
    TenAccepted(p, 'a', w);
    PrintsBackIff(p, Ten('A'));
    assert Ten('A')[k] == 'A';
  }

  // ---------- field elements as strings ----------

  function FieldHex(x: nat): string {
    FrHex(Bytes(x, WORD))
  }

  function ParseField(p: nat, s: string): Option<nat> {
    match ParseFr(p, s) case Parsed(w) => Some(Value(w)) case _ => None
  }

  lemma {:induction false} FieldRoundTrip(p: nat, x: nat)
    requires p < Pow256(WORD) && x < p
    ensures ParseField(p, FieldHex(x)) == Some(x)
  {
    ParseOfHex(p, Bytes(x, WORD));
    LessIsNumeric(Bytes(x, WORD), Bytes(p, WORD));
    ValueOfBytes(x, WORD);
    ValueOfBytes(p, WORD);
  }

  // ---------- signature limbs (keys.rs) ----------

  const HALF := 16

  function Zeros(n: nat): (r: seq<Byte>)
    ensures |r| == n && forall i :: 0 <= i < n ==> r[i] == 0
  {
    if n == 0 then [] else [0] + Zeros(n - 1)
  }

  /** `s_limbs` on the 32 bytes of s: each half copied behind 16 zero bytes. */
  method SLimbs(full: array<Byte>) returns (lo: array<Byte>, hi: array<Byte>)
    requires full.Length == WORD
    ensures fresh(lo) && fresh(hi) && lo.Length == WORD && hi.Length == WORD
    ensures lo[..] == Zeros(HALF) + full[HALF..] && hi[..] == Zeros(HALF) + full[..HALF]
  {
    lo, hi := new Byte[WORD](_ => 0), new Byte[WORD](_ => 0);
    for i := 0 to HALF
      invariant forall k :: 0 <= k < HALF ==> lo[k] == 0 && hi[k] == 0
      invariant forall k :: HALF <= k < HALF + i ==> lo[k] == full[k] && hi[k] == full[k - HALF]
    {
      lo[HALF + i] := full[HALF + i];
      hi[HALF + i] := full[i];
    }
  }

  /** `from_limbs`: refuses limbs above 128 bits, else joins the low halves. */
  function FromLimbs(lo: seq<Byte>, hi: seq<Byte>): Option<seq<Byte>>
    requires IsWord(lo) && IsWord(hi)
  {
    if lo[..HALF] != Zeros(HALF) || hi[..HALF] != Zeros(HALF) then None else Some(hi[HALF..] + lo[HALF..])
  }

  lemma {:induction false} ValueSplit(a: seq<Byte>, b: seq<Byte>)
    ensures Value(a + b) == Value(a) * Pow256(|b|) + Value(b)
    decreases |b|
  {
    if b == [] {
      assert a + b == a;
    } else {
      var n := |b| - 1;
      assert a + b == (a + b[..n]) + [b[n]];
      assert b == b[..n] + [b[n]];
      ValueSnoc(a + b[..n], b[n]);
      ValueSnoc(b[..n], b[n]);
      ValueSplit(a, b[..n]);
      assert 256 * (Value(a) * Pow256(n)) == Value(a) * (256 * Pow256(n));
    }
  }

  lemma {:induction false} ValueOfZeros(n: nat)
    ensures Value(Zeros(n)) == 0
  {
    if n != 0 {
      ValueOfZeros(n - 1);
      assert Zeros(n)[1..] == Zeros(n - 1);
    }
  }

  lemma {:induction false} DivRem(x: nat, p: nat, q: nat, r: nat)
    requires x == q * p + r && r < p
    ensures x / p == q && x % p == r
  {
    RemUnique(x, p, q, r);
    assert x == (x / p) * p + x % p;
    assert (x / p - q) * p == 0;
    MultipleBound(x / p - q, p);
  }

  /** A half word behind zeros keeps its value. */
  lemma {:induction false} ZeroExtended(n: nat, b: seq<Byte>)
    ensures Value(Zeros(n) + b) == Value(b)
    ensures (Zeros(n) + b)[..n] == Zeros(n) && (Zeros(n) + b)[n..] == b
  {
    ValueSplit(Zeros(n), b);
    ValueOfZeros(n);
  }

  /** Splitting and joining is the identity on all 32 bytes, and the two limbs
      are the low and high 128 bits of the number. */
  lemma {:induction false} LimbsRoundTrip(full: seq<Byte>)
    requires IsWord(full)
    ensures var lo, hi := Zeros(HALF) + full[HALF..], Zeros(HALF) + full[..HALF];
            && FromLimbs(lo, hi) == Some(full)
            && Value(lo) == Value(full) % Pow256(HALF) && Value(hi) == Value(full) / Pow256(HALF)
  {
    var a, b := full[..HALF], full[HALF..];
    assert full == a + b;
    ValueSplit(a, b);
    ValueBound(b);
    ZeroExtended(HALF, a);
    ZeroExtended(HALF, b);
    DivRem(Value(full), Pow256(HALF), Value(a), Value(b));
  }

  /** Accepted limbs are determined by the joined bytes: the wire form of a
      scalar is unique. */
  lemma {:induction false} LimbsUnique(lo: seq<Byte>, hi: seq<Byte>)
    requires IsWord(lo) && IsWord(hi) && FromLimbs(lo, hi).Some?
    ensures var full := FromLimbs(lo, hi).value;
            lo == Zeros(HALF) + full[HALF..] && hi == Zeros(HALF) + full[..HALF]
  {
    var full := FromLimbs(lo, hi).value;
    assert full[HALF..] == lo[HALF..] && full[..HALF] == hi[HALF..];
    assert lo == lo[..HALF] + lo[HALF..] && hi == hi[..HALF] + hi[HALF..];
  }
}
