/** generateRefreshToken and generateOTP, with the random bytes as a parameter. */
module Generators {
  import opened Schema
  import opened Lists
  import opened Numerals

  // ---- refresh tokens ----

  const BYTES := 16
  const LENGTH := 24

  function Char36(d: nat): char
    requires d < 36
  {
    if d < 10 then (d + '0' as int) as char else (d - 10 + 'a' as int) as char
  }

  predicate IsChar36(c: char) {
    '0' <= c <= '9' || 'a' <= c <= 'z'
  }

  function Digit36(c: char): (d: nat)
    requires IsChar36(c)
    ensures d < 36 && Char36(d) == c
  {
    if '0' <= c <= '9' then c as int - '0' as int else c as int - 'a' as int + 10
  }

  function Text(ds: seq<nat>): (s: string)
    requires DigitsIn(ds, 36)
    ensures |s| == |ds| && forall i :: 0 <= i < |s| ==> s[i] == Char36(ds[i])
  {
    seq(|ds|, i requires 0 <= i < |ds| => Char36(ds[i]))
  }

  function Read36(s: string): (ds: seq<nat>)
    requires forall i :: 0 <= i < |s| ==> IsChar36(s[i])
    ensures |ds| == |s| && DigitsIn(ds, 36) && Text(ds) == s
  {
    seq(|s|, i requires 0 <= i < |s| => Digit36(s[i]))
  }

  /** BigInt.toString(36): no leading zeros, "0" for zero. */
  function ToString36(n: nat): (s: string)
    ensures |s| > 0
  {
    if n < 36 then [Char36(n)] else ToString36(n / 36) + [Char36(n % 36)]
  }

  function Zeros(k: nat): (s: string)
    ensures |s| == k && forall i :: 0 <= i < k ==> s[i] == '0'
  {
    seq(k, i => '0')
  }

  function PadStart(s: string, w: nat): string {
    if |s| < w then Zeros(w - |s|) + s else s
  }

  /** slice(-w). */
  function Tail(s: string, w: nat): string {
    if |s| <= w then s else s[|s| - w..]
  }

  function Low36(n: nat, w: nat): string {
    Text(Numeral(n, w, 36))
  }

  lemma Low36Step(n: nat, w: nat)
    ensures Low36(n, w + 1) == Low36(n / 36, w) + [Char36(n % 36)]
  {
  }

  lemma {:induction false} ZeroDigits(w: nat)
    ensures Low36(0, w) == Zeros(w)
  {
    if w > 0 {
      ZeroDigits(w - 1);
      Low36Step(0, w - 1);
      assert Zeros(w) == Zeros(w - 1) + ['0'];
    }
  }

  lemma TailOfExtended(front: string, c: char, w: nat)
    ensures Tail(PadStart(front + [c], w + 1), w + 1) == Tail(PadStart(front, w), w) + [c]
  {
    if |front| < w {
      assert Zeros(w - |front|) + (front + [c]) == Zeros(w - |front|) + front + [c];
    } else {
      assert Tail(front + [c], w + 1) == Tail(front, w) + [c];
    }
  }

  /** Printing, padding and cutting give the w low base-36 digits, whatever the number. */
  lemma {:induction false} PaddedTailIsLowDigits(n: nat, w: nat)
    ensures Tail(PadStart(ToString36(n), w), w) == Low36(n, w)
    decreases w
  {
    hide Low36, PadStart, Tail;
    if w == 0 {
      EmptyTail(n);
    } else {
      Low36Step(n, w - 1);
      if n < 36 {
        ZeroDigits(w - 1);
        PaddedNothing(w - 1);
        assert ToString36(n) == [] + [Char36(n)];
        TailOfExtended([], Char36(n), w - 1);
      } else {
        PaddedTailIsLowDigits(n / 36, w - 1);
        TailOfExtended(ToString36(n / 36), Char36(n % 36), w - 1);
      }
    }
  }

  lemma EmptyTail(n: nat)
    ensures Tail(PadStart(ToString36(n), 0), 0) == Low36(n, 0)
  {
    hide ToString36;
  }

  lemma PaddedNothing(w: nat)
    ensures Tail(PadStart([], w), w) == Zeros(w)
  {
  }

  /** generateRefreshToken: the low 24 base-36 digits of the big-endian value of the bytes, unchanged by the schema. */
  method GenerateRefreshToken(bytes: seq<nat>) returns (token: string)
    requires IsBytes(bytes)
    ensures token == Low36(Value(bytes, 256), LENGTH)
    ensures IsToken(token) && TokenSchema(token) == Some(token)
    ensures Value(Read36(token), 36) == Value(bytes, 256) % Pow(36, LENGTH)
  {
    var num: nat := 0;
    for i := 0 to |bytes|
      invariant num == Value(bytes[..i], 256)
    {
      num := num * 256 + bytes[i];
      assert bytes[..i + 1][..i] == bytes[..i];
    }
    assert bytes[..|bytes|] == bytes;
    token := Tail(PadStart(ToString36(num), LENGTH), LENGTH);
    PaddedTailIsLowDigits(num, LENGTH);
    LowDigitsPassTheSchema(num);
    var _ := TokenIsTheResidue(num, token);
  }

  /** What String.prototype.trim removes. */
  predicate IsSpace(c: char) {
    || '\U{9}' <= c <= '\U{d}'
    || '\U{2000}' <= c <= '\U{200a}'
    || c in ['\U{20}', '\U{a0}', '\U{1680}', '\U{2028}', '\U{2029}', '\U{202f}', '\U{205f}', '\U{3000}', '\U{feff}']
  }

  function TrimStart(s: string): string {
    if s != [] && IsSpace(s[0]) then TrimStart(s[1..]) else s
  }

  function TrimEnd(s: string): string {
    if s != [] && IsSpace(s[|s| - 1]) then TrimEnd(s[..|s| - 1]) else s
  }

  /** The refreshToken schema: trim, then 24 characters out of 0-9 and a-z. */
  function TokenSchema(s: string): Option<string> {
    var t := TrimEnd(TrimStart(s));
    if |t| == LENGTH && forall i :: 0 <= i < |t| ==> IsChar36(t[i]) then Some(t) else None
  }

  lemma LowDigitsPassTheSchema(n: nat)
    ensures IsToken(Low36(n, LENGTH)) && TokenSchema(Low36(n, LENGTH)) == Some(Low36(n, LENGTH))
  {
  }

  // ---- how many byte strings give one token ----

  lemma PowersCompare()
    ensures 15 * Pow(36, LENGTH) < Pow(256, BYTES) < 16 * Pow(36, LENGTH)
  {
    assert Pow(36, 6) == 2176782336;
    assert Pow(36, 12) == 4738381338321616896;
    assert Pow(36, 18) == 10314424798490535546171949056;
    assert Pow(36, 24) == 22452257707354557240087211123792674816;
    assert Pow(256, 4) == 4294967296;
    assert Pow(256, 8) == 18446744073709551616;
    assert Pow(256, 16) == 340282366920938463463374607431768211456;
  }

  predicate IsBytes(bytes: seq<nat>) {
    |bytes| == BYTES && DigitsIn(bytes, 256)
  }

  predicate IsToken(s: string) {
    |s| == LENGTH && forall i :: 0 <= i < |s| ==> IsChar36(s[i])
  }

  function Offset(v: nat, k: nat): nat {
    v + Times(k, Pow(36, LENGTH))
  }

  /** Sixteen for the low end of the token space, fifteen for the rest. */
  function PreimageCount(v: nat): nat {
    if Offset(v, 15) < Pow(256, BYTES) then 16 else 15
  }

  /** The byte strings whose value is the token's plus a multiple of 36^24. */
  function Preimages(s: string): (ps: seq<seq<nat>>)
    requires IsToken(s)
    ensures |ps| == 15 || |ps| == 16
  {
    var v := Value(Read36(s), 36);
    seq(PreimageCount(v), k requires 0 <= k => Numeral(Offset(v, k), BYTES, 256))
  }

  lemma OffsetInRange(v: nat, k: nat)
    requires v < Pow(36, LENGTH)
    ensures Offset(v, k) < Pow(256, BYTES) <==> k < PreimageCount(v)
  {
    hide Pow, Times;
    PowersCompare();
    var p := Pow(36, LENGTH);
    TimesValues(p);
    if k < 15 {
      TimesMonotone(k, 15, p);
    } else if k > 15 {
      TimesMonotone(15, k, p);
    }
  }

  lemma TimesValues(p: nat)
    ensures Times(15, p) == 15 * p
  {
  }

  lemma SmallValueKept(n: nat)
    requires n < Pow(256, BYTES)
    ensures Value(Numeral(n, BYTES, 256), 256) == n
  {
    hide Times, Pow, Value, Numeral;
    var k := ValueOfNumeral(n, BYTES, 256);
    TimesZero(Pow(256, BYTES));
    SameRemainder(Value(Numeral(n, BYTES, 256), 256), k, n, 0, Pow(256, BYTES));
  }

  lemma TextInjective(a: seq<nat>, b: seq<nat>)
    requires DigitsIn(a, 36) && DigitsIn(b, 36) && Text(a) == Text(b)
    ensures a == b
  {
    forall i | 0 <= i < |a|
      ensures a[i] == b[i]
    {
      assert Text(a)[i] == Text(b)[i];
    }
  }

  lemma OffsetsPrintAlike(s: string, k: nat)
    requires IsToken(s)
    ensures Low36(Offset(Value(Read36(s), 36), k), LENGTH) == s
  {
    hide Times, Pow, Value, Numeral;
    var ds := Read36(s);
    ValueBound(ds, 36);
    NumeralOfSum(Value(ds, 36), k, LENGTH, 36);
    NumeralOfValue(ds, 36);
  }

  /** A token's value is the value of the bytes modulo 36^24. */
  lemma TokenIsTheResidue(n: nat, s: string) returns (k: nat)
    requires IsToken(s) && Low36(n, LENGTH) == s
    ensures n == Offset(Value(Read36(s), 36), k)
    ensures Value(Read36(s), 36) < Pow(36, LENGTH) && Value(Read36(s), 36) == n % Pow(36, LENGTH)
  {
    hide Times, Pow, Value, Numeral, Quotient;
    k := ValueOfNumeral(n, LENGTH, 36);
    TextInjective(Numeral(n, LENGTH, 36), Read36(s));
    DivideBack(k, Value(Read36(s), 36), Pow(36, LENGTH));
  }

  lemma PreimageFacts(s: string, k: nat)
    requires IsToken(s) && k < |Preimages(s)|
    ensures IsBytes(Preimages(s)[k])
    ensures Value(Preimages(s)[k], 256) == Offset(Value(Read36(s), 36), k)
    ensures Low36(Value(Preimages(s)[k], 256), LENGTH) == s
  {
    hide Times, Pow, Value, Numeral, Low36, Read36;
    var v := Value(Read36(s), 36);
    ValueBound(Read36(s), 36);
    OffsetInRange(v, k);
    SmallValueKept(Offset(v, k));
    OffsetsPrintAlike(s, k);
  }

  /** Every 24-character base-36 string comes from exactly the listed byte strings, 15 or 16 in number. */
  lemma EveryTokenHasFifteenOrSixteenPreimages(s: string)
    requires IsToken(s)
    ensures Distinct(Preimages(s))
    ensures forall bytes :: IsBytes(bytes) ==> (Low36(Value(bytes, 256), LENGTH) == s <==> bytes in Preimages(s))
    ensures |Preimages(s)| == 16 <==> Value(Read36(s), 36) + 15 * Pow(36, LENGTH) < Pow(256, BYTES)
  {
    hide Pow, Value, Numeral, Low36, Read36, IsBytes, DigitsIn;
    forall i, j | 0 <= i < j < |Preimages(s)|
      ensures Preimages(s)[i] != Preimages(s)[j]
    {
      PreimageFacts(s, i);
      PreimageFacts(s, j);
      OffsetsDiffer(Value(Read36(s), 36), i, j);
    }
    forall bytes | IsBytes(bytes)
      ensures Low36(Value(bytes, 256), LENGTH) == s <==> bytes in Preimages(s)
    {
      if Low36(Value(bytes, 256), LENGTH) == s {
        PreimageListed(bytes, s);
      }
      if bytes in Preimages(s) {
        var k :| 0 <= k < |Preimages(s)| && Preimages(s)[k] == bytes;
        PreimageFacts(s, k);
      }
    }
  }

  lemma OffsetsDiffer(v: nat, i: nat, j: nat)
    requires i < j
    ensures Offset(v, i) != Offset(v, j)
  {
    hide Pow, Times;
    PowersCompare();
    TimesMonotone(i, j, Pow(36, LENGTH));
  }

  lemma PreimageListed(bytes: seq<nat>, s: string)
    requires IsToken(s) && IsBytes(bytes) && Low36(Value(bytes, 256), LENGTH) == s
    ensures bytes in Preimages(s)
  {
    hide Times, Pow, Value, Numeral, Low36, Read36;
    var n := Value(bytes, 256);
    var k := TokenIsTheResidue(n, s);
    ValueBound(bytes, 256);
    OffsetInRange(Value(Read36(s), 36), k);
    NumeralOfValue(bytes, 256);
    assert Preimages(s)[k] == bytes;
  }

  // ---- one-time codes ----

  const CODE_LENGTH := 6
  const LIMIT := 250

  function Accepted(stream: seq<nat>): (kept: seq<nat>)
    ensures DigitsIn(kept, LIMIT)
  {
    if stream == [] then []
    else
      var before := Accepted(stream[..|stream| - 1]);
      if stream[|stream| - 1] < LIMIT then before + [stream[|stream| - 1]] else before
  }

  /** The decimal digit that a byte below 250 stands for. */
  function CodeOf(bytes: seq<nat>): (s: string)
    ensures |s| == |bytes|
  {
    seq(|bytes|, i requires 0 <= i < |bytes| => DigitChar(bytes[i] % 10))
  }

  function DigitChar(d: nat): char
    requires d < 10
  {
    (d + '0' as int) as char
  }

  predicate IsDigitChar(c: char) {
    '0' <= c <= '9'
  }

  /** The otp schema: trim, then six decimal digits. */
  function OtpSchema(s: string): Option<string> {
    var t := TrimEnd(TrimStart(s));
    if |t| == CODE_LENGTH && forall i :: 0 <= i < |t| ==> IsDigitChar(t[i]) then Some(t) else None
  }

  lemma {:induction false} AcceptedOfPrefix(stream: seq<nat>, k: nat)
    requires k <= |stream|
    ensures Accepted(stream[..k]) <= Accepted(stream)
    decreases |stream|
  {
    if k == |stream| {
      assert stream[..k] == stream;
    } else {
      AcceptedOfPrefix(stream[..|stream| - 1], k);
      assert stream[..|stream| - 1][..k] == stream[..k];
    }
  }

  lemma AcceptedStep(stream: seq<nat>, k: nat)
    requires k < |stream|
    ensures stream[k] < LIMIT ==> Accepted(stream[..k + 1]) == Accepted(stream[..k]) + [stream[k]]
    ensures stream[k] >= LIMIT ==> Accepted(stream[..k + 1]) == Accepted(stream[..k])
  {
    assert stream[..k + 1][..k] == stream[..k];
  }

  /** generateOTP reads random bytes one by one and stops right after the sixth one below 250. */
  method GenerateOtp(stream: seq<nat>) returns (otp: string, used: nat)
    requires |Accepted(stream)| >= CODE_LENGTH
    ensures otp == CodeOf(Accepted(stream)[..CODE_LENGTH])
    ensures CODE_LENGTH <= used <= |stream| && |Accepted(stream[..used])| == CODE_LENGTH
    ensures stream[used - 1] < LIMIT
    ensures OtpSchema(otp) == Some(otp)
  {
    hide Accepted, CodeOf, OtpSchema;
    otp := "";
    used := 0;
    NothingYet(stream);
    for i := 0 to CODE_LENGTH
      invariant i <= used <= |stream|
      invariant |Accepted(stream[..used])| == i && otp == CodeOf(Accepted(stream[..used]))
      invariant i > 0 ==> stream[used - 1] < LIMIT
    {
      ghost var found := Accepted(stream[..used]);
      MoreToCome(stream, used);
      var digit := stream[used];
      AcceptedStep(stream, used);
      used := used + 1;
      while digit >= LIMIT
        invariant i < used <= |stream| && digit == stream[used - 1]
        invariant Accepted(stream[..used]) == if digit < LIMIT then found + [digit] else found
        decreases |stream| - used
      {
        MoreToCome(stream, used);
        digit := stream[used];
        AcceptedStep(stream, used);
        used := used + 1;
      }
      otp := otp + [DigitChar(digit % 10)];
      CodeOfExtended(found, digit);
    }
    AcceptedOfPrefix(stream, used);
    assert Accepted(stream)[..CODE_LENGTH] == Accepted(stream[..used]);
    CodesPassTheSchema(Accepted(stream[..used]));
  }

  lemma NothingYet(stream: seq<nat>)
    ensures Accepted(stream[..0]) == [] && CodeOf([]) == ""
  {
  }

  lemma CodeOfExtended(bytes: seq<nat>, b: nat)
    ensures CodeOf(bytes + [b]) == CodeOf(bytes) + [DigitChar(b % 10)]
  {
  }

  lemma MoreToCome(stream: seq<nat>, used: nat)
    requires used <= |stream| && |Accepted(stream[..used])| < |Accepted(stream)|
    ensures used < |stream|
  {
    assert stream[..|stream|] == stream;
  }

  lemma CodesPassTheSchema(bytes: seq<nat>)
    requires |bytes| == CODE_LENGTH
    ensures OtpSchema(CodeOf(bytes)) == Some(CodeOf(bytes))
  {
    assert forall i :: 0 <= i < CODE_LENGTH ==> IsDigitChar(CodeOf(bytes)[i]);
  }

  // ---- no code is likelier than another ----

  predicate IsCode(code: string) {
    forall i :: 0 <= i < |code| ==> IsDigitChar(code[i])
  }

  /** The bytes that print as `code`, one per choice of tens. */
  function WithTens(code: string, tens: seq<nat>): (bytes: seq<nat>)
    requires IsCode(code) && |tens| == |code| && DigitsIn(tens, 25)
    ensures |bytes| == |code| && DigitsIn(bytes, LIMIT) && CodeOf(bytes) == code
    ensures forall i :: 0 <= i < |bytes| ==> bytes[i] / 10 == tens[i]
  {
    seq(|code|, i requires 0 <= i < |code| => tens[i] * 10 + (code[i] as int - '0' as int))
  }

  function CodeSources(code: string): (all: seq<seq<nat>>)
    requires IsCode(code)
    ensures |all| == Pow(25, |code|)
  {
    seq(Pow(25, |code|), m requires 0 <= m => WithTens(code, Numeral(m, |code|, 25)))
  }

  function TensOf(bytes: seq<nat>): (tens: seq<nat>)
    requires DigitsIn(bytes, LIMIT)
    ensures |tens| == |bytes| && DigitsIn(tens, 25)
  {
    seq(|bytes|, i requires 0 <= i < |bytes| => bytes[i] / 10)
  }

  lemma TensRoundTrip(code: string, tens: seq<nat>)
    requires IsCode(code) && |tens| == |code| && DigitsIn(tens, 25)
    ensures TensOf(WithTens(code, tens)) == tens
  {
  }

  lemma TensDetermineBytes(bytes: seq<nat>)
    requires DigitsIn(bytes, LIMIT)
    ensures IsCode(CodeOf(bytes)) && WithTens(CodeOf(bytes), TensOf(bytes)) == bytes
  {
  }

  lemma SourceIndex(code: string, m: nat)
    requires IsCode(code) && m < Pow(25, |code|)
    ensures DigitsIn(CodeSources(code)[m], LIMIT) && CodeOf(CodeSources(code)[m]) == code
    ensures |CodeSources(code)[m]| == |code|
    ensures Value(TensOf(CodeSources(code)[m]), 25) == m
  {
    hide Times, Pow, Value, Numeral;
    var tens := Numeral(m, |code|, 25);
    TensRoundTrip(code, tens);
    var k := ValueOfNumeral(m, |code|, 25);
    TimesZero(Pow(25, |code|));
    SameRemainder(Value(tens, 25), k, m, 0, Pow(25, |code|));
  }

  /** Rejection removes the bias: every code of n digits has exactly 25^n sources among accepted bytes. */
  lemma EveryCodeIsEquallyLikely(code: string)
    requires IsCode(code)
    ensures Distinct(CodeSources(code)) && |CodeSources(code)| == Pow(25, |code|)
    ensures forall bytes :: DigitsIn(bytes, LIMIT) ==> (CodeOf(bytes) == code <==> bytes in CodeSources(code))
  {
    hide CodeOf, CodeSources, TensOf, Pow, Value, Numeral, DigitsIn;
    forall i, j | 0 <= i < j < |CodeSources(code)|
      ensures CodeSources(code)[i] != CodeSources(code)[j]
    {
      SourceIndex(code, i);
      SourceIndex(code, j);
    }
    forall bytes | DigitsIn(bytes, LIMIT)
      ensures CodeOf(bytes) == code <==> bytes in CodeSources(code)
    {
      if CodeOf(bytes) == code {
        SourceListed(bytes);
      }
      if bytes in CodeSources(code) {
        var m :| 0 <= m < |CodeSources(code)| && CodeSources(code)[m] == bytes;
        SourceIndex(code, m);
      }
    }
  }

  lemma SourceListed(bytes: seq<nat>)
    requires DigitsIn(bytes, LIMIT)
    ensures IsCode(CodeOf(bytes)) && bytes in CodeSources(CodeOf(bytes))
  {
    hide CodeOf, TensOf, Pow, Value, Numeral, WithTens;
    var code := CodeOf(bytes);
    var tens := TensOf(bytes);
    TensDetermineBytes(bytes);
    ValueBound(tens, 25);
    NumeralOfValue(tens, 25);
    assert CodeSources(code)[Value(tens, 25)] == bytes;
  }
}
