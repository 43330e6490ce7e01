/** One-time passwords: the counter block and truncation of RFC 4226, and the window search of RFC 6238. The keyed
    hash is any function from blocks to digests. Counters are whole numbers. */
module Totp {
  import opened Wrappers
  import opened Division

  type Byte = b: int | 0 <= b < 256

  const TWO_31 := 0x8000_0000
  const TWO_32 := 0x1_0000_0000
  const TWO_64 := 0x1_0000_0000_0000_0000
  const MAX_SAFE_INTEGER := 0x1F_FFFF_FFFF_FFFF

  // ---- the counter block ----

  /** What the bit operators make of a number first. */
  function ToInt32(x: int): (r: int)
    ensures -TWO_31 <= r < TWO_31
  {
    (x + TWO_31) % TWO_32 - TWO_31
  }

  /** The n low bytes of a two's complement number, most significant first. */
  function Bytes(v: int, n: nat): (s: seq<Byte>)
    ensures |s| == n
    decreases n
  {
    if n == 0 then [] else Bytes(v / 256, n - 1) + [v % 256]
  }

  function Power(base: nat, n: nat): (r: nat)
    ensures base > 0 ==> r > 0
  {
    if n == 0 then 1 else base * Power(base, n - 1)
  }

  function BigEndian(s: seq<Byte>): nat {
    if s == [] then 0 else 256 * BigEndian(s[..|s|-1]) + s[|s|-1]
  }

  function Block(counter: int): seq<Byte> { Bytes(ToInt32(counter), 8) }

  /** Fills the 8 byte buffer from its end, a byte and a shift at a time. */
  method CounterBlock(counter: int) returns (buf: array<Byte>)
    ensures fresh(buf) && buf[..] == Block(counter)
  {
    hide ToInt32, Bytes;
    buf := new Byte[8](_ => 0);
    var tmp := counter;
    var i := 0;
    while i < 8
      invariant i <= 8 && buf.Length == 8
      invariant Block(counter) == Bytes(ToInt32(tmp), 8 - i) + buf[8-i..]
    {
      var low := ToInt32(tmp);
      ghost var done := buf[8-i..];
      OneByteMore(low, 8 - i, done);
      buf[7 - i] := low % 256;
      assert buf[7-i..] == [low % 256] + done;
      tmp := low / 256;
      Int32Stays(tmp);
      i := i + 1;
    }
    assert buf[0..] == buf[..] && Bytes(ToInt32(tmp), 0) == [];
  }

  lemma OneByteMore(x: int, n: nat, done: seq<Byte>)
    requires n > 0
    ensures Bytes(x, n) + done == Bytes(x / 256, n - 1) + ([x % 256] + done)
  {
  }

  lemma Int32Stays(x: int)
    requires -TWO_31 <= x < TWO_31
    ensures ToInt32(x) == x
  {
  }

  /** A digit in front of the remainder: how both bases carry. */
  lemma Carry(v: int, base: int, power: int, c: int)
    requires base > 0 && power > 0 && 0 <= c < base
    ensures (base * v + c) % (base * power) == base * (v % power) + c
  {
    var q, r := v / power, v % power;
    assert v == power * q + r;
    assert base * (r + 1) <= base * power;
    assert base * v + c == (base * power) * q + (base * r + c) by {
      assert base * v == base * (power * q) + base * r;
      assert base * (power * q) == (base * power) * q;
    }
    assert base * power > 0;
    Quotient(base * v + c, base * power, q, base * r + c);
  }

  lemma {:induction false} BytesDecode(v: int, n: nat)
    ensures BigEndian(Bytes(v, n)) == v % Power(256, n)
    decreases n
  {
    if n > 0 {
      BytesDecode(v / 256, n - 1);
      assert Bytes(v, n)[..n-1] == Bytes(v / 256, n - 1);
      Carry(v / 256, 256, Power(256, n - 1), v % 256);
      assert v == 256 * (v / 256) + v % 256;
    }
  }

  /** The block is the 8-byte big-endian encoding of the counter exactly for counters below 2^31: the bit operators
      keep 32 bits and extend the sign. */
  lemma BlockEncodesIff(counter: nat)
    requires counter <= MAX_SAFE_INTEGER
    ensures |Block(counter)| == 8
    ensures BigEndian(Block(counter)) == counter <==> counter < TWO_31
  {
    BytesDecode(ToInt32(counter), 8);
    PowerOfBytes();
    hide Bytes, BigEndian, Power, ToInt32;
    var v := ToInt32(counter);
    if counter < TWO_31 {
      Int32Stays(counter);
    }
    if v >= 0 {
      Quotient(v, TWO_64, 0, v);
    } else {
      Quotient(v, TWO_64, -1, v + TWO_64);
    }
  }

  lemma PowerOfBytes()
    ensures Power(256, 8) == TWO_64
  {
    assert Power(256, 4) == TWO_32;
    assert Power(256, 8) == 256 * 256 * 256 * 256 * Power(256, 4);
  }

  // ---- the code ----

  function ByteAt(digest: seq<Byte>, i: int): Byte { if 0 <= i < |digest| then digest[i] else 0 }

  /** Dynamic truncation: 31 bits at the offset in the last four bits of the digest. The masks leave each byte its own
      bits, so joining them is adding. */
  function Truncate(digest: seq<Byte>): (code: nat)
    ensures code < TWO_31
  {
    var offset := ByteAt(digest, |digest| - 1) % 16;
    ByteAt(digest, offset) % 128 * 0x100_0000 + ByteAt(digest, offset + 1) * 0x1_0000
    + ByteAt(digest, offset + 2) * 0x100 + ByteAt(digest, offset + 3)
  }

  /** Section 5.3 of RFC 4226: the four bytes at the offset as a number, without its top bit. A digest of at least 20
      bytes has them. */
  lemma TruncatesFourBytes(digest: seq<Byte>)
    requires |digest| >= 20
    ensures var offset := digest[|digest|-1] % 16;
      Truncate(digest) == BigEndian(digest[offset..offset + 4]) % TWO_31
  {
    var offset := digest[|digest|-1] % 16;
    var s := digest[offset..offset + 4];
    assert BigEndian(s[..0]) == 0;
    assert s[..1][..0] == s[..0] && s[..2][..1] == s[..1] && s[..3][..2] == s[..2] && s[..4] == s;
    assert BigEndian(s[..2]) == 256 * BigEndian(s[..1]) + s[1];
    assert BigEndian(s[..3]) == 256 * BigEndian(s[..2]) + s[2];
    Quotient(BigEndian(s), TWO_31, s[0] / 128, Truncate(digest));
  }

  function Digit(n: nat): char
    requires n < 10
  {
    '0' + n as char
  }

  predicate IsDigit(c: char) { '0' <= c <= '9' }

  function DigitOf(c: char): (n: nat)
    requires IsDigit(c)
    ensures n < 10
  {
    c as int - '0' as int
  }

  predicate AllDigits(s: string) { forall i :: 0 <= i < |s| ==> IsDigit(s[i]) }

  function Decimal(n: nat): string { if n < 10 then [Digit(n)] else Decimal(n / 10) + [Digit(n % 10)] }

  function Zeros(n: nat): string { seq(n, _ => '0') }

  function Last(s: string, n: nat): string { if n <= |s| then s[|s|-n..] else s }

  /** The code of a counter; 0 digits stand for the default. */
  function Digits(option: nat): nat { if option == 0 then 6 else option }

  function Hotp(hmac: seq<Byte> -> seq<Byte>, counter: int, digits: nat): string {
    var n := Digits(digits);
    Last(Zeros(n) + Decimal(Truncate(hmac(Block(counter)))), n)
  }

  /** The number a string of digits stands for. */
  function Value(s: string): nat
    requires AllDigits(s)
  {
    if s == "" then 0 else 10 * Value(s[..|s|-1]) + DigitOf(s[|s|-1])
  }

  lemma {:induction false} DecimalValue(n: nat)
    ensures AllDigits(Decimal(n)) && Value(Decimal(n)) == n
  {
    if n >= 10 {
      DecimalValue(n / 10);
      assert Decimal(n)[..|Decimal(n)|-1] == Decimal(n / 10);
    } else {
      assert Decimal(n)[..0] == "";
    }
  }

  lemma {:induction false} ZerosValue(n: nat, s: string)
    requires AllDigits(s)
    ensures AllDigits(Zeros(n) + s) && Value(Zeros(n) + s) == Value(s)
  {
    if s != "" {
      ZerosValue(n, s[..|s|-1]);
      assert (Zeros(n) + s)[..n + |s| - 1] == Zeros(n) + s[..|s|-1];
    } else if n > 0 {
      ZerosValue(n - 1, "");
      assert (Zeros(n) + "")[..n-1] == Zeros(n - 1) + "";
    }
  }

  lemma {:induction false} LastValue(s: string, n: nat)
    requires AllDigits(s) && n <= |s|
    ensures AllDigits(Last(s, n)) && |Last(s, n)| == n && Value(Last(s, n)) == Value(s) % Power(10, n)
  {
    if n > 0 {
      var init, c := s[..|s|-1], DigitOf(s[|s|-1]);
      LastValue(init, n - 1);
      assert Last(s, n)[..n-1] == Last(init, n - 1);
      Carry(Value(init), 10, Power(10, n - 1), c);
    }
  }

  /** The code has the given number of decimal digits, and its value is the truncated digest modulo that power of
      ten. */
  lemma CodeIsTruncatedDigest(hmac: seq<Byte> -> seq<Byte>, counter: int, digits: nat)
    ensures var code := Hotp(hmac, counter, digits);
      && |code| == Digits(digits) && AllDigits(code)
      && Value(code) == Truncate(hmac(Block(counter))) % Power(10, Digits(digits))
  {
    hide Truncate, Block;
    var n := Digits(digits);
    var t := Truncate(hmac(Block(counter)));
    DecimalValue(t);
    ZerosValue(n, Decimal(t));
    LastValue(Zeros(n) + Decimal(t), n);
  }

  /** Equal numbers in equally many digits are the same string. */
  lemma {:induction false} SameValueSameString(s: string, t: string)
    requires AllDigits(s) && AllDigits(t) && |s| == |t| && Value(s) == Value(t)
    ensures s == t
  {
    if s != "" {
      var n := |s| - 1;
      SameValueSameString(s[..n], t[..n]);
      assert s == s[..n] + [s[n]] && t == t[..n] + [t[n]];
    }
  }

  // ---- reading a token ----

  predicate IsSpace(c: char) {
    || '\U{9}' <= c <= '\U{D}' || c == ' ' || c == '\U{A0}' || c == '\U{1680}' || '\U{2000}' <= c <= '\U{200A}'
    || c == '\U{2028}' || c == '\U{2029}' || c == '\U{202F}' || c == '\U{205F}' || c == '\U{3000}' || c == '\U{FEFF}'
  }

  function TrimStart(s: string): (r: string)
    ensures |r| <= |s|
  {
    if s != "" && IsSpace(s[0]) then TrimStart(s[1..]) else s
  }

  function DigitPrefix(s: string): (r: string)
    ensures AllDigits(r) && |r| <= |s|
  {
    if s != "" && IsDigit(s[0]) then [s[0]] + DigitPrefix(s[1..]) else ""
  }

  /** The sign of a token, behind the white space before it. */
  function SignOf(s: string): string {
    var t := TrimStart(s);
    if t != "" && (t[0] == '+' || t[0] == '-') then [t[0]] else ""
  }

  /** The digits of a token: those behind its white space and sign, up to whatever follows. */
  function DigitsOf(s: string): (d: string)
    ensures AllDigits(d) && |d| <= |s|
  {
    var t := TrimStart(s);
    DigitPrefix(if SignOf(s) != "" then t[1..] else t)
  }

  /** parseInt with radix 10. */
  function ParseInt(s: string): Option<int> {
    var digits := DigitsOf(s);
    if digits == "" then None else Some(if SignOf(s) == "-" then 0 - Value(digits) else Value(digits))
  }

  lemma {:induction false} DigitPrefixOfDigits(s: string)
    requires AllDigits(s)
    ensures DigitPrefix(s) == s
  {
    if s != "" {
      DigitPrefixOfDigits(s[1..]);
    }
  }

  lemma ParseDigits(s: string)
    requires AllDigits(s) && s != ""
    ensures ParseInt(s) == Some(Value(s))
  {
    assert IsDigit(s[0]) && TrimStart(s) == s;
    DigitPrefixOfDigits(s);
    hide TrimStart, DigitPrefix, Value;
  }

  // ---- verification ----

  datatype Options = Options(token: string, digits: nat, window: Option<int>, counter: Option<int>)

  function Window(o: Options): int { if o.window.Some? then o.window.value else 0 }

  /** Reads as the same number. */
  predicate Matches(hmac: seq<Byte> -> seq<Byte>, o: Options, counter: int) {
    |o.token| == Digits(o.digits) && ParseInt(o.token).Some?
      && ParseInt(Hotp(hmac, counter, o.digits)) == ParseInt(o.token)
  }

  /** The search from the counter up: the first counter of the window whose code reads as the token's number. */
  method HotpVerifyDelta(hmac: seq<Byte> -> seq<Byte>, o: Options) returns (delta: Option<int>)
    ensures var c := if o.counter.Some? then o.counter.value else 0;
      && (delta.Some? ==> 0 <= delta.value <= Window(o) && Matches(hmac, o, c + delta.value))
      && (forall n :: c <= n <= c + Window(o) && (delta.Some? ==> n < c + delta.value) ==> !Matches(hmac, o, n))
  {
    hide Hotp, ParseInt;
    var counter := if o.counter.Some? then o.counter.value else 0;
    if |o.token| != Digits(o.digits) {
      return None;
    }
    var token := ParseInt(o.token);
    if token.None? {
      return None;
    }
    var i := counter;
    while i <= counter + Window(o)
      invariant counter <= i
      invariant forall n :: counter <= n < i ==> !Matches(hmac, o, n)
      decreases counter + Window(o) - i
    {
      if ParseInt(Hotp(hmac, i, o.digits)) == token {
        return Some(i - counter);
      }
      i := i + 1;
    }
    return None;
  }

  /** The time step a time falls into; times in seconds, the clock in milliseconds. */
  function Counter(time: Option<int>, now: int, epoch: Option<int>, step: nat): int {
    var ms := if time.Some? then time.value * 1000 else now;
    var epochMs := if epoch.Some? then epoch.value * 1000 else 0;
    (ms - epochMs) / ((if step == 0 then 30 else step) * 1000)
  }

  /** The two-sided search: the window is doubled, the counter moved back and the delta adjusted. */
  method TotpVerifyDelta(hmac: seq<Byte> -> seq<Byte>, options: Options, time: Option<int>, now: int,
      epoch: Option<int>, step: nat)
    returns (delta: Option<int>)
    ensures var c := if options.counter.Some? then options.counter.value else Counter(time, now, epoch, step);
      && (delta.Some? ==> -Window(options) <= delta.value <= Window(options) && Matches(hmac, options, c + delta.value))
      && (forall n :: c - Window(options) <= n <= c + Window(options) && (delta.Some? ==> n < c + delta.value) ==>
           !Matches(hmac, options, n))
  {
    hide Hotp, ParseInt, Counter;
    var o := options;
    var window := Window(o);
    if o.counter.None? {
      o := o.(counter := Some(Counter(time, now, epoch, step)));
    }
    ghost var c := o.counter.value;
    o := o.(counter := Some(o.counter.value - window));
    if o.window.Some? {
      o := o.(window := Some(o.window.value + window));
    }
    delta := HotpVerifyDelta(hmac, o);
    assert forall n: int :: Matches(hmac, o, n) == Matches(hmac, options, n);
    if delta.Some? {
      delta := Some(delta.value - window);
    }
  }

  /** A token of digits matches a counter exactly when it is its code. */
  lemma DigitsMatchIff(hmac: seq<Byte> -> seq<Byte>, o: Options, counter: int)
    requires AllDigits(o.token) && |o.token| == Digits(o.digits)
    ensures Matches(hmac, o, counter) <==> Hotp(hmac, counter, o.digits) == o.token
  {
    hide Hotp, ParseInt;
    CodeIsTruncatedDigest(hmac, counter, o.digits);
    var code := Hotp(hmac, counter, o.digits);
    ParseDigits(o.token);
    ParseDigits(code);
    if Value(code) == Value(o.token) {
      SameValueSameString(code, o.token);
    }
  }

  /** Every token, whatever its characters: it matches a counter exactly when it has the length of a code and its
      digits, filled up with zeros on the left, are the code; with a minus sign only the code of zeros is left. */
  lemma TokenMatchesIff(hmac: seq<Byte> -> seq<Byte>, o: Options, counter: int)
    ensures var d := DigitsOf(o.token);
      Matches(hmac, o, counter) <==>
        && |o.token| == Digits(o.digits) && d != "" && (SignOf(o.token) == "-" ==> Value(d) == 0)
        && Hotp(hmac, counter, o.digits) == Zeros(|o.token| - |d|) + d
  {
    hide Hotp, DigitsOf, SignOf, Value;
    var d := DigitsOf(o.token);
    CodeIsTruncatedDigest(hmac, counter, o.digits);
    var code := Hotp(hmac, counter, o.digits);
    ParseDigits(code);
    ZerosValue(|o.token| - |d|, d);
    if |o.token| == |code| && Value(code) == Value(d) {
      SameValueSameString(code, Zeros(|o.token| - |d|) + d);
    }
  }

  /** So a minus sign before zeros is accepted for the code of zeros. */
  lemma MinusZeros(hmac: seq<Byte> -> seq<Byte>, counter: int, digits: nat)
    requires Digits(digits) >= 2 && Hotp(hmac, counter, digits) == Zeros(Digits(digits))
    ensures Matches(hmac, Options("-" + Zeros(Digits(digits) - 1), digits, None, None), counter)
  {
    var d := Zeros(Digits(digits) - 1);
    var t := "-" + d;
    TokenParts("", "-", d, "");
    assert "" + ("-" + (d + "")) == t && Zeros(1) + d == Zeros(Digits(digits));
    ZerosValue(|d|, "");
    assert d + "" == d;
    hide *;
    TokenMatchesIff(hmac, Options(t, digits, None, None), counter);
  }

  // ---- the parts of a token ----

  lemma {:induction false} TrimsSpaces(lead: string, s: string)
    requires (forall k :: 0 <= k < |lead| ==> IsSpace(lead[k])) && s != "" && !IsSpace(s[0])
    ensures TrimStart(lead + s) == s
  {
    if lead == "" {
      assert lead + s == s;
    } else {
      TrimsSpaces(lead[1..], s);
      assert (lead + s)[1..] == lead[1..] + s;
    }
  }

  lemma {:induction false} DigitPrefixBefore(s: string, rest: string)
    requires AllDigits(s) && (rest != "" ==> !IsDigit(rest[0]))
    ensures DigitPrefix(s + rest) == s
  {
    if s == "" {
      assert s + rest == rest;
    } else {
      DigitPrefixBefore(s[1..], rest);
      assert (s + rest)[1..] == s[1..] + rest;
    }
  }

  /** White space, a sign, digits, and whatever follows them: what is read of it are the sign and the digits. */
  lemma TokenParts(lead: string, sign: string, d: string, rest: string)
    requires (forall k :: 0 <= k < |lead| ==> IsSpace(lead[k])) && sign in {"", "+", "-"}
    requires AllDigits(d) && d != "" && (rest != "" ==> !IsDigit(rest[0]))
    ensures SignOf(lead + (sign + (d + rest))) == sign && DigitsOf(lead + (sign + (d + rest))) == d
  {
    hide TrimStart, DigitPrefix;
    var t := sign + (d + rest);
    assert IsDigit(d[0]);
    TrimsSpaces(lead, t);
    DigitPrefixBefore(d, rest);
    assert (if sign != "" then t[1..] else t) == d + rest;
  }

  /** For a token of digits of the right length: the smallest offset in the window whose code is the token, and
      nothing exactly when there is none. */
  method VerifyDigits(
    hmac: seq<Byte> -> seq<Byte>, o: Options, time: Option<int>, now: int, epoch: Option<int>, step: nat)
    returns (delta: Option<int>)
    requires AllDigits(o.token) && |o.token| == Digits(o.digits)
    ensures var c := if o.counter.Some? then o.counter.value else Counter(time, now, epoch, step);
      && (delta.Some? <==> exists n :: c - Window(o) <= n <= c + Window(o) && Hotp(hmac, n, o.digits) == o.token)
      && (delta.Some? ==> -Window(o) <= delta.value <= Window(o) && Hotp(hmac, c + delta.value, o.digits) == o.token)
      && (delta.Some? ==> forall n :: c - Window(o) <= n < c + delta.value ==> Hotp(hmac, n, o.digits) != o.token)
  {
    hide Hotp, ParseInt, Counter;
    delta := TotpVerifyDelta(hmac, o, time, now, epoch, step);
    forall n: int ensures Matches(hmac, o, n) <==> Hotp(hmac, n, o.digits) == o.token {
      DigitsMatchIff(hmac, o, n);
    }
  }

  /** Times at most w steps apart fall into time steps at most w apart. */
  lemma StepsApart(time1: int, time2: int, epoch: Option<int>, step: nat, w: nat)
    requires var s := if step == 0 then 30 else step; time1 - time2 <= w * s && time2 - time1 <= w * s
    ensures 0 - w <= Counter(Some(time1), 0, epoch, step) - Counter(Some(time2), 0, epoch, step) <= w
  {
    var s := (if step == 0 then 30 else step) * 1000;
    var e := if epoch.Some? then epoch.value * 1000 else 0;
    FloorsApart(time1 * 1000 - e, time2 * 1000 - e, s, w);
    FloorsApart(time2 * 1000 - e, time1 * 1000 - e, s, w);
  }

  lemma FloorsApart(a: int, b: int, s: int, w: nat)
    requires s > 0 && a - b <= w * s
    ensures a / s - b / s <= w
  {
    QuotientsApart(a / s, a % s, b / s, b % s, s, w);
  }

  lemma QuotientsApart(p: int, r: nat, q: int, t: nat, s: nat, w: nat)
    requires s > 0 && r < s && t < s && (s * p + r) - (s * q + t) <= w * s
    ensures p - q <= w
  {
    assert p - q > w ==> s * (p - q) >= s * (w + 1);
  }

  /** A code generated at one time is accepted at any time at most `window` steps away. */
  method AcceptNearby(hmac: seq<Byte> -> seq<Byte>, generated: int, verified: int, epoch: Option<int>, step: nat,
      digits: nat, window: nat)
    returns (delta: Option<int>)
    requires var s := if step == 0 then 30 else step;
      generated - verified <= window * s && verified - generated <= window * s
    ensures delta.Some?
  {
    hide Hotp, ParseInt, Counter;
    var c, v := Counter(Some(generated), 0, epoch, step), Counter(Some(verified), 0, epoch, step);
    var token := Hotp(hmac, c, digits);
    CodeIsTruncatedDigest(hmac, c, digits);
    StepsApart(generated, verified, epoch, step, window);
    var o := Options(token, digits, Some(window), None);
    delta := TotpVerifyDelta(hmac, o, Some(verified), 0, epoch, step);
    DigitsMatchIff(hmac, o, c);
  }
}
