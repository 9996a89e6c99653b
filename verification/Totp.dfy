/**
  One-time passwords: the dynamic truncation of section 5.3 of RFC 4226, the decimal
  code, and the window of counters that a token is compared with.  The keyed hash is any
  function to twenty bytes.
 */
module Totp {
  import opened Wrappers
  import opened Bits
  import opened Base32
  import opened Decimals

  type Digest = d: seq<Byte> | |d| == 20 witness seq(20, _ => 0)
  type Hmac = (seq<Byte>, seq<Byte>) -> Digest
  type Period = p: nat | p > 0 witness 1

  datatype TotpError = InvalidSecret | CounterOutOfRange

  datatype Provider = Provider(digits: nat, periodSeconds: Period, window: int)

  const COUNTERS := WORD * WORD

  /** The counter as eight bytes, most significant first. */
  function CounterBytes(counter: nat, n: nat): (r: seq<Byte>)
    ensures |r| == n
  {
    if n == 0 then [] else CounterBytes(counter / 256, n - 1) + [counter % 256]
  }

  // ----------------------------------------------------------- the truncation

  function Offset(digest: Digest): (r: nat)
    ensures r < 16
  {
    Nibble(digest[19]);
    And(digest[19], 15)
  }

  lemma Nibble(v: nat)
    ensures And(v, 15) == v % 16
  {
    assert Pow2(4) == 16;
    AndMask(v, 4);
  }

  /** The four bytes joined, the first without its top bit. */
  function Joined(a: nat, b: nat, c: nat, d: nat): nat {
    Or(Or(Or(Shl(And(a, 127), 24), Shl(And(b, 255), 16)), Shl(And(c, 255), 8)), And(d, 255))
  }

  function Truncate(digest: Digest): nat {
    var offset := Offset(digest);
    Joined(digest[offset], digest[offset + 1], digest[offset + 2], digest[offset + 3])
  }

  lemma ShlSmall(v: nat, n: nat, p: nat)
    requires p == Pow2(n) && v * p < WORD
    ensures Shl(v, n) == v * p
  {
  }

  lemma OrSum(high: nat, p: nat, n: nat, low: nat)
    requires p == Pow2(n) && low < p
    ensures Or(high * p, low) == high * p + low
  {
    OrOfParts(high, low, n);
  }

  function Word31(a: nat, b: nat, c: nat, d: nat): nat {
    (a % 128) * 16777216 + b * 65536 + c * 256 + d
  }

  lemma MaskThenShift(v: nat, mask: nat, m: nat, n: nat, p: nat, shift: nat)
    requires m == Pow2(n) && mask == m - 1 && p == Pow2(shift) && (v % m) * p < WORD
    ensures Shl(And(v, mask), shift) == (v % m) * p
  {
    AndMask(v, n);
    ShlSmall(v % m, shift, p);
  }

  lemma OrOfFour(x: nat, y: nat, z: nat, a: nat, b: nat, c: nat, d: nat)
    requires b < 256 && c < 256 && d < 256
    requires x == a * 16777216 && y == b * 65536 && z == c * 256
    ensures Or(Or(Or(x, y), z), d) == a * 16777216 + b * 65536 + c * 256 + d
  {
    Powers();
    OrSum(a, 16777216, 24, y);
    OrSum(a * 256 + b, 65536, 16, z);
    OrSum(a * 65536 + b * 256 + c, 256, 8, d);
  }

  lemma FirstPart(a: nat)
    ensures Shl(And(a, 127), 24) == (a % 128) * 16777216
  {
    Powers();
    assert Pow2(7) == 128;
    MaskThenShift(a, 127, 128, 7, 16777216, 24);
  }

  lemma MiddlePart(v: nat, shift: nat, p: nat)
    requires v < 256 && p == Pow2(shift) && v * p < WORD
    ensures Shl(And(v, 255), shift) == v * p
  {
    EightIs256();
    MaskThenShift(v, 255, 256, 8, p, shift);
  }

  lemma ByteMask(v: nat)
    requires v < 256
    ensures And(v, 255) == v
  {
    Masks(v);
  }

  lemma JoinedIsWord(a: nat, b: nat, c: nat, d: nat)
    requires a < 256 && b < 256 && c < 256 && d < 256
    ensures Joined(a, b, c, d) == Word31(a, b, c, d) < 0x8000_0000
  {
    FirstPart(a);
    assert Shl(And(b, 255), 16) == b * 65536 && Shl(And(c, 255), 8) == c * 256 by {
      Powers();
      MiddlePart(b, 16, 65536);
      MiddlePart(c, 8, 256);
    }
    ByteMask(d);
    JoinSums(a, b, c, d, Shl(And(a, 127), 24), Shl(And(b, 255), 16), Shl(And(c, 255), 8), And(d, 255));
  }

  lemma JoinSums(a: nat, b: nat, c: nat, d: nat, x: nat, y: nat, z: nat, w: nat)
    requires b < 256 && c < 256 && d < 256
    requires x == (a % 128) * 16777216 && y == b * 65536 && z == c * 256 && w == d
    ensures Or(Or(Or(x, y), z), w) == Word31(a, b, c, d) < 0x8000_0000
  {
    OrOfFour(x, y, z, a % 128, b, c, d);
  }

  /** Four bytes from the offset, big-endian, without the top bit. */
  lemma TruncateIsDynamic(digest: Digest)
    ensures var o := Offset(digest);
            && o == (digest[19] as int) % 16
            && Truncate(digest) == Word31(digest[o], digest[o + 1], digest[o + 2], digest[o + 3]) < 0x8000_0000
  {
    Nibble(digest[19]);
    var o := Offset(digest);
    JoinedIsWord(digest[o], digest[o + 1], digest[o + 2], digest[o + 3]);
  }

  lemma Powers()
    ensures Pow2(8) == 256 && Pow2(16) == 65536 && Pow2(24) == 16777216
  {
    assert Pow2(8) == 256;
    assert Pow2(16) == 65536;
  }

  // ------------------------------------------------------------ decimal codes

  function PadStart(s: string, width: nat): (r: string)
    ensures |r| == if |s| < width then width else |s|
    ensures AllDecimal(s) ==> AllDecimal(r)
  {
    seq(if |s| < width then width - |s| else 0, _ => '0') + s
  }

  function Code(binary: nat, digits: nat): string {
    PadStart(Decimal(binary % Pow10(digits)), digits)
  }

  lemma {:induction false} ZerosSayNothing(zeros: string, s: string)
    requires AllDecimal(s) && forall i :: 0 <= i < |zeros| ==> zeros[i] == '0'
    ensures AllDecimal(zeros + s) && Value(zeros + s) == Value(s)
    decreases |s|, |zeros|
  {
    if s == [] {
      assert zeros + s == zeros;
      if zeros != [] {
        ZerosSayNothing(zeros[..|zeros| - 1], s);
        assert zeros[..|zeros| - 1] + s == zeros[..|zeros| - 1];
      }
    } else {
      var n := |s| - 1;
      ZerosSayNothing(zeros, s[..n]);
      assert (zeros + s)[..|zeros + s| - 1] == zeros + s[..n];
    }
  }

  /** A code has the configured number of digits and says the truncated value modulo their power of ten. */
  lemma CodeSays(binary: nat, digits: nat)
    ensures AllDecimal(Code(binary, digits)) && Value(Code(binary, digits)) == binary % Pow10(digits)
    ensures digits > 0 ==> |Code(binary, digits)| == digits
  {
    var n := binary % Pow10(digits);
    DecimalSays(n, digits);
    var zeros := Code(binary, digits)[..|Code(binary, digits)| - |Decimal(n)|];
    assert Code(binary, digits) == zeros + Decimal(n);
    ZerosSayNothing(zeros, Decimal(n));
  }

  /** Codes agree exactly when the truncated values do in those digits. */
  lemma CodesAgree(a: nat, b: nat, digits: nat)
    ensures Code(a, digits) == Code(b, digits) <==> a % Pow10(digits) == b % Pow10(digits)
  {
    CodeSays(a, digits);
    CodeSays(b, digits);
  }

  // -------------------------------------------------------------- the provider

  function GenerateTotp(hmac: Hmac, secret: string, counter: int, digits: nat): Result<string, TotpError> {
    var key := Decode(secret);
    if key.None? then Err(InvalidSecret)
    else if counter < 0 || counter >= COUNTERS then Err(CounterOutOfRange)
    else Ok(Code(Truncate(hmac(key.value, CounterBytes(counter, 8))), digits))
  }

  predicate WellFormed(token: string, digits: nat) {
    token != [] && AllDecimal(token) && |token| == digits
  }

  predicate InWindow(p: Provider, offset: int) { -p.window <= offset <= p.window }

  function CounterAt(p: Provider, atMillis: int): int { atMillis / (1000 * p.periodSeconds) }

  /** What each offset of the window gives. */
  type Codes = int -> Result<string, TotpError>

  function CodesAt(hmac: Hmac, p: Provider, secret: string, atMillis: int): Codes {
    offset => GenerateTotp(hmac, secret, CounterAt(p, atMillis) + offset, p.digits)
  }

  /** The offsets before `upto` neither throw nor match. */
  ghost predicate NoneBefore(codes: Codes, p: Provider, token: string, upto: int) {
    forall o :: -p.window <= o < upto ==> codes(o).Ok? && codes(o) != Ok(token)
  }

  ghost predicate AcceptedAt(codes: Codes, p: Provider, token: string, o: int) {
    InWindow(p, o) && codes(o) == Ok(token) && NoneBefore(codes, p, token, o)
  }

  ghost predicate ThrowsAt(codes: Codes, p: Provider, token: string, o: int) {
    InWindow(p, o) && codes(o).Err? && NoneBefore(codes, p, token, o)
  }

  ghost predicate Accepts(codes: Codes, p: Provider, token: string) {
    WellFormed(token, p.digits) && exists o :: AcceptedAt(codes, p, token, o)
  }

  ghost predicate Throws(codes: Codes, p: Provider, token: string) {
    WellFormed(token, p.digits) && exists o :: ThrowsAt(codes, p, token, o)
  }

  /** The first offset that matches or throws decides. */
  lemma FirstStopDecides(codes: Codes, p: Provider, token: string, o: int)
    requires WellFormed(token, p.digits) && InWindow(p, o) && NoneBefore(codes, p, token, o)
    requires codes(o).Err? || codes(o) == Ok(token)
    ensures Accepts(codes, p, token) <==> codes(o) == Ok(token)
    ensures Throws(codes, p, token) <==> codes(o).Err?
  {
    if codes(o) == Ok(token) {
      assert AcceptedAt(codes, p, token, o);
    } else {
      assert ThrowsAt(codes, p, token, o);
    }
    forall q | AcceptedAt(codes, p, token, q) || ThrowsAt(codes, p, token, q) ensures q == o {
    }
  }

  lemma NoStopRejects(codes: Codes, p: Provider, token: string, upto: int)
    requires NoneBefore(codes, p, token, upto) && upto > p.window
    ensures !Accepts(codes, p, token) && !Throws(codes, p, token)
  {
    forall q ensures !AcceptedAt(codes, p, token, q) && !ThrowsAt(codes, p, token, q) {
    }
  }

  /** The loop over the window, earliest offset first. */
  method CompareWindow(codes: Codes, p: Provider, token: string) returns (answer: Result<bool, TotpError>)
    requires WellFormed(token, p.digits)
    ensures answer == Ok(true) <==> Accepts(codes, p, token)
    ensures answer.Err? <==> Throws(codes, p, token)
    ensures answer.Err? ==> exists o :: ThrowsAt(codes, p, token, o) && codes(o) == Err(answer.error)
  {
    var offset := -p.window;
    while offset <= p.window
      invariant -p.window <= offset
      invariant NoneBefore(codes, p, token, offset)
    {
      var expected := codes(offset);
      if expected.Err? {
        FirstStopDecides(codes, p, token, offset);
        assert ThrowsAt(codes, p, token, offset);
        return Err(expected.error);
      }
      if token == expected.value {
        FirstStopDecides(codes, p, token, offset);
        return Ok(true);
      }
      offset := offset + 1;
    }
    NoStopRejects(codes, p, token, offset);
    return Ok(false);
  }

  /**
    A token is accepted exactly when some offset of the window gives it, and no offset before
    that one throws; the error of the first offset that throws otherwise ends the comparison.
   */
  method Verify(hmac: Hmac, p: Provider, secret: string, token: string, atMillis: int)
    returns (answer: Result<bool, TotpError>)
    ensures var codes := CodesAt(hmac, p, secret, atMillis);
            && (answer == Ok(true) <==> Accepts(codes, p, token))
            && (answer.Err? <==> Throws(codes, p, token))
            && (answer.Err? ==> exists o :: ThrowsAt(codes, p, token, o) && codes(o) == Err(answer.error))
  {
    if !WellFormed(token, p.digits) {
      return Ok(false);
    }
    answer := CompareWindow(CodesAt(hmac, p, secret, atMillis), p, token);
  }

  ghost predicate WindowInRange(p: Provider, secret: string, atMillis: int) {
    && Decode(secret).Some?
    && CounterAt(p, atMillis) - p.window >= 0 && CounterAt(p, atMillis) + p.window < COUNTERS
  }

  ghost predicate NeverThrows(codes: Codes, p: Provider) {
    forall o :: InWindow(p, o) ==> codes(o).Ok?
  }

  lemma WindowNeverThrows(hmac: Hmac, p: Provider, secret: string, atMillis: int)
    requires WindowInRange(p, secret, atMillis)
    ensures NeverThrows(CodesAt(hmac, p, secret, atMillis), p)
  {
    hide Decode, Code, Truncate, CounterBytes;
    var codes := CodesAt(hmac, p, secret, atMillis);
    forall o | InWindow(p, o) ensures codes(o).Ok? {
      assert codes(o) == GenerateTotp(hmac, secret, CounterAt(p, atMillis) + o, p.digits);
    }
  }

  /** The earliest offset that gives the token. */
  lemma {:induction false} FirstMatch(codes: Codes, p: Provider, token: string, low: int, o: int)
    requires -p.window <= low <= o && InWindow(p, o) && codes(o) == Ok(token)
    requires NeverThrows(codes, p) && NoneBefore(codes, p, token, low)
    ensures exists q :: AcceptedAt(codes, p, token, q)
    decreases o - low
  {
    assert InWindow(p, low);
    if codes(low) == Ok(token) {
      assert AcceptedAt(codes, p, token, low);
    } else {
      FirstMatch(codes, p, token, low + 1, o);
    }
  }

  /**
    With a usable secret and every counter of the window in range nothing throws, and a
    token is accepted exactly when some counter of the window gives it.
   */
  lemma AcceptsInRange(hmac: Hmac, p: Provider, secret: string, token: string, atMillis: int)
    requires WindowInRange(p, secret, atMillis)
    ensures var codes := CodesAt(hmac, p, secret, atMillis);
            && NeverThrows(codes, p)
            && (Accepts(codes, p, token) <==>
                  WellFormed(token, p.digits) && exists o :: InWindow(p, o) && codes(o) == Ok(token))
  {
    var codes := CodesAt(hmac, p, secret, atMillis);
    WindowNeverThrows(hmac, p, secret, atMillis);
    if WellFormed(token, p.digits) && exists o :: InWindow(p, o) && codes(o) == Ok(token) {
      var o :| InWindow(p, o) && codes(o) == Ok(token);
      FirstMatch(codes, p, token, -p.window, o);
    }
  }

  lemma GeneratedIsWellFormed(hmac: Hmac, secret: string, counter: int, digits: nat)
    requires GenerateTotp(hmac, secret, counter, digits).Ok?
    ensures WellFormed(GenerateTotp(hmac, secret, counter, digits).value, digits) <==> digits > 0
  {
    CodeSays(Truncate(hmac(Decode(secret).value, CounterBytes(counter, 8))), digits);
  }

  /**
    A code generated for one counter is accepted at every time whose counter is at most the
    window away, except by a provider that asks for no digits.
   */
  lemma GeneratedIsAccepted(hmac: Hmac, p: Provider, secret: string, counter: nat, atMillis: int)
    requires WindowInRange(p, secret, atMillis) && InWindow(p, counter - CounterAt(p, atMillis))
    ensures var code := GenerateTotp(hmac, secret, counter, p.digits);
            code.Ok? && (Accepts(CodesAt(hmac, p, secret, atMillis), p, code.value) <==> p.digits > 0)
  {
    var codes, o := CodesAt(hmac, p, secret, atMillis), counter - CounterAt(p, atMillis);
    var code := GenerateTotp(hmac, secret, counter, p.digits);
    assert codes(o) == code;
    WindowNeverThrows(hmac, p, secret, atMillis);
    GeneratedIsWellFormed(hmac, secret, counter, p.digits);
    AcceptsInRange(hmac, p, secret, code.value, atMillis);
  }

  // ----------------------------------------------------------- counter bytes

  function BigEndian(bytes: seq<Byte>): nat {
    if bytes == [] then 0 else 256 * BigEndian(bytes[..|bytes| - 1]) + bytes[|bytes| - 1]
  }

  function Pow256(n: nat): (r: nat)
    ensures r > 0
  {
    if n == 0 then 1 else 256 * Pow256(n - 1)
  }

  /** The hashed message determines the counter. */
  lemma {:induction false} CounterBytesSay(counter: nat, n: nat)
    requires counter < Pow256(n)
    ensures BigEndian(CounterBytes(counter, n)) == counter
    decreases n
  {
    if n > 0 {
      CounterBytesSay(counter / 256, n - 1);
      assert CounterBytes(counter, n)[..n - 1] == CounterBytes(counter / 256, n - 1);
    }
  }

  lemma CountersFit(counter: nat)
    requires counter < COUNTERS
    ensures BigEndian(CounterBytes(counter, 8)) == counter
  {
    assert Pow256(4) == WORD;
    assert Pow256(6) == 65536 * WORD;
    assert Pow256(8) == COUNTERS;
    CounterBytesSay(counter, 8);
  }
}
