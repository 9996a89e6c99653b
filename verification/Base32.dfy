/**
  The Base32 codec of one-time-password secrets against the bit streams of section 6 of
  RFC 4648, without padding.  The codec's accumulator is a 32-bit word that is never masked.
 */
module Base32 {
  import opened Wrappers
  import opened Bits

  type Byte = x: nat | x < 256
  type Digit = x: nat | x < 32

  const ALPHABET := "ABCDEFGHIJKLMNOPQRSTUVWXYZ234567"

  // ------------------------------------------------------------ the alphabet

  predicate IsLetter(c: char) { c in ALPHABET }

  function Letter(d: Digit): char { ALPHABET[d] }

  /** Where each character of the alphabet is. */
  function Place(c: char): int {
    if 'A' <= c <= 'Z' then c as int - 'A' as int else c as int - '2' as int + 26
  }

  lemma {:induction false} PlacedUpTo(n: nat)
    requires n <= 32
    ensures forall d :: 0 <= d < n ==> Place(ALPHABET[d]) == d
  {
    if n > 0 {
      PlacedUpTo(n - 1);
      if n <= 16 {
        assert Place(ALPHABET[n - 1]) == n - 1;
      } else {
        assert Place(ALPHABET[n - 1]) == n - 1;
      }
    }
  }

  /** `indexOf` in the alphabet. */
  function IndexOf(c: char): (r: int)
    ensures -1 <= r < 32
    ensures r >= 0 ==> Letter(r) == c
    ensures r < 0 <==> !IsLetter(c)
  {
    PlacedUpTo(32);
    if IsLetter(c) then Place(c) else -1
  }

  function DigitOf(c: char): Digit
    requires IsLetter(c)
  {
    IndexOf(c)
  }

  lemma LettersDiffer(a: Digit, b: Digit)
    ensures Letter(a) == Letter(b) ==> a == b
    ensures DigitOf(Letter(a)) == a
  {
    PlacedUpTo(32);
  }

  function Letters(digits: seq<Digit>): (s: string)
    ensures |s| == |digits|
  {
    seq(|digits|, i requires 0 <= i < |digits| => Letter(digits[i]))
  }

  predicate InAlphabet(s: string) {
    forall i :: 0 <= i < |s| ==> IsLetter(s[i])
  }

  function Digits(s: string): (r: seq<Digit>)
    requires InAlphabet(s)
    ensures |r| == |s|
  {
    seq(|s|, i requires 0 <= i < |s| => DigitOf(s[i]))
  }

  lemma LettersAndBack(digits: seq<Digit>)
    ensures InAlphabet(Letters(digits)) && Digits(Letters(digits)) == digits
  {
    forall i | 0 <= i < |digits| ensures DigitOf(Letters(digits)[i]) == digits[i] {
      LettersDiffer(digits[i], digits[i]);
    }
  }

  lemma DigitsAndBack(s: string)
    requires InAlphabet(s)
    ensures Letters(Digits(s)) == s
  {
  }

  // -------------------------------------------------------------- bit streams

  lemma OneMoreWord(width: nat, n: nat)
    ensures width * (n + 1) == width * n + width
  {
  }

  /** The bits of some words of one width, most significant first. */
  function Stream(words: seq<nat>, width: nat): (bits: seq<bool>)
    ensures |bits| == width * |words|
  {
    if words == [] then []
    else
      OneMoreWord(width, |words| - 1);
      Stream(words[..|words| - 1], width) + seq(width, k requires 0 <= k < width =>
        Bit(words[|words| - 1], width - 1 - k))
  }

  /** The number written by `width` bits from `start`; past the end there are zeros. */
  function Gather(bits: seq<bool>, start: nat, width: nat): (r: nat)
    ensures r < Pow2(width)
  {
    if width == 0 then 0
    else 2 * Gather(bits, start, width - 1) + (if Ahead(bits, start + width - 1) then 1 else 0)
  }

  predicate Ahead(bits: seq<bool>, i: nat) { i < |bits| && bits[i] }

  lemma {:induction false} StreamBit(words: seq<nat>, width: nat, j: nat, k: nat)
    requires j < |words| && k < width
    ensures width * j + k < |Stream(words, width)|
    ensures Stream(words, width)[width * j + k] == Bit(words[j], width - 1 - k)
    decreases |words|
  {
    var n := |words| - 1;
    if j < n {
      StreamBit(words[..n], width, j, k);
    }
  }

  lemma {:induction false} GatherBit(bits: seq<bool>, start: nat, width: nat, k: nat)
    requires k < width
    ensures Bit(Gather(bits, start, width), k) <==> Ahead(bits, start + width - 1 - k)
    decreases width
  {
    if k > 0 {
      GatherBit(bits, start, width - 1, k - 1);
    }
  }

  /** A number below 2^width is determined by what `Gather` reads. */
  lemma GatherIs(v: nat, bits: seq<bool>, start: nat, width: nat)
    requires v < Pow2(width)
    requires forall k :: 0 <= k < width ==> (Bit(v, k) <==> Ahead(bits, start + width - 1 - k))
    ensures v == Gather(bits, start, width)
  {
    forall k | 0 <= k < width ensures Bit(v, k) <==> Bit(Gather(bits, start, width), k) {
      GatherBit(bits, start, width, k);
    }
    SameBits(v, Gather(bits, start, width), width);
  }

  lemma EightIs256()
    ensures Pow2(5) == 32 && Pow2(8) == 256
  {
    assert Pow2(4) == 16;
  }

  // ------------------------------------------------------------- the standard

  function EncodedLength(n: nat): nat { (8 * n + 4) / 5 }

  function DecodedLength(m: nat): nat { 5 * m / 8 }

  function FiveBits(bytes: seq<Byte>, j: nat): Digit {
    EightIs256();
    Gather(Stream(bytes, 8), 5 * j, 5)
  }

  function EightBits(digits: seq<Digit>, j: nat): Byte {
    EightIs256();
    Gather(Stream(digits, 5), 8 * j, 8)
  }

  /** The input's bits read again in groups of five, the last one filled with zeros. */
  function EncodedDigits(bytes: seq<Byte>): (digits: seq<Digit>)
    ensures |digits| == EncodedLength(|bytes|)
  {
    seq(EncodedLength(|bytes|), j requires 0 <= j => FiveBits(bytes, j))
  }

  /** The digits' bits read again in whole groups of eight. */
  function DecodedBytes(digits: seq<Digit>): (bytes: seq<Byte>)
    ensures |bytes| == DecodedLength(|digits|)
  {
    seq(DecodedLength(|digits|), j requires 0 <= j => EightBits(digits, j))
  }

  function Encode(bytes: seq<Byte>): string { Letters(EncodedDigits(bytes)) }

  // ----------------------------------------------------------- normalisation

  /**
    The Unicode upper case of a character, as far as it is written in letters of the alphabet: those
    of ASCII, and ten more characters.  Every other character stays as it is, which is no
    such letter, as its upper case has none or more besides.
   */
  function UpperChar(c: char): (r: string)
    ensures r != []
  {
    if 'a' <= c <= 'z' then [(c as int - 32) as char]
    else if c == '\U{0131}' then "I"
    else if c == '\U{017F}' then "S"
    else if c == '\U{00DF}' then "SS"
    else if c == '\U{FB00}' then "FF"
    else if c == '\U{FB01}' then "FI"
    else if c == '\U{FB02}' then "FL"
    else if c == '\U{FB03}' then "FFI"
    else if c == '\U{FB04}' then "FFL"
    else if c == '\U{FB05}' || c == '\U{FB06}' then "ST"
    else [c]
  }

  function Upper(s: string): string {
    if s == [] then [] else Upper(s[..|s| - 1]) + UpperChar(s[|s| - 1])
  }

  predicate IsSpace(c: char) {
    || '\t' <= c <= '\r' || c == ' ' || c == '\U{00A0}' || c == '\U{1680}' || '\U{2000}' <= c <= '\U{200A}'
    || c == '\U{2028}' || c == '\U{2029}' || c == '\U{202F}' || c == '\U{205F}' || c == '\U{3000}' || c == '\U{FEFF}'
  }

  /** Remove the final run of `=`. */
  function StripEquals(s: string): (r: string)
    ensures r <= s && (r == [] || r[|r| - 1] != '=')
    ensures forall i :: |r| <= i < |s| ==> s[i] == '='
  {
    if s != [] && s[|s| - 1] == '=' then StripEquals(s[..|s| - 1]) else s
  }

  function WithoutSpace(s: string): string {
    if s == [] then [] else WithoutSpace(s[..|s| - 1]) + if IsSpace(s[|s| - 1]) then [] else [s[|s| - 1]]
  }

  function Normalise(s: string): string {
    WithoutSpace(StripEquals(Upper(s)))
  }

  function Decode(s: string): Option<seq<Byte>> {
    if InAlphabet(Normalise(s)) then Some(DecodedBytes(Digits(Normalise(s)))) else None
  }

  // ------------------------------------------------------------ the two loops

  /** The low `bits` bits of the accumulator are the stream's last ones before `upto`. */
  ghost predicate Holds(value: nat, bits: nat, stream: seq<bool>, upto: nat) {
    && bits <= upto <= |stream|
    && forall k :: 0 <= k < bits ==> (Bit(value, k) <==> stream[upto - 1 - k])
  }

  ghost predicate WordAt(word: nat, width: nat, stream: seq<bool>, at: nat) {
    && word < Pow2(width) && at + width <= |stream|
    && forall k :: 0 <= k < width ==> (Bit(word, k) <==> stream[at + width - 1 - k])
  }

  lemma WordBit(words: seq<nat>, width: nat, i: nat, at: nat, k: nat)
    requires i < |words| && k < width && at == width * i
    ensures at + width <= |Stream(words, width)|
    ensures Bit(words[i], k) <==> Stream(words, width)[at + width - 1 - k]
  {
    StreamBit(words, width, i, width - 1 - k);
    StreamBit(words, width, i, width - 1);
  }

  lemma WordsInStream(words: seq<nat>, width: nat, i: nat, at: nat)
    requires i < |words| && width > 0 && words[i] < Pow2(width) && at == width * i
    ensures WordAt(words[i], width, Stream(words, width), at)
  {
    WordBit(words, width, i, at, 0);
    forall k | 0 <= k < width ensures Bit(words[i], k) <==> Stream(words, width)[at + width - 1 - k] {
      WordBit(words, width, i, at, k);
    }
  }

  lemma ShiftedBit(value: nat, word: nat, width: nat, k: nat)
    requires word < Pow2(width) && k < 32
    ensures Bit(Or(Shl(value, width), word), k) <==> if k < width then Bit(word, k) else Bit(value, k - width)
  {
    OrBit(Shl(value, width), word, k);
    ShlBit(value, width, k);
    LowBits(word, width, k);
    BelowIsRemainder(word, Pow2(width));
  }

  /** Shifting the next word in, although older bits stay above it or fall out of the word. */
  lemma ShiftIn(value: nat, bits: nat, word: nat, width: nat, stream: seq<bool>, at: nat)
    requires WordAt(word, width, stream, at) && bits + width <= 32 && Holds(value, bits, stream, at)
    ensures Holds(Or(Shl(value, width), word), bits + width, stream, at + width)
  {
    var next := Or(Shl(value, width), word);
    forall k | 0 <= k < bits + width ensures Bit(next, k) <==> stream[at + width - 1 - k] {
      ShiftedBit(value, word, width, k);
      if k >= width {
        assert Bit(value, k - width) <==> stream[at - 1 - (k - width)];
      }
    }
  }

  lemma BelowIsRemainder(v: nat, m: nat)
    requires v < m
    ensures v % m == v
  {
  }

  lemma TopBit(value: nat, bits: nat, width: nat, stream: seq<bool>, upto: nat, k: nat)
    requires k < width <= bits && Holds(value, bits, stream, upto)
    ensures Bit(Shr(value, bits - width) % Pow2(width), k) <==> Ahead(stream, upto - bits + width - 1 - k)
  {
    LowBits(Shr(value, bits - width), width, k);
    ShrBit(value, bits - width, k);
    HeldBit(value, bits, stream, upto, k + (bits - width));
  }

  lemma HeldBit(value: nat, bits: nat, stream: seq<bool>, upto: nat, k: nat)
    requires k < bits && Holds(value, bits, stream, upto)
    ensures Bit(value, k) <==> stream[upto - 1 - k]
  {
  }

  /** Reading the top `width` of the held bits. */
  lemma ReadTop(value: nat, bits: nat, width: nat, stream: seq<bool>, upto: nat, start: nat)
    requires width <= bits && Holds(value, bits, stream, upto) && start == upto - bits
    ensures Shr(value, bits - width) % Pow2(width) == Gather(stream, start, width)
  {
    var v := Shr(value, bits - width) % Pow2(width);
    forall k | 0 <= k < width ensures Bit(v, k) <==> Ahead(stream, start + width - 1 - k) {
      TopBit(value, bits, width, stream, upto, k);
    }
    GatherIs(v, stream, start, width);
  }

  lemma Masks(v: nat)
    ensures And(v, 31) == v % 32 && And(v, 255) == v % 256
  {
    EightIs256();
    AndMask(v, 5);
    AndMask(v, 8);
  }

  /** Reading the last bits shifted up, zeros below them. */
  lemma ReadRest(value: nat, bits: nat, stream: seq<bool>)
    requires 0 < bits < 5 && Holds(value, bits, stream, |stream|)
    ensures Shl(value, 5 - bits) % 32 == Gather(stream, |stream| - bits, 5)
  {
    EightIs256();
    var shift := 5 - bits;
    var v := Shl(value, shift) % 32;
    forall k | 0 <= k < 5 ensures Bit(v, k) <==> Ahead(stream, |stream| - bits + 4 - k) {
      LowBits(Shl(value, shift), 5, k);
      ShlBit(value, shift, k);
      if k >= shift {
        assert Bit(value, k - shift) <==> stream[|stream| - 1 - (k - shift)];
      }
    }
    GatherIs(v, stream, |stream| - bits, 5);
  }

  /** The state of the encoding loop: letters written for the stream's first bits, the rest still held. */
  ghost predicate Held(input: seq<Byte>, value: nat, bits: nat, output: string, upto: nat) {
    && value < WORD && bits < 13 && 5 * |output| + bits == upto && upto <= 8 * |input|
    && Holds(value, bits, Stream(input, 8), upto)
    && forall j :: 0 <= j < |output| ==> output[j] == Letter(FiveBits(input, j))
  }

  lemma OneByteIn(input: seq<Byte>, value: nat, bits: nat, output: string, i: nat)
    requires i < |input| && bits < 5 && Held(input, value, bits, output, 8 * i)
    ensures Held(input, OrInWord(Shl(value, 8), input[i]), bits + 8, output, 8 * (i + 1))
  {
    EightIs256();
    WordsInStream(input, 8, i, 8 * i);
    ShiftIn(value, bits, input[i], 8, Stream(input, 8), 8 * i);
  }

  lemma OneLetterOut(input: seq<Byte>, value: nat, bits: nat, output: string, upto: nat)
    requires bits >= 5 && Held(input, value, bits, output, upto)
    ensures And(Shr(value, bits - 5), 31) < 32
    ensures Held(input, value, bits - 5, output + [Letter(And(Shr(value, bits - 5), 31))], upto)
  {
    EightIs256();
    Masks(Shr(value, bits - 5));
    ReadTop(value, bits, 5, Stream(input, 8), upto, 5 * |output|);
    HoldsFewer(value, bits, bits - 5, Stream(input, 8), upto);
  }

  lemma LastLetterOut(input: seq<Byte>, value: nat, bits: nat, output: string)
    requires 0 < bits < 5 && Held(input, value, bits, output, 8 * |input|)
    ensures And(Shl(value, 5 - bits), 31) == FiveBits(input, |output|)
  {
    ReadRest(value, bits, Stream(input, 8));
    Masks(Shl(value, 5 - bits));
  }

  lemma EncodedAtEnd(input: seq<Byte>, output: string)
    requires |output| == EncodedLength(|input|)
    requires forall j :: 0 <= j < |output| ==> output[j] == Letter(FiveBits(input, j))
    ensures output == Encode(input)
  {
  }

  method EncodeBase32(input: seq<Byte>) returns (output: string)
    ensures output == Encode(input)
  {
    var bits: nat, value: nat := 0, 0;
    output := "";
    for i := 0 to |input|
      invariant bits < 5 && Held(input, value, bits, output, 8 * i)
    {
      OneByteIn(input, value, bits, output, i);
      value := OrInWord(Shl(value, 8), input[i]);
      bits := bits + 8;
      while bits >= 5
        invariant Held(input, value, bits, output, 8 * (i + 1))
      {
        OneLetterOut(input, value, bits, output, 8 * (i + 1));
        output := output + [Letter(And(Shr(value, bits - 5), 31))];
        bits := bits - 5;
      }
    }
    if bits > 0 {
      LastLetterOut(input, value, bits, output);
      output := output + [Letter(And(Shl(value, 5 - bits), 31))];
    }
    EncodedAtEnd(input, output);
  }

  /** `|` of a word and a byte is a word again. */
  function OrInWord(a: nat, b: nat): (r: nat)
    requires a < WORD && b < WORD
    ensures r == Or(a, b) && r < WORD
  {
    WordIsPow2();
    OrBelow(a, b, 32);
    Or(a, b)
  }

  lemma {:induction false} OrBelow(a: nat, b: nat, n: nat)
    requires a < Pow2(n) && b < Pow2(n)
    ensures Or(a, b) < Pow2(n)
    decreases n
  {
    if n > 0 {
      OrBelow(a / 2, b / 2, n - 1);
    }
  }

  /** The state of the decoding loop after some digits: bytes written, and bits still held. */
  ghost predicate Pending(digits: seq<Digit>, value: nat, bits: nat, bytes: seq<Byte>) {
    && bits < 13 && value < WORD && 8 * |bytes| + bits == 5 * |digits|
    && Holds(value, bits, Stream(digits, 5), 5 * |digits|)
    && forall j :: 0 <= j < |bytes| ==> bytes[j] == EightBits(digits, j)
  }

  method DecodeBase32(input: string) returns (output: Option<seq<Byte>>)
    ensures output == Decode(input)
  {
    var normalized := Normalise(input);
    var bits: nat, value: nat := 0, 0;
    var bytes: seq<Byte> := [];
    for i := 0 to |normalized|
      invariant InAlphabet(normalized[..i])
      invariant bits < 8 && Pending(Digits(normalized[..i]), value, bits, bytes)
    {
      var index := IndexOf(normalized[i]);
      if index < 0 {
        return None;
      }
      OneMoreLetter(normalized, i);
      OneMoreDigit(Digits(normalized[..i]), index, value, bits, bytes);
      value := OrInWord(Shl(value, 5), index);
      bits := bits + 5;
      if bits >= 8 {
        OneMoreByte(Digits(normalized[..i + 1]), value, bits, bytes);
        bytes := bytes + [And(Shr(value, bits - 8), 255)];
        bits := bits - 8;
      }
    }
    assert normalized[..|normalized|] == normalized;
    assert bytes == DecodedBytes(Digits(normalized));
    return Some(bytes);
  }

  lemma OneMoreLetter(s: string, i: nat)
    requires i < |s| && InAlphabet(s[..i]) && IsLetter(s[i])
    ensures InAlphabet(s[..i + 1]) && Digits(s[..i + 1]) == Digits(s[..i]) + [DigitOf(s[i])]
  {
    var longer := s[..i + 1];
    forall k | 0 <= k < |longer| ensures IsLetter(longer[k]) {
      assert k < i ==> IsLetter(s[..i][k]);
    }
  }

  lemma EarlierBytesStay(seen: seq<Digit>, digits: seq<Digit>, j: nat)
    requires Stream(seen, 5) <= Stream(digits, 5) && 8 * (j + 1) <= 5 * |seen|
    ensures EightBits(digits, j) == EightBits(seen, j)
  {
    GatherLonger(Stream(seen, 5), Stream(digits, 5), 8 * j, 8);
  }

  /** What a further character does to the bits held: five more, all of the stream. */
  lemma HoldOneMore(seen: seq<Digit>, index: Digit, value: nat, bits: nat)
    requires bits < 8 && Holds(value, bits, Stream(seen, 5), 5 * |seen|)
    ensures var digits := seen + [index];
            && Holds(Or(Shl(value, 5), index), bits + 5, Stream(digits, 5), 5 * |digits|)
            && Stream(seen, 5) <= Stream(digits, 5)
  {
    var digits := seen + [index];
    StreamGrows(seen, index, 5);
    HoldsLonger(value, bits, Stream(seen, 5), Stream(digits, 5), 5 * |seen|);
    EightIs256();
    WordsInStream(digits, 5, |seen|, 5 * |seen|);
    ShiftIn(value, bits, index, 5, Stream(digits, 5), 5 * |seen|);
  }

  lemma OneMoreDigit(seen: seq<Digit>, index: Digit, value: nat, bits: nat, bytes: seq<Byte>)
    requires bits < 8 && Pending(seen, value, bits, bytes)
    ensures Pending(seen + [index], OrInWord(Shl(value, 5), index), bits + 5, bytes)
  {
    HoldOneMore(seen, index, value, bits);
    forall j | 0 <= j < |bytes| ensures bytes[j] == EightBits(seen + [index], j) {
      EarlierBytesStay(seen, seen + [index], j);
    }
  }

  lemma OneMoreByte(digits: seq<Digit>, value: nat, bits: nat, bytes: seq<Byte>)
    requires bits >= 8 && Pending(digits, value, bits, bytes)
    ensures And(Shr(value, bits - 8), 255) < 256
    ensures Pending(digits, value, bits - 8, bytes + [And(Shr(value, bits - 8), 255)])
  {
    EightIs256();
    Masks(Shr(value, bits - 8));
    ReadTop(value, bits, 8, Stream(digits, 5), 5 * |digits|, 8 * |bytes|);
    HoldsFewer(value, bits, bits - 8, Stream(digits, 5), 5 * |digits|);
  }

  lemma HoldsFewer(value: nat, bits: nat, fewer: nat, stream: seq<bool>, upto: nat)
    requires Holds(value, bits, stream, upto) && fewer <= bits
    ensures Holds(value, fewer, stream, upto)
  {
  }

  lemma StreamGrows(words: seq<nat>, next: nat, width: nat)
    ensures Stream(words, width) <= Stream(words + [next], width)
  {
    assert (words + [next])[..|words|] == words;
  }

  lemma HoldsLonger(value: nat, bits: nat, stream: seq<bool>, longer: seq<bool>, upto: nat)
    requires Holds(value, bits, stream, upto) && stream <= longer
    ensures Holds(value, bits, longer, upto)
  {
  }

  lemma {:induction false} GatherLonger(bits: seq<bool>, longer: seq<bool>, start: nat, width: nat)
    requires bits <= longer && start + width <= |bits|
    ensures Gather(longer, start, width) == Gather(bits, start, width)
    decreases width
  {
    if width > 0 {
      GatherLonger(bits, longer, start, width - 1);
    }
  }
}
