/** The two codec directions undo each other, and what a secret may look like. */
module Base32RoundTrip {
  import opened Wrappers
  import opened Bits
  import opened Base32

  // ------------------------------------------------------- encode, then decode

  lemma EncodedStreamBit(bytes: seq<Byte>, j: nat, k: nat)
    requires j < EncodedLength(|bytes|) && k < 5
    ensures 5 * j + k < |Stream(EncodedDigits(bytes), 5)|
    ensures Stream(EncodedDigits(bytes), 5)[5 * j + k] == Ahead(Stream(bytes, 8), 5 * j + k)
  {
    StreamBit(EncodedDigits(bytes), 5, j, k);
    GatherBit(Stream(bytes, 8), 5 * j, 5, 4 - k);
  }

  /** The digits' bits are the input's bits followed by zeros. */
  lemma EncodedStream(bytes: seq<Byte>, i: nat)
    requires i < 5 * EncodedLength(|bytes|)
    ensures |Stream(EncodedDigits(bytes), 5)| == 5 * EncodedLength(|bytes|)
    ensures Stream(EncodedDigits(bytes), 5)[i] == Ahead(Stream(bytes, 8), i)
  {
    EncodedStreamBit(bytes, i / 5, i % 5);
  }

  lemma ByteBit(bytes: seq<Byte>, bits: seq<bool>, j: nat, k: nat)
    requires j < |bytes| && k < 8 && 8 * |bytes| <= |bits|
    requires forall i :: 0 <= i < 8 * |bytes| ==> bits[i] == Ahead(Stream(bytes, 8), i)
    ensures Bit(bytes[j], k) <==> Ahead(bits, 8 * j + 8 - 1 - k)
  {
    WordBit(bytes, 8, j, 8 * j, k);
    assert bits[8 * j + 7 - k] == Ahead(Stream(bytes, 8), 8 * j + 7 - k);
  }

  lemma ByteOfStream(bytes: seq<Byte>, bits: seq<bool>, j: nat, start: nat)
    requires j < |bytes| && 8 * |bytes| <= |bits| && start == 8 * j
    requires forall i :: 0 <= i < 8 * |bytes| ==> bits[i] == Ahead(Stream(bytes, 8), i)
    ensures Gather(bits, start, 8) == bytes[j]
  {
    EightIs256();
    forall k | 0 <= k < 8 ensures Bit(bytes[j], k) <==> Ahead(bits, start + 8 - 1 - k) {
      ByteBit(bytes, bits, j, k);
    }
    GatherIs(bytes[j], bits, start, 8);
  }

  lemma DecodedAreEncoded(bytes: seq<Byte>)
    ensures DecodedBytes(EncodedDigits(bytes)) == bytes
  {
    var digits := EncodedDigits(bytes);
    forall i | 0 <= i < 8 * |bytes|
      ensures Stream(digits, 5)[i] == Ahead(Stream(bytes, 8), i)
    {
      EncodedStream(bytes, i);
    }
    forall j | 0 <= j < |bytes| ensures EightBits(digits, j) == bytes[j] {
      ByteOfStream(bytes, Stream(digits, 5), j, 8 * j);
    }
  }

  // ------------------------------------------------------------- normalisation

  lemma PlainCharacters(c: char)
    requires 'A' <= c <= 'Z' || '2' <= c <= '7'
    ensures UpperChar(c) == [c] && !IsSpace(c) && c != '='
  {
  }

  lemma LettersArePlain(c: char)
    requires IsLetter(c)
    ensures UpperChar(c) == [c] && !IsSpace(c) && c != '='
  {
    hide UpperChar, IsSpace;
    var d :| 0 <= d < 32 && ALPHABET[d] == c;
    LetterRange(d);
    PlainCharacters(c);
  }

  lemma LetterRange(d: Digit)
    ensures if d < 26 then 'A' <= Letter(d) <= 'Z' else '2' <= Letter(d) <= '7'
  {
    if d < 16 {
    } else if d < 26 {
    } else {
    }
  }

  lemma {:induction false} WithoutSpaceOfPlain(s: string)
    requires forall i :: 0 <= i < |s| ==> !IsSpace(s[i])
    ensures WithoutSpace(s) == s
  {
    if s != [] {
      WithoutSpaceOfPlain(s[..|s| - 1]);
      assert s == s[..|s| - 1] + [s[|s| - 1]];
    }
  }

  lemma {:induction false} UpperKeepsLetters(s: string)
    requires InAlphabet(s)
    ensures Upper(s) == s
  {
    hide UpperChar, IsLetter;
    if s != [] {
      var n := |s| - 1;
      UpperKeepsLetters(s[..n]);
      LettersArePlain(s[n]);
      assert s == s[..n] + [s[n]];
    }
  }

  lemma NormaliseKeepsLetters(s: string)
    requires InAlphabet(s)
    ensures Normalise(s) == s
  {
    forall i | 0 <= i < |s| ensures !IsSpace(s[i]) && s[i] != '=' {
      LettersArePlain(s[i]);
    }
    UpperKeepsLetters(s);
    assert StripEquals(s) == s;
    WithoutSpaceOfPlain(s);
  }

  /** For secrets of any length: decoding what was encoded gives the bytes back. */
  lemma EncodeThenDecode(bytes: seq<Byte>)
    ensures |Encode(bytes)| == EncodedLength(|bytes|) && InAlphabet(Encode(bytes))
    ensures Decode(Encode(bytes)) == Some(bytes)
  {
    LettersAndBack(EncodedDigits(bytes));
    NormaliseKeepsLetters(Encode(bytes));
    DecodedAreEncoded(bytes);
  }

  // ------------------------------------------------------- decode, then encode

  ghost predicate UnusedBitsZero(digits: seq<Digit>) {
    forall i :: 8 * DecodedLength(|digits|) <= i < 5 * |digits| ==> !Ahead(Stream(digits, 5), i)
  }

  lemma DecodedStream(digits: seq<Digit>, i: nat)
    requires i < 8 * DecodedLength(|digits|)
    ensures |Stream(DecodedBytes(digits), 8)| == 8 * DecodedLength(|digits|)
    ensures Stream(DecodedBytes(digits), 8)[i] == Ahead(Stream(digits, 5), i)
  {
    var j, k := i / 8, i % 8;
    StreamBit(DecodedBytes(digits), 8, j, k);
    GatherBit(Stream(digits, 5), 8 * j, 8, 7 - k);
  }

  lemma LengthComesBack(m: nat)
    ensures EncodedLength(DecodedLength(m)) == m <==> m % 8 !in {1, 3, 6}
    ensures 8 * DecodedLength(m) <= 5 * m
  {
    var q, r := m / 8, m % 8;
    assert DecodedLength(m) == 5 * q + 5 * r / 8;
    assert EncodedLength(DecodedLength(m)) == 8 * q + (8 * (5 * r / 8) + 4) / 5;
  }

  lemma DigitComesBack(digits: seq<Digit>, j: nat)
    requires j < |digits| && UnusedBitsZero(digits)
    ensures FiveBits(DecodedBytes(digits), j) == digits[j]
  {
    EightIs256();
    var bits := Stream(DecodedBytes(digits), 8);
    LengthComesBack(|digits|);
    forall k | 0 <= k < 5 ensures Bit(digits[j], k) <==> Ahead(bits, 5 * j + 4 - k) {
      var i := 5 * j + 4 - k;
      WordBit(digits, 5, j, 5 * j, k);
      assert Bit(digits[j], k) <==> Ahead(Stream(digits, 5), i);
      if i < 8 * DecodedLength(|digits|) {
        DecodedStream(digits, i);
      }
    }
    GatherIs(digits[j], bits, 5 * j, 5);
  }

  lemma EncodedAreDecoded(digits: seq<Digit>)
    ensures EncodedDigits(DecodedBytes(digits)) == digits <==> |digits| % 8 !in {1, 3, 6} && UnusedBitsZero(digits)
  {
    var bytes := DecodedBytes(digits);
    LengthComesBack(|digits|);
    if EncodedDigits(bytes) == digits {
      forall i | 8 * |bytes| <= i < 5 * |digits| ensures !Ahead(Stream(digits, 5), i) {
        EncodedStream(bytes, i);
      }
    }
    if |digits| % 8 !in {1, 3, 6} && UnusedBitsZero(digits) {
      forall j | 0 <= j < |digits| ensures FiveBits(bytes, j) == digits[j] {
        DigitComesBack(digits, j);
      }
    }
  }

  /** Read off the last digit: how many of its low bits no byte uses, and that they are zero. */
  lemma UnusedBitsOfLast(digits: seq<Digit>)
    requires |digits| % 8 !in {1, 3, 6} && digits != []
    ensures UnusedBitsZero(digits) <==> digits[|digits| - 1] % Pow2(5 * |digits| % 8) == 0
  {
    var m, u := |digits|, 5 * |digits| % 8;
    var last := digits[m - 1];
    UnusedAtMostFour(m);
    forall k | 0 <= k < u ensures Bit(last % Pow2(u), k) <==> Ahead(Stream(digits, 5), 5 * m - 1 - k) {
      LowBits(last, u, k);
      WordBit(digits, 5, m - 1, 5 * (m - 1), k);
    }
    assert 5 * m == 8 * DecodedLength(m) + u;
    if UnusedBitsZero(digits) {
      forall k | 0 <= k < u ensures Bit(last % Pow2(u), k) <==> Bit(0, k) {
        ZeroBit(k);
      }
      SameBits(last % Pow2(u), 0, u);
    }
    if last % Pow2(u) == 0 {
      forall i | 5 * m - u <= i < 5 * m ensures !Ahead(Stream(digits, 5), i) {
        ZeroBit(5 * m - 1 - i);
        assert Bit(last % Pow2(u), 5 * m - 1 - i) <==> Ahead(Stream(digits, 5), i);
      }
    }
  }

  lemma UnusedAtMostFour(m: nat)
    requires m % 8 !in {1, 3, 6}
    ensures 5 * m % 8 <= 4
  {
    var q := m / 8;
    if m == 8 * q {
      assert 5 * m == 8 * (5 * q);
    } else if m == 8 * q + 2 {
      assert 5 * m == 8 * (5 * q + 1) + 2;
    } else if m == 8 * q + 4 {
      assert 5 * m == 8 * (5 * q + 2) + 4;
    } else if m == 8 * q + 5 {
      assert 5 * m == 8 * (5 * q + 3) + 1;
    } else {
      assert m == 8 * q + 7;
      assert 5 * m == 8 * (5 * q + 4) + 3;
    }
  }

  /** A length an encoding can have, and a last digit whose bits outside every byte are zero. */
  predicate Canonical(digits: seq<Digit>) {
    && |digits| % 8 !in {1, 3, 6}
    && (digits == [] || digits[|digits| - 1] % Pow2(5 * |digits| % 8) == 0)
  }

  lemma CanonicalComesBack(digits: seq<Digit>)
    ensures EncodedDigits(DecodedBytes(digits)) == digits <==> Canonical(digits)
  {
    EncodedAreDecoded(digits);
    if |digits| % 8 !in {1, 3, 6} && digits != [] {
      UnusedBitsOfLast(digits);
    }
  }

  lemma DecodeOfLetters(s: string)
    requires InAlphabet(s)
    ensures Decode(s) == Some(DecodedBytes(Digits(s)))
  {
    NormaliseKeepsLetters(s);
  }

  lemma SameLetters(digits: seq<Digit>, s: string)
    requires InAlphabet(s)
    ensures Letters(digits) == s <==> digits == Digits(s)
  {
    LettersAndBack(digits);
    DigitsAndBack(s);
  }

  /**
    A string of the alphabet comes back from decoding and encoding exactly when its
    length can be that of an encoding and the low bits of its last letter that belong
    to no byte are zero.
   */
  lemma DecodeThenEncode(s: string)
    requires InAlphabet(s)
    ensures Decode(s).Some?
    ensures Encode(Decode(s).value) == s <==> Canonical(Digits(s))
  {
    DecodeOfLetters(s);
    SameLetters(EncodedDigits(DecodedBytes(Digits(s))), s);
    CanonicalComesBack(Digits(s));
  }

  // ----------------------------------------------- which strings are accepted

  /** The upper case of the character is whitespace or letters of the alphabet. */
  ghost predicate LetterOrSpace(c: char) { AllFit(UpperChar(c)) }

  /** Letters of either case and whitespace up to `n`, only `=` from there. */
  ghost predicate Accepted(s: string, n: nat) {
    && n <= |s|
    && (forall i :: 0 <= i < n ==> LetterOrSpace(s[i]))
    && (forall i :: n <= i < |s| ==> s[i] == '=')
  }

  predicate Fits(c: char) { IsLetter(c) || IsSpace(c) }

  ghost predicate AllFit(s: string) {
    forall i :: 0 <= i < |s| ==> Fits(s[i])
  }

  lemma AppendLetter(s: string, c: char)
    ensures InAlphabet(s + [c]) <==> InAlphabet(s) && IsLetter(c)
    ensures AllFit(s + [c]) <==> AllFit(s) && Fits(c)
  {
    var t := s + [c];
    assert t[|s|] == c;
    assert forall i :: 0 <= i < |s| ==> t[i] == s[i];
  }

  lemma {:induction false} WithoutSpaceInAlphabet(s: string)
    ensures InAlphabet(WithoutSpace(s)) <==> AllFit(s)
  {
    if s != [] {
      var n := |s| - 1;
      WithoutSpaceInAlphabet(s[..n]);
      assert s == s[..n] + [s[n]];
      AppendLetter(s[..n], s[n]);
      if IsSpace(s[n]) {
        assert WithoutSpace(s) == WithoutSpace(s[..n]);
      } else {
        assert WithoutSpace(s) == WithoutSpace(s[..n]) + [s[n]];
        AppendLetter(WithoutSpace(s[..n]), s[n]);
      }
    }
  }

  lemma EqualsIsNothingElse()
    ensures !IsLetter('=') && !IsSpace('=') && UpperChar('=') == "=" && !LetterOrSpace('=')
  {
    assert !Fits("="[0]);
  }

  lemma {:induction false} AllFitConcat(s: string, t: string)
    ensures AllFit(s + t) <==> AllFit(s) && AllFit(t)
  {
    if AllFit(s + t) {
      assert forall i :: 0 <= i < |s| ==> (s + t)[i] == s[i];
      assert forall i :: 0 <= i < |t| ==> (s + t)[|s| + i] == t[i];
    }
  }

  lemma {:induction false} UpperFits(s: string)
    ensures AllFit(Upper(s)) <==> forall i :: 0 <= i < |s| ==> LetterOrSpace(s[i])
  {
    hide UpperChar, IsLetter, IsSpace, Fits;
    if s != [] {
      var n := |s| - 1;
      UpperFits(s[..n]);
      AllFitConcat(Upper(s[..n]), UpperChar(s[n]));
      assert forall i :: 0 <= i < n ==> s[..n][i] == s[i];
    }
  }

  /** An upper case ends in `=` only for the character itself. */
  lemma UpperLast(c: char)
    requires c != '='
    ensures UpperChar(c)[|UpperChar(c)| - 1] != '='
  {
  }

  /** Upper case and the final run of `=` do not meet. */
  lemma {:induction false} StripUpper(s: string)
    ensures StripEquals(Upper(s)) == Upper(StripEquals(s))
  {
    if s != [] {
      var n := |s| - 1;
      var u := Upper(s);
      EqualsIsNothingElse();
      if s[n] == '=' {
        StripUpper(s[..n]);
        assert u[..|u| - 1] == Upper(s[..n]);
      } else {
        UpperLast(s[n]);
        assert u[|u| - 1] == UpperChar(s[n])[|UpperChar(s[n])| - 1];
      }
    }
  }

  lemma {:induction false} StripFinds(s: string, n: nat)
    requires n <= |s| && (forall i :: n <= i < |s| ==> s[i] == '=') && (n > 0 ==> s[n - 1] != '=')
    ensures StripEquals(s) == s[..n]
    decreases |s|
  {
    if n < |s| {
      StripFinds(s[..|s| - 1], n);
      assert s[..|s| - 1][..n] == s[..n];
    } else {
      assert s[..n] == s;
    }
  }

  lemma DecodesExactly(s: string)
    ensures Decode(s).Some? <==> forall i :: 0 <= i < |StripEquals(s)| ==> LetterOrSpace(s[i])
  {
    hide Upper, UpperChar, WithoutSpace, IsLetter, IsSpace;
    hide Fits, LetterOrSpace, AllFit, DecodedBytes, Digits, InAlphabet;
    StripUpper(s);
    WithoutSpaceInAlphabet(Upper(StripEquals(s)));
    UpperFits(StripEquals(s));
    assert forall i :: 0 <= i < |StripEquals(s)| ==> StripEquals(s)[i] == s[i];
  }

  /**
    What decodes: letters of either case and whitespace, then only `=`.  So whitespace
    after a `=` is refused.
   */
  lemma AcceptedExactly(s: string)
    ensures Decode(s).Some? <==> exists n :: Accepted(s, n)
  {
    DecodesExactly(s);
    if Decode(s).Some? {
      assert Accepted(s, |StripEquals(s)|);
    }
    if exists n :: Accepted(s, n) {
      var n :| Accepted(s, n);
      StripAccepted(s, n);
    }
  }

  lemma StripAccepted(s: string, n: nat)
    requires Accepted(s, n)
    ensures StripEquals(s) == s[..n]
  {
    EqualsIsNothingElse();
    assert n > 0 ==> LetterOrSpace(s[n - 1]);
    StripFinds(s, n);
  }

  lemma BodyAccepted(body: string, padded: string)
    requires InAlphabet(WithoutSpace(Upper(body)))
    requires body <= padded && forall i :: |body| <= i < |padded| ==> padded[i] == '='
    ensures Accepted(padded, |body|)
  {
    hide Upper, UpperChar, WithoutSpace, InAlphabet, StripEquals, IsLetter, IsSpace, Fits, LetterOrSpace, AllFit;
    WithoutSpaceInAlphabet(Upper(body));
    UpperFits(body);
    assert forall i :: 0 <= i < |body| ==> padded[i] == body[i];
  }

  /** Case, whitespace and a final run of `=` do not change what is decoded. */
  lemma VariantsDecodeAlike(s: string, body: string, padded: string)
    requires InAlphabet(s) && WithoutSpace(Upper(body)) == s
    requires body <= padded && forall i :: |body| <= i < |padded| ==> padded[i] == '='
    ensures Decode(padded) == Decode(s) && Decode(s).Some?
  {
    hide Upper, StripEquals, WithoutSpace, InAlphabet, Accepted;
    BodyAccepted(body, padded);
    StripAccepted(padded, |body|);
    assert padded[..|body|] == body;
    StripUpper(padded);
    NormaliseKeepsLetters(s);
  }
}
