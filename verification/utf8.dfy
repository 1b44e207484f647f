/** UTF-8 as Python's codec reads and writes it, following section 3 of RFC 3629. */
module Utf8 {

  type Byte = b: int | 0 <= b < 256

  /** A Unicode scalar value: a code point that is not a surrogate. */
  type Scalar = c: int | 0 <= c < 0xD800 || 0xE000 <= c < 0x110000

  predicate Continuation(b: Byte) {
    0x80 <= b < 0xC0
  }

  function EncodeOne(c: Scalar): (bytes: seq<Byte>)
    ensures 1 <= |bytes| <= 4
  {
    if c < 0x80 then
      [c]
    else if c < 0x800 then
      [0xC0 + c / 64, 0x80 + c % 64]
    else if c < 0x10000 then
      [0xE0 + c / 4096, 0x80 + c / 64 % 64, 0x80 + c % 64]
    else
      [0xF0 + c / 262144, 0x80 + c / 4096 % 64, 0x80 + c / 64 % 64, 0x80 + c % 64]
  }

  function Encode(s: seq<Scalar>): seq<Byte> {
    if s == [] then [] else EncodeOne(s[0]) + Encode(s[1..])
  }

  /** How many bytes the form that starts with this lead byte takes; 0 if no form starts with it. */
  function FormLength(lead: Byte): nat {
    if lead < 0x80 then 1
    else if 0xC2 <= lead < 0xE0 then 2
    else if 0xE0 <= lead < 0xF0 then 3
    else if 0xF0 <= lead < 0xF5 then 4
    else 0
  }

  /**
   The second byte is a continuation byte; after some leads its range is narrower, which shuts out
   overlong forms, surrogates and values above 0x10FFFF.
   */
  predicate SecondByte(lead: Byte, b: Byte) {
    && Continuation(b)
    && (lead == 0xE0 ==> b >= 0xA0)
    && (lead == 0xED ==> b < 0xA0)
    && (lead == 0xF0 ==> b >= 0x90)
    && (lead == 0xF4 ==> b < 0x90)
  }

  /** How many bytes at the front could begin a form: all of the form, or as much of it as is right. */
  function GoodBytes(bytes: seq<Byte>): (n: nat)
    requires bytes != []
    ensures n <= |bytes|
  {
    var need := FormLength(bytes[0]);
    if need <= 1 then need
    else if |bytes| == 1 || !SecondByte(bytes[0], bytes[1]) then 1
    else if need == 2 || |bytes| == 2 || !Continuation(bytes[2]) then 2
    else if need == 3 || |bytes| == 3 || !Continuation(bytes[3]) then 3
    else 4
  }

  function Value(form: seq<Byte>): int
    requires 1 <= |form| <= 4
  {
    var lead: int := form[0];
    match |form|
    case 1 => lead
    case 2 => (lead - 0xC0) * 64 + Bits(form[1])
    case 3 => (lead - 0xE0) * 4096 + Bits(form[1]) * 64 + Bits(form[2])
    case _ => (lead - 0xF0) * 262144 + Bits(form[1]) * 4096 + Bits(form[2]) * 64 + Bits(form[3])
  }

  /** What a continuation byte contributes. */
  function Bits(b: Byte): int {
    var code: int := b;
    code - 0x80
  }

  lemma FormHasScalar(bytes: seq<Byte>)
    requires bytes != [] && FormLength(bytes[0]) > 0
    requires GoodBytes(bytes) == FormLength(bytes[0])
    ensures 0 <= Value(bytes[..GoodBytes(bytes)]) < 0xD800 || 0xE000 <= Value(bytes[..GoodBytes(bytes)]) < 0x110000
  {
  }

  /**
   bytes.decode("utf-8", errors="ignore"): complete forms are read; a broken one is dropped as far
   as it was right, and at least its first byte.
   */
  function DecodeIgnoring(bytes: seq<Byte>): seq<Scalar>
    decreases |bytes|
  {
    if bytes == [] then []
    else
      var need, good := FormLength(bytes[0]), GoodBytes(bytes);
      if need > 0 && good == need then
        FormHasScalar(bytes);
        [Value(bytes[..need])] + DecodeIgnoring(bytes[need..])
      else
        DecodeIgnoring(bytes[if good == 0 then 1 else good..])
  }

  /** A sequence that is one whole form and nothing else. */
  predicate IsForm(form: seq<Byte>) {
    && form != []
    && FormLength(form[0]) == |form|
    && (|form| > 1 ==> SecondByte(form[0], form[1]))
    && (forall i :: 2 <= i < |form| ==> Continuation(form[i]))
  }

  lemma DigitsOf(c: nat)
    ensures c == c / 64 * 64 + c % 64
    ensures c / 64 == c / 4096 * 64 + c / 64 % 64
    ensures c / 4096 == c / 262144 * 64 + c / 4096 % 64
  {
    assert c / 4096 == c / 64 / 64;
    assert c / 262144 == c / 4096 / 64;
  }

  lemma EncodingIsForm(c: Scalar)
    ensures IsForm(EncodeOne(c)) && Value(EncodeOne(c)) == c
  {
    DigitsOf(c);
  }

  lemma FormAtFront(form: seq<Byte>, rest: seq<Byte>)
    requires IsForm(form)
    ensures FormLength((form + rest)[0]) == GoodBytes(form + rest) == |form|
  {
  }

  lemma OneRoundTrip(c: Scalar, rest: seq<Byte>)
    ensures FormLength((EncodeOne(c) + rest)[0]) == GoodBytes(EncodeOne(c) + rest) == |EncodeOne(c)|
    ensures Value((EncodeOne(c) + rest)[..|EncodeOne(c)|]) == c
  {
    hide EncodeOne, Value;
    EncodingIsForm(c);
    FormAtFront(EncodeOne(c), rest);
    assert (EncodeOne(c) + rest)[..|EncodeOne(c)|] == EncodeOne(c);
  }

  /** A form cut short is right as far as it goes, so that all that is left of it is dropped at once. */
  lemma CutForm(form: seq<Byte>, n: nat)
    requires IsForm(form) && 0 < n < |form|
    ensures DecodeIgnoring(form[..n]) == []
  {
    assert form[..n][0] == form[0] && GoodBytes(form[..n]) == n;
    assert form[..n][n..] == [];
  }

  lemma DecodeOneMore(c: Scalar, rest: seq<Byte>)
    ensures DecodeIgnoring(EncodeOne(c) + rest) == [c] + DecodeIgnoring(rest)
  {
    hide EncodeOne, Value, GoodBytes, FormLength;
    OneRoundTrip(c, rest);
    assert (EncodeOne(c) + rest)[|EncodeOne(c)|..] == rest;
  }

  // ----- the decoder on any bytes -----

  lemma ContinuationBits(b: Byte)
    requires Continuation(b)
    ensures 0 <= Bits(b) < 64
  {
  }

  /** Digits to base 64 can be read off again. */
  lemma DigitsRead(high: nat, low: nat)
    requires low < 64
    ensures (high * 64 + low) / 64 == high && (high * 64 + low) % 64 == low
  {
  }

  lemma FormOfTwo(form: seq<Byte>) returns (c: Scalar)
    requires IsForm(form) && |form| == 2
    ensures EncodeOne(c) == form
  {
    ContinuationBits(form[1]);
    c := Value(form);
    DigitsRead(form[0] - 0xC0, Bits(form[1]));
  }

  lemma FormOfThree(form: seq<Byte>) returns (c: Scalar)
    requires IsForm(form) && |form| == 3
    ensures EncodeOne(c) == form
  {
    ContinuationBits(form[1]);
    ContinuationBits(form[2]);
    c := Value(form);
    DigitsRead((form[0] - 0xE0) * 64 + Bits(form[1]), Bits(form[2]));
    DigitsRead(form[0] - 0xE0, Bits(form[1]));
    DigitsOf(c);
  }

  lemma FormOfFour(form: seq<Byte>) returns (c: Scalar)
    requires IsForm(form) && |form| == 4
    ensures EncodeOne(c) == form
  {
    ContinuationBits(form[1]);
    ContinuationBits(form[2]);
    ContinuationBits(form[3]);
    c := Value(form);
    DigitsRead(((form[0] - 0xF0) * 64 + Bits(form[1])) * 64 + Bits(form[2]), Bits(form[3]));
    DigitsRead((form[0] - 0xF0) * 64 + Bits(form[1]), Bits(form[2]));
    DigitsRead(form[0] - 0xF0, Bits(form[1]));
    DigitsOf(c);
  }

  /** Every form is the encoding of a scalar value. */
  lemma FormEncodes(form: seq<Byte>) returns (c: Scalar)
    requires IsForm(form)
    ensures EncodeOne(c) == form
  {
    assert 1 <= |form| <= 4;
    match |form| {
      case 1 => c := form[0];
      case 2 => c := FormOfTwo(form);
      case 3 => c := FormOfThree(form);
      case _ => c := FormOfFour(form);
    }
  }

  lemma GoodIsForm(bytes: seq<Byte>)
    requires bytes != [] && FormLength(bytes[0]) > 0 && GoodBytes(bytes) == FormLength(bytes[0])
    ensures IsForm(bytes[..GoodBytes(bytes)])
  {
  }

  /** A continuation byte starts no form and is dropped alone. */
  lemma StrayDropped(bytes: seq<Byte>)
    requires bytes != [] && Continuation(bytes[0])
    ensures DecodeIgnoring(bytes) == DecodeIgnoring(bytes[1..])
  {
  }

  lemma {:induction false} StraysDropped(bytes: seq<Byte>, n: nat)
    requires n <= |bytes| && forall i :: 0 <= i < n ==> Continuation(bytes[i])
    ensures DecodeIgnoring(bytes) == DecodeIgnoring(bytes[n..])
  {
    if n == 0 {
      assert bytes[0..] == bytes;
    } else {
      StrayDropped(bytes);
      StraysDropped(bytes[1..], n - 1);
      assert bytes[1..][n - 1..] == bytes[n..];
    }
  }

  lemma BrokenFront(bytes: seq<Byte>)
    requires bytes != [] && GoodBytes(bytes) < FormLength(bytes[0])
    ensures DecodeIgnoring(bytes) == DecodeIgnoring(bytes[1..])
  {
    var good := GoodBytes(bytes);
    assert good >= 1;
    assert forall i :: 0 <= i < good - 1 ==> Continuation(bytes[1..][i]);
    hide FormLength;
    StraysDropped(bytes[1..], good - 1);
    assert bytes[1..][good - 1..] == bytes[good..];
  }

  /**
   Exactly what the decoder makes of any bytes: an encoded scalar value at the front is read, and a byte at
   which no encoding starts is dropped.
   */
  lemma DecodeExactly(bytes: seq<Byte>, c: Scalar, rest: seq<Byte>)
    ensures DecodeIgnoring(EncodeOne(c) + rest) == [c] + DecodeIgnoring(rest)
    ensures bytes != [] && (forall d: Scalar :: !(EncodeOne(d) <= bytes)) ==> DecodeIgnoring(bytes) == DecodeIgnoring(bytes[1..])
  {
    DecodeOneMore(c, rest);
    if bytes != [] && (forall d: Scalar :: !(EncodeOne(d) <= bytes)) {
      if FormLength(bytes[0]) > 0 && GoodBytes(bytes) == FormLength(bytes[0]) {
        GoodIsForm(bytes);
        var d := FormEncodes(bytes[..GoodBytes(bytes)]);
        assert EncodeOne(d) <= bytes;
      } else if FormLength(bytes[0]) > 0 {
        BrokenFront(bytes);
      }
    }
  }

  lemma {:induction false} RoundTrip(s: seq<Scalar>)
    ensures DecodeIgnoring(Encode(s)) == s
  {
    if s != [] {
      DecodeOneMore(s[0], Encode(s[1..]));
      RoundTrip(s[1..]);
    }
  }

  /** The code points of s, from the front, for as long as their encodings fit in n bytes. */
  function Fitting(s: seq<Scalar>, n: nat): (k: nat)
    ensures k <= |s|
  {
    if s == [] || |EncodeOne(s[0])| > n then 0 else 1 + Fitting(s[1..], n - |EncodeOne(s[0])|)
  }

  /** Decoding a cut encoding gives the code points whose bytes all survived the cut, and no others. */
  lemma {:induction false} DecodeOfCut(s: seq<Scalar>, n: nat)
    requires n <= |Encode(s)|
    ensures DecodeIgnoring(Encode(s)[..n]) == s[..Fitting(s, n)]
  {
    if s != [] {
      var first, later := EncodeOne(s[0]), Encode(s[1..]);
      hide EncodeOne;
      if n < |first| {
        assert (first + later)[..n] == first[..n];
        EncodingIsForm(s[0]);
        if n > 0 {
          CutForm(first, n);
        }
      } else {
        assert (first + later)[..n] == first + later[..n - |first|];
        DecodeOneMore(s[0], later[..n - |first|]);
        DecodeOfCut(s[1..], n - |first|);
        assert s[..Fitting(s, n)] == [s[0]] + s[1..][..Fitting(s, n) - 1];
      }
    }
  }

  lemma {:induction false} EncodeConcat(s: seq<Scalar>, r: seq<Scalar>)
    ensures Encode(s + r) == Encode(s) + Encode(r)
  {
    hide EncodeOne;
    if s == [] {
      assert s + r == r;
    } else {
      EncodeConcat(s[1..], r);
      assert (s + r)[1..] == s[1..] + r && (s + r)[0] == s[0];
    }
  }

  /** Fitting is the longest prefix: k code points encode into n bytes exactly when k does not exceed it. */
  lemma {:induction false} FittingIsLongest(s: seq<Scalar>, n: nat, k: nat)
    requires k <= |s|
    ensures |Encode(s[..k])| <= n <==> k <= Fitting(s, n)
  {
    if k > 0 {
      assert s[..k][0] == s[0] && s[..k][1..] == s[1..][..k - 1];
      if |EncodeOne(s[0])| <= n {
        FittingIsLongest(s[1..], n - |EncodeOne(s[0])|, k - 1);
      }
    }
  }
}
