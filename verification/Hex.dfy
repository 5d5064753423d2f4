/** Base16 as Go's `encoding/hex` does it: lowercase out, either case in. */
module Hex {
  import opened Errors

  type byte = x: int | 0 <= x < 256
  type nibble = x: int | 0 <= x < 16

  function DigitOf(n: nibble): char {
    if n < 10 then '0' + n as char else 'a' + (n - 10) as char
  }

  function ValueOf(c: char): Option<nibble> {
    if '0' <= c <= '9' then Some((c - '0') as int)
    else if 'a' <= c <= 'f' then Some((c - 'a') as int + 10)
    else if 'A' <= c <= 'F' then Some((c - 'A') as int + 10)
    else None
  }

  function LowerDigit(c: char): char {
    if 'A' <= c <= 'F' then 'a' + (c - 'A') else c
  }

  function Lower(s: string): (r: string)
    ensures |r| == |s|
    ensures forall i :: 0 <= i < |s| ==> r[i] == LowerDigit(s[i])
  {
    seq(|s|, i requires 0 <= i < |s| => LowerDigit(s[i]))
  }

  /** `hex.EncodeToString` */
  function Encode(b: seq<byte>): (s: string)
    ensures |s| == 2 * |b|
  {
    if b == [] then "" else [DigitOf(b[0] / 16), DigitOf(b[0] % 16)] + Encode(b[1..])
  }

  /** `hex.DecodeString`; None stands for its error (odd length or a byte that is no hex digit). */
  function Decode(s: string): (r: Option<seq<byte>>)
    ensures r.Some? ==> |s| == 2 * |r.value|
  {
    if s == "" then Some([])
    else if |s| == 1 then None
    else match (ValueOf(s[0]), ValueOf(s[1]), Decode(s[2..]))
      case (Some(hi), Some(lo), Some(rest)) => Some([hi as int * 16 + lo as int] + rest)
      case _ => None
  }

  const DIGITS := "0123456789abcdef"

  predicate IsHexDigit(c: char) {
    '0' <= c <= '9' || 'a' <= c <= 'f' || 'A' <= c <= 'F'
  }

  lemma DigitSpelled(n: nibble)
    ensures DigitOf(n) == DIGITS[n]
  {
  }

  /** Byte i is spelled by digits 2i and 2i + 1, the high half first. */
  lemma {:induction false} EncodeSpells(b: seq<byte>, i: nat)
    requires i < |b|
    ensures Encode(b)[2 * i] == DIGITS[b[i] / 16] && Encode(b)[2 * i + 1] == DIGITS[b[i] % 16]
  {
    if i == 0 {
      DigitSpelled(b[0] / 16);
      DigitSpelled(b[0] % 16);
    } else {
      EncodeSpells(b[1..], i - 1);
      assert Encode(b)[2 * i] == Encode(b[1..])[2 * i - 2];
      assert Encode(b)[2 * i + 1] == Encode(b[1..])[2 * i - 1];
    }
  }

  lemma DigitRoundTrip(n: nibble)
    ensures ValueOf(DigitOf(n)) == Some(n)
  {
  }

  lemma {:induction false} EncodeDecode(b: seq<byte>)
    ensures Decode(Encode(b)) == Some(b)
  {
    if b != [] {
      DigitRoundTrip(b[0] / 16);
      DigitRoundTrip(b[0] % 16);
      assert Encode(b)[2..] == Encode(b[1..]);
      EncodeDecode(b[1..]);
      assert b == [b[0]] + b[1..];
    }
  }

  /** The other way round only the case of the digits can change. */
  lemma {:induction false} DecodeEncode(s: string)
    requires Decode(s).Some?
    ensures Encode(Decode(s).value) == Lower(s)
  {
    if s != "" {
      var b := Decode(s).value;
      var rest := Decode(s[2..]).value;
      assert b[1..] == rest;
      DecodeEncode(s[2..]);
      PairRoundTrip(s[0], s[1]);
      assert Lower(s) == [LowerDigit(s[0]), LowerDigit(s[1])] + Lower(s[2..]);
    }
  }

  lemma PairRoundTrip(hi: char, lo: char)
    requires ValueOf(hi).Some? && ValueOf(lo).Some?
    ensures var v := ValueOf(hi).value as int * 16 + ValueOf(lo).value as int;
            v / 16 == ValueOf(hi).value && v % 16 == ValueOf(lo).value
    ensures DigitOf(ValueOf(hi).value) == LowerDigit(hi)
    ensures DigitOf(ValueOf(lo).value) == LowerDigit(lo)
  {
  }

  lemma {:induction false} DecodesExactlyHex(s: string)
    ensures Decode(s).Some? <==> |s| % 2 == 0 && forall i :: 0 <= i < |s| ==> IsHexDigit(s[i])
  {
    if |s| >= 2 {
      DecodesExactlyHex(s[2..]);
      assert forall i :: 0 <= i < |s| - 2 ==> s[2..][i] == s[i + 2];
      assert forall i :: 2 <= i < |s| ==> s[i] == s[2..][i - 2];
    }
  }

  lemma {:induction false} EncodeOfConcat(a: seq<byte>, b: seq<byte>)
    ensures Encode(a + b) == Encode(a) + Encode(b)
  {
    if a == [] {
      assert a + b == b;
    } else {
      assert (a + b)[1..] == a[1..] + b;
      EncodeOfConcat(a[1..], b);
    }
  }
}

/** The 24-byte MQMD.CorrelId and the three places that fill it from a message's
    hex CorrelationID. */
module Correlation {
  import opened Errors
  import opened Hex

  const CORREL_LENGTH := 24

  type CorrelId = b: seq<byte> | |b| == CORREL_LENGTH witness Zeros(CORREL_LENGTH)

  function Zeros(n: nat): (z: seq<byte>)
    ensures |z| == n && forall i :: 0 <= i < n ==> z[i] == 0
  {
    seq(n, _ => 0)
  }

  const NONE: CorrelId := Zeros(CORREL_LENGTH)

  /** `copy` of at most 24 bytes into a zeroed 24-byte buffer. */
  function Pad(b: seq<byte>): CorrelId
    requires |b| <= CORREL_LENGTH
  {
    b + Zeros(CORREL_LENGTH - |b|)
  }

  /** Sender.put and the temporary-queue request: a bad ID is silently ignored. */
  function Apply(id: string): CorrelId {
    if id == "" then NONE
    else match Decode(id)
      case Some(d) => if |d| <= CORREL_LENGTH then Pad(d) else NONE
      case None => NONE
  }

  /** The fixed-queue request: the generated bytes stand when the creator blanks
      the ID, and a bad ID is refused. */
  function RoutingKey(generated: CorrelId, id: string): Option<CorrelId> {
    if id == "" then Some(generated)
    else match Decode(id)
      case Some(d) => if |d| <= CORREL_LENGTH then Some(Pad(d)) else None
      case None => None
  }

  predicate ValidId(id: string) {
    id != "" && |id| <= 2 * CORREL_LENGTH && Decode(id).Some?
  }

  function ZeroDigits(n: nat): (z: string)
    ensures |z| == n && forall i :: 0 <= i < n ==> z[i] == '0'
  {
    seq(n, _ => '0')
  }

  /** The canonical spelling of an ID: lowercase, filled up with '0' to 48 digits. */
  function Canonical(id: string): string
    requires |id| <= 2 * CORREL_LENGTH
  {
    Lower(id) + ZeroDigits(2 * CORREL_LENGTH - |id|)
  }

  lemma {:induction false} EncodeZeros(n: nat)
    ensures Encode(Zeros(n)) == ZeroDigits(2 * n)
  {
    if n > 0 {
      assert Zeros(n)[1..] == Zeros(n - 1);
      EncodeZeros(n - 1);
    }
  }

  /** Encoding a padded ID spells it canonically. */
  lemma PaddedIdIsCanonical(id: string)
    requires ValidId(id)
    ensures Encode(Pad(Decode(id).value)) == Canonical(id)
  {
    var d := Decode(id).value;
    EncodeOfConcat(d, Zeros(CORREL_LENGTH - |d|));
    DecodeEncode(id);
    EncodeZeros(CORREL_LENGTH - |d|);
  }

  /** All three decoders agree on every valid ID, whatever was generated. */
  lemma DecodersAgree(id: string, generated: CorrelId)
    requires ValidId(id)
    ensures RoutingKey(generated, id) == Some(Apply(id))
    ensures Encode(Apply(id)) == Canonical(id)
  {
    PaddedIdIsCanonical(id);
  }

  /** They part ways exactly outside the valid IDs: the fixed-queue request keeps the
      generated bytes when there is no ID, and refuses a malformed or oversized one; the
      others put no bytes in either case. */
  lemma DecodersDiffer(id: string, generated: CorrelId)
    ensures id == "" ==> RoutingKey(generated, id) == Some(generated) && Apply(id) == NONE
    ensures RoutingKey(generated, id).None? <==> id != "" && !ValidId(id)
    ensures id != "" && !ValidId(id) ==> Apply(id) == NONE
  {
    if Decode(id).Some? {
      assert |id| == 2 * |Decode(id).value|;
    }
  }

  /** Two valid IDs share their 24 bytes exactly when their canonical spellings are equal. */
  lemma CollideIff(x: string, y: string)
    requires ValidId(x) && ValidId(y)
    ensures Apply(x) == Apply(y) <==> Canonical(x) == Canonical(y)
  {
    PaddedIdIsCanonical(x);
    PaddedIdIsCanonical(y);
    EncodeDecode(Apply(x));
    EncodeDecode(Apply(y));
  }

  /** A listener hex-encodes a received CorrelId, and a sender or a fixed-queue
      caller that copies the string writes the same 24 bytes. */
  lemma CorrelIdSurvivesRelay(b: CorrelId, generated: CorrelId)
    ensures ValidId(Encode(b))
    ensures Apply(Encode(b)) == b
    ensures RoutingKey(generated, Encode(b)) == Some(b)
  {
    EncodeDecode(b);
    assert Pad(b) == b;
  }
}
