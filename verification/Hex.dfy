/** The hex text a detached signature is stored as, and how it is read back. */
module Hex {
  import opened Basics

  function Digit(d: nat): byte
    requires d < 16
  {
    if d < 10 then (48 + d) as byte else (87 + d) as byte
  }

  function Value(c: byte): Option<nat> {
    if 48 <= c <= 57 then Some(c as int - 48)
    else if 97 <= c <= 102 then Some(c as int - 87)
    else if 65 <= c <= 70 then Some(c as int - 55)
    else None
  }

  function Encode(raw: Bytes): Bytes {
    if raw == [] then [] else [Digit(raw[0] as int / 16), Digit(raw[0] as int % 16)] + Encode(raw[1..])
  }

  function Decode(text: Bytes): Option<Bytes> {
    if text == [] then Some([])
    else if |text| == 1 then None
    else
      match (Value(text[0]), Value(text[1]), Decode(text[2..]))
      case (Some(hi), Some(lo), Some(rest)) =>
        if hi < 16 && lo < 16 then Some([(16 * hi + lo) as byte] + rest) else None
      case _ => None
  }

  predicate IsSpace(c: byte) {
    9 <= c <= 13 || c == 32
  }

  function TrimStart(text: Bytes): Bytes {
    if text != [] && IsSpace(text[0]) then TrimStart(text[1..]) else text
  }

  function TrimEnd(text: Bytes): Bytes {
    if text != [] && IsSpace(Last(text)) then TrimEnd(text[..|text| - 1]) else text
  }

  function Trim(text: Bytes): Bytes {
    TrimEnd(TrimStart(text))
  }

  lemma DigitHasValue(d: nat)
    requires d < 16
    ensures Value(Digit(d)) == Some(d)
  {
  }

  lemma {:induction false} DecodeEncode(raw: Bytes)
    ensures Decode(Encode(raw)) == Some(raw)
  {
    if raw != [] {
      DecodeEncode(raw[1..]);
      var n := raw[0] as int;
      DigitHasValue(n / 16);
      DigitHasValue(n % 16);
      assert Encode(raw)[2..] == Encode(raw[1..]);
      assert (16 * (n / 16) + n % 16) as byte == raw[0];
      assert [raw[0]] + raw[1..] == raw;
    }
  }

  const LOWER := "0123456789abcdef"
  const UPPER := "0123456789ABCDEF"

  /** The character of a hex digit, in either case. */
  predicate IsDigitOf(c: byte, d: nat)
    requires d < 16
  {
    c as char == LOWER[d] || c as char == UPPER[d]
  }

  lemma ValueMeans(c: byte, d: nat)
    requires d < 16
    ensures Value(c) == Some(d) <==> IsDigitOf(c, d)
    ensures Value(c).Some? ==> Value(c).value < 16
    ensures Digit(d) as char == LOWER[d]
  {
  }

  /** A text spells some bytes: two digits of either case for each, the high one first. */
  ghost predicate Spells(text: Bytes, raw: Bytes) {
    && |text| == 2 * |raw|
    && forall i :: 0 <= i < |raw| ==>
         IsDigitOf(text[2 * i], raw[i] as nat / 16) && IsDigitOf(text[2 * i + 1], raw[i] as nat % 16)
  }

  lemma SpellsHeadAndTail(text: Bytes, raw: Bytes)
    requires 2 <= |text| && raw != []
    ensures Spells(text, raw) <==>
              && IsDigitOf(text[0], raw[0] as nat / 16) && IsDigitOf(text[1], raw[0] as nat % 16)
              && Spells(text[2..], raw[1..])
  {
    var t, r := text[2..], raw[1..];
    assert forall i :: 0 <= i < |r| && |t| == 2 * |r| ==>
        r[i] == raw[i + 1] && t[2 * i] == text[2 * (i + 1)] && t[2 * i + 1] == text[2 * (i + 1) + 1];
    if IsDigitOf(text[0], raw[0] as nat / 16) && IsDigitOf(text[1], raw[0] as nat % 16) && Spells(t, r) {
      forall i | 0 <= i < |raw|
        ensures IsDigitOf(text[2 * i], raw[i] as nat / 16) && IsDigitOf(text[2 * i + 1], raw[i] as nat % 16)
      {
        if i > 0 {
          assert r[i - 1] == raw[i];
        }
      }
    }
  }

  lemma TwoDigits(hi: nat, lo: nat, n: nat)
    requires hi < 16 && lo < 16
    ensures 16 * hi + lo == n <==> hi == n / 16 && lo == n % 16
  {
  }

  /** A text that spells bytes has no other characters than hex digits. */
  lemma SpelledInDigits(text: Bytes, raw: Bytes, i: nat)
    requires Spells(text, raw) && i < |text|
    ensures text[i] as char in "0123456789abcdefABCDEF"
  {
    var digits := "0123456789abcdefABCDEF";
    var b := raw[i / 2];
    assert IsDigitOf(text[2 * (i / 2)], b as nat / 16) && IsDigitOf(text[2 * (i / 2) + 1], b as nat % 16);
    var d := if i % 2 == 0 then b as nat / 16 else b as nat % 16;
    assert IsDigitOf(text[i], d);
    assert LOWER[d] == digits[d] && UPPER[d] == if d < 10 then digits[d] else digits[d + 6];
  }

  lemma PairMeans(hi: byte, lo: byte, b: byte)
    ensures (Value(hi).Some? && Value(lo).Some? && 16 * Value(hi).value + Value(lo).value == b as int)
            <==> IsDigitOf(hi, b as nat / 16) && IsDigitOf(lo, b as nat % 16)
  {
    var h, l := Value(hi), Value(lo);
    ValueMeans(hi, b as nat / 16);
    ValueMeans(lo, b as nat % 16);
    if h.Some? && l.Some? {
      TwoDigits(h.value, l.value, b as nat);
    }
  }

  /** A text decodes exactly if it spells bytes, and then to those. */
  lemma {:induction false} DecodeMeans(text: Bytes, raw: Bytes)
    ensures Decode(text) == Some(raw) <==> Spells(text, raw)
  {
    if 2 <= |text| && raw != [] {
      DecodeMeans(text[2..], raw[1..]);
      SpellsHeadAndTail(text, raw);
      PairMeans(text[0], text[1], raw[0]);
      ValueMeans(text[0], 0);
      ValueMeans(text[1], 0);
      assert raw == [raw[0]] + raw[1..];
    }
  }

  /** Encoding spells in lower case. */
  lemma {:induction false} EncodeMeans(raw: Bytes, i: nat)
    requires i < |raw|
    ensures |Encode(raw)| == 2 * |raw|
    ensures Encode(raw)[2 * i] as char == LOWER[raw[i] as nat / 16]
    ensures Encode(raw)[2 * i + 1] as char == LOWER[raw[i] as nat % 16]
  {
    ValueMeans(0, raw[0] as nat / 16);
    ValueMeans(0, raw[0] as nat % 16);
    if i > 0 {
      EncodeMeans(raw[1..], i - 1);
      assert Encode(raw)[2..] == Encode(raw[1..]);
    } else if |raw| > 1 {
      EncodeMeans(raw[1..], 0);
    }
  }

  /** White space around a text goes, and nothing else. */
  lemma {:induction false} TrimMeans(before: Bytes, core: Bytes, after: Bytes)
    requires forall c :: c in before || c in after ==> c in {9, 10, 11, 12, 13, 32}
    requires core != [] ==> core[0] !in {9, 10, 11, 12, 13, 32} && Last(core) !in {9, 10, 11, 12, 13, 32}
    ensures Trim(before + core + after) == core
  {
    var text := before + core + after;
    if before != [] {
      assert text[0] == before[0] && before[0] in before;
      assert forall c :: c in before[1..] ==> c in before;
      TrimMeans(before[1..], core, after);
      assert text[1..] == before[1..] + core + after;
    } else if core != [] {
      assert text[0] == core[0];
      TrimEndMeans(core, after);
      assert text == core + after;
    } else if after != [] {
      assert text[0] == after[0] && after[0] in after;
      assert forall c :: c in after[1..] ==> c in after;
      TrimMeans([], [], after[1..]);
      assert text[1..] == [] + [] + after[1..];
    }
  }

  lemma {:induction false} TrimEndMeans(core: Bytes, after: Bytes)
    requires core != [] && Last(core) !in {9, 10, 11, 12, 13, 32}
    requires forall c :: c in after ==> c in {9, 10, 11, 12, 13, 32}
    ensures TrimEnd(core + after) == core
  {
    var text := core + after;
    if after == [] {
      assert text == core;
    } else {
      assert Last(text) == Last(after) && Last(after) in after;
      var rest := after[..|after| - 1];
      forall c | c in rest ensures c in {9, 10, 11, 12, 13, 32} {
        assert c in after;
      }
      TrimEndMeans(core, rest);
      assert text[..|text| - 1] == core + rest;
    }
  }

  lemma {:induction false} EncodedHasNoSpace(raw: Bytes)
    ensures forall i :: 0 <= i < |Encode(raw)| ==> !IsSpace(Encode(raw)[i])
  {
    if raw != [] {
      EncodedHasNoSpace(raw[1..]);
    }
  }

  /** What `restore` decodes is the signature that was stored. */
  lemma StoredSignatureReadsBack(raw: Bytes)
    ensures Decode(Trim(Encode(raw))) == Some(raw)
  {
    EncodedHasNoSpace(raw);
    DecodeEncode(raw);
  }
}
