/** Bytes on the serial line, their reading as ASCII text, and the
    substring test that Python's `in` performs on text. */
module Ascii {
  import opened Wrappers

  /** One octet as written to or read from the serial port. */
  newtype byte = x: int | 0 <= x < 256

  predicate IsAsciiText(s: string)
  {
    forall i :: 0 <= i < |s| ==> (s[i] as int) < 128
  }

  predicate IsAsciiBytes(bs: seq<byte>)
  {
    forall i :: 0 <= i < |bs| ==> bs[i] < 128
  }

  /** The bytes of an ASCII string, one per character. */
  function Encode(s: string): (bs: seq<byte>)
    requires IsAsciiText(s)
    ensures |bs| == |s|
    ensures forall i :: 0 <= i < |s| ==> bs[i] as int == s[i] as int
  {
    seq(|s|, i requires 0 <= i < |s| => (s[i] as int) as byte)
  }

  /** The characters whose code points are the given bytes. */
  function Chars(bs: seq<byte>): (s: string)
    ensures |s| == |bs|
    ensures forall i :: 0 <= i < |bs| ==> s[i] as int == bs[i] as int
  {
    seq(|bs|, i requires 0 <= i < |bs| => (bs[i] as int) as char)
  }

  /** Why `str(line, encoding='ASCII')` raises: a byte of 0x80 or above. */
  datatype DecodeFailure = NonAsciiByte

  /** `str(bs, encoding='ASCII')`: the text, or a decode error. */
  function DecodeAscii(bs: seq<byte>): (r: Result<string, DecodeFailure>)
    ensures r.Ok? <==> IsAsciiBytes(bs)
    ensures r.Ok? ==> IsAsciiText(r.value) && Encode(r.value) == bs
  {
    if IsAsciiBytes(bs) then Ok(Chars(bs)) else Err(NonAsciiByte)
  }

  /** Decoding inverts encoding. */
  lemma DecodeEncode(s: string)
    requires IsAsciiText(s)
    ensures DecodeAscii(Encode(s)) == Ok(s)
  {
    assert Chars(Encode(s)) == s;
  }

  /** Encoded ASCII text is ASCII bytes, and reads back as the text. */
  lemma CharsOfEncode(s: string)
    requires IsAsciiText(s)
    ensures IsAsciiBytes(Encode(s)) && Chars(Encode(s)) == s
  {
    assert Chars(Encode(s)) == s;
  }

  /** `pattern` occurs in `text` starting at index `i`. */
  ghost predicate OccursAt<T>(text: seq<T>, pattern: seq<T>, i: int)
  {
    0 <= i <= |text| - |pattern| && text[i..i + |pattern|] == pattern
  }

  /** Python's `pattern in text`: true when some occurrence exists
      (always, for an empty pattern). */
  function Contains<T(==)>(text: seq<T>, pattern: seq<T>): (r: bool)
    ensures r <==> exists i :: OccursAt(text, pattern, i)
    decreases |text|
  {
    if |pattern| > |text| then false
    else if text[..|pattern|] == pattern then
      assert OccursAt(text, pattern, 0);
      true
    else
      ShiftOccurrence(text, pattern);
      Contains(text[1..], pattern)
  }

  /** When `pattern` is not at the front of `text`, its occurrences are
      those in `text[1..]`. */
  lemma ShiftOccurrence<T>(text: seq<T>, pattern: seq<T>)
    requires |pattern| <= |text| && text[..|pattern|] != pattern
    ensures (exists i :: OccursAt(text, pattern, i)) <==> (exists j :: OccursAt(text[1..], pattern, j))
  {
    if i :| OccursAt(text, pattern, i) {
      assert i != 0;
      assert text[1..][i - 1..i - 1 + |pattern|] == text[i..i + |pattern|];
      assert OccursAt(text[1..], pattern, i - 1);
    }
    if j :| OccursAt(text[1..], pattern, j) {
      assert text[j + 1..j + 1 + |pattern|] == text[1..][j..j + |pattern|];
      assert OccursAt(text, pattern, j + 1);
    }
  }

  /** Every sequence contains each of its prefixes. */
  lemma ContainsPrefix<T>(prefix: seq<T>, rest: seq<T>)
    ensures Contains(prefix + rest, prefix)
  {
    assert (prefix + rest)[0..|prefix|] == prefix;
    assert OccursAt(prefix + rest, prefix, 0);
  }

  /** A pattern placed between any text before and after it is found. */
  lemma ContainsInfix<T>(before: seq<T>, pattern: seq<T>, after: seq<T>)
    ensures Contains(before + pattern + after, pattern)
  {
    var text := before + pattern + after;
    assert text[|before|..|before| + |pattern|] == pattern;
    assert OccursAt(text, pattern, |before|);
  }

  /** Reading bytes as text commutes with concatenation. */
  lemma CharsAppend(a: seq<byte>, b: seq<byte>)
    ensures Chars(a + b) == Chars(a) + Chars(b)
  {
    assert forall i :: 0 <= i < |a + b| ==> Chars(a + b)[i] == (Chars(a) + Chars(b))[i] by {
      forall i | 0 <= i < |a + b| ensures Chars(a + b)[i] == (Chars(a) + Chars(b))[i] {
        if i < |a| {
          assert (a + b)[i] == a[i];
        } else {
          assert (a + b)[i] == b[i - |a|];
        }
      }
    }
  }
}
