/**
 * The attachment size `transformSummary` derives from the length of the
 * base64 text `window.btoa` makes of the PDF. `Encode` is the base64
 * encoding of RFC 4648 (section 4, with `=` padding), against which both
 * the size as the code computes it and the size it evidently intends are
 * measured.
 */
module Base64 {

  type Byte = x: int | 0 <= x < 256

  /** `n` consecutive characters from `first` on. */
  function Run(first: char, n: nat): (r: string)
    requires first as int + n <= 0xD800
    ensures |r| == n && forall i | 0 <= i < n :: r[i] as int == first as int + i
  {
    seq(n, i requires 0 <= i < n => (first as int + i) as char)
  }

  /** The base64 alphabet: A-Z, a-z, 0-9, `+` and `/`. */
  const Alphabet: string := Run('A', 26) + Run('a', 26) + Run('0', 10) + "+/"

  lemma AlphabetHasNoPad()
    ensures |Alphabet| == 64 && forall i | 0 <= i < 64 :: Alphabet[i] != '='
  {
    var upper, lower, digits := Run('A', 26), Run('a', 26), Run('0', 10);
    assert forall i | 0 <= i < 26 :: Alphabet[i] == upper[i];
    assert forall i | 26 <= i < 52 :: Alphabet[i] == lower[i - 26];
    assert forall i | 52 <= i < 62 :: Alphabet[i] == digits[i - 52];
  }

  /** The character of a 6-bit value; never the pad character. */
  function Base64Char(v: int): (c: char)
    requires 0 <= v < 64
    ensures c != '='
  {
    AlphabetHasNoPad();
    Alphabet[v]
  }

  /**
   * One quantum: three bytes as four characters, or the one or two bytes
   * left at the end as two or three characters padded with `=`.
   */
  function Quantum(b: seq<Byte>): (q: string)
    requires 1 <= |b| <= 3
    ensures |q| == 4 && q[0] != '=' && q[1] != '='
    ensures q[2] == '=' <==> |b| == 1
    ensures q[3] == '=' <==> |b| < 3
  {
    if |b| == 1 then
      [Base64Char(b[0] / 4), Base64Char(b[0] % 4 * 16), '=', '=']
    else if |b| == 2 then
      [Base64Char(b[0] / 4), Base64Char(b[0] % 4 * 16 + b[1] / 16), Base64Char(b[1] % 16 * 4), '=']
    else
      [Base64Char(b[0] / 4), Base64Char(b[0] % 4 * 16 + b[1] / 16), Base64Char(b[1] % 16 * 4 + b[2] / 64), Base64Char(b[2] % 64)]
  }

  /** `window.btoa` of the bytes: their quanta in order. */
  function Encode(b: seq<Byte>): string
    decreases |b|
  {
    if |b| == 0 then ""
    else if |b| <= 3 then Quantum(b)
    else Quantum(b[..3]) + Encode(b[3..])
  }

  /** Taking one quantum of three bytes off keeps the remainder and the count of quanta less one. */
  lemma DropQuantum(n: nat)
    requires n > 3
    ensures (n - 3) % 3 == n % 3 && (n + 2) / 3 == 1 + (n - 1) / 3
  {
  }

  /** Four characters for every three bytes begun. */
  lemma {:induction false} EncodeLength(b: seq<Byte>)
    ensures |Encode(b)| == 4 * ((|b| + 2) / 3)
  {
    if |b| > 3 {
      var n, rest := |b|, b[3..];
      EncodeLength(rest);
      assert |Encode(b)| == 4 + |Encode(rest)|;
      DropQuantum(n);
      assert (|rest| + 2) / 3 == (n - 1) / 3;
    } else if |b| > 0 {
      assert |Encode(b)| == |Quantum(b)| == 4;
    }
  }

  /**
   * The padding of an encoding: its last character is `=` exactly when the
   * byte count is not a multiple of three, and its last but one exactly
   * when one byte is left over.
   */
  lemma {:induction false} EncodeTail(b: seq<Byte>)
    requires |b| > 0
    ensures var e := Encode(b);
      && |e| >= 4
      && (e[|e| - 1] == '=' <==> |b| % 3 != 0)
      && (e[|e| - 2] == '=' <==> |b| % 3 == 1)
  {
    if |b| > 3 {
      EncodeTail(b[3..]);
      EndsOfConcat(Quantum(b[..3]), Encode(b[3..]));
      DropQuantum(|b|);
    } else {
      QuantumTail(b);
    }
  }

  /** The last two characters of a text ending in at least two characters are those of its end. */
  lemma EndsOfConcat(q: string, rest: string)
    requires |rest| >= 2
    ensures var e := q + rest;
      e[|e| - 1] == rest[|rest| - 1] && e[|e| - 2] == rest[|rest| - 2]
  {
  }

  /** The padding of the last quantum, by the number of bytes left. */
  lemma QuantumTail(b: seq<Byte>)
    requires 1 <= |b| <= 3
    ensures var e := Encode(b);
      && |e| == 4
      && (e[3] == '=' <==> |b| % 3 != 0)
      && (e[2] == '=' <==> |b| % 3 == 1)
  {
    assert Encode(b) == Quantum(b);
    assert |b| % 3 == if |b| == 3 then 0 else |b|;
  }

  /** The number of `=` at the end of a base64 text (at most two). */
  function Padding(s: string): (n: nat)
    ensures n <= 2
  {
    if |s| >= 1 && s[|s| - 1] == '=' then
      if |s| >= 2 && s[|s| - 2] == '=' then 2 else 1
    else 0
  }

  /**
   * The size the attachment evidently means: three bytes per four
   * characters, less one byte per pad character.
   */
  function DecodedSize(s: string): int {
    |s| / 4 * 3 - Padding(s)
  }

  /**
   * `base64file.length * (3 / 4) - y` with `y` 2 when the last but one
   * character is `=` and 1 otherwise: it takes one pad character for
   * granted when there is none.
   */
  function AsWrittenSize(s: string): real {
    |s| as real * (3.0 / 4.0) - (if |s| >= 2 && s[|s| - 2] == '=' then 2.0 else 1.0)
  }

  /** The decoded size of the encoding of some bytes is their number. */
  lemma DecodedSizeOfEncoding(b: seq<Byte>)
    ensures DecodedSize(Encode(b)) == |b|
  {
    EncodeLength(b);
    if |b| > 0 {
      EncodeTail(b);
    }
    SizesOfShape(Encode(b), |b|);
  }

  /**
   * The size as written is right for padded encodings and one byte short
   * when the byte count is a multiple of three, the empty file included.
   */
  lemma AsWrittenSizeOfEncoding(b: seq<Byte>)
    ensures AsWrittenSize(Encode(b)) == (if |b| % 3 == 0 then |b| - 1 else |b|) as real
  {
    EncodeLength(b);
    if |b| > 0 {
      EncodeTail(b);
    }
    SizesOfShape(Encode(b), |b|);
  }

  /** Both sizes of a text with the length and padding of the encoding of `n` bytes. */
  lemma SizesOfShape(e: string, n: nat)
    requires |e| == 4 * ((n + 2) / 3)
    requires n > 0 ==> |e| >= 4 && (e[|e| - 1] == '=' <==> n % 3 != 0) && (e[|e| - 2] == '=' <==> n % 3 == 1)
    ensures DecodedSize(e) == n
    ensures AsWrittenSize(e) == (if n % 3 == 0 then n - 1 else n) as real
  {
    var k := (n + 2) / 3;
    assert |e| / 4 == k;
    assert |e| as real * (3.0 / 4.0) == (3 * k) as real;
    if n % 3 == 0 {
      assert 3 * k == n;
    } else if n % 3 == 1 {
      assert 3 * k == n + 2;
    } else {
      assert 3 * k == n + 1;
    }
  }

  /** Three zero bytes encode as "AAAA", which the code sizes at two bytes. */
  lemma AsWrittenSizeOfThreeBytes()
    ensures Encode([0, 0, 0]) == "AAAA"
    ensures AsWrittenSize("AAAA") == 2.0
    ensures DecodedSize("AAAA") == 3
  {
  }
}
