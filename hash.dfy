/**
 * Transaction tokens: the MD5 digest of a buffer rendered as 32 lower-case
 * hexadecimal characters. The digest itself is computed by a foreign
 * library; here it is a parameter `digestOf` (an uninterpreted function
 * from the buffer to the four 32-bit digest words).
 */
module Hash {
  import Decimal

  type Word32 = x: int | 0 <= x < 0x1_0000_0000

  /** The four 32-bit words of an MD5 digest, in the library's order. */
  type Digest = d: seq<Word32> | |d| == 4 witness [0, 0, 0, 0]

  /** The lookup table `map` of md5(buf). */
  const HexDigits: string := "0123456789abcdef"

  function Pow16(n: nat): (p: nat)
    ensures p >= 1
  {
    if n == 0 then 1 else 16 * Pow16(n - 1)
  }

  /** Nibble k of a word, counting from the most significant one: (w >> (28 - 4k)) & 0xf. */
  function Nibble(w: Word32, k: nat): (n: nat)
    requires k < 8
    ensures n < 16
  {
    (w / Pow16(7 - k)) % 16
  }

  /** Character j of the rendering: nibble j % 8 of word j / 8. */
  function HexAt(d: Digest, j: nat): char
    requires j < 32
  {
    HexDigits[Nibble(d[j / 8], j % 8)]
  }

  /** The whole 32-character rendering of a digest. */
  function HexDigest(d: Digest): string
  {
    seq(32, j requires 0 <= j < 32 => HexAt(d, j))
  }

  /**
   * md5(buf): the digest of buf, formatted word by word (words 0..3) and
   * within a word from the most significant nibble down.
   */
  method Md5(buf: string, digestOf: string -> Digest) returns (res: string)
    ensures |res| == 32
    ensures forall j :: 0 <= j < 32 ==> res[j] in HexDigits
    ensures res == HexDigest(digestOf(buf))
  {
    var digest := digestOf(buf);
    res := [];
    for i := 0 to 4
      invariant |res| == 8 * i
      invariant forall j :: 0 <= j < 8 * i ==> res[j] == HexAt(digest, j)
    {
      var w := digest[i];
      ghost var done := res;
      // w >> s is w / 2^s on an unsigned word, and & 0x0f is % 16
      res := res + [HexDigits[(w / 0x1000_0000) % 16]];
      res := res + [HexDigits[(w / 0x100_0000) % 16]];
      res := res + [HexDigits[(w / 0x10_0000) % 16]];
      res := res + [HexDigits[(w / 0x1_0000) % 16]];
      res := res + [HexDigits[(w / 0x1000) % 16]];
      res := res + [HexDigits[(w / 0x100) % 16]];
      res := res + [HexDigits[(w / 0x10) % 16]];
      res := res + [HexDigits[w % 16]];
      GroupChars(digest, i, res[8 * i..]);
      assert forall j :: 0 <= j < 8 * i ==> res[j] == done[j];
    }
  }

  /** The eight characters pushed for word i are characters 8i..8i+7 of the rendering. */
  lemma GroupChars(d: Digest, i: nat, g: string)
    requires i < 4 && |g| == 8
    requires g[0] == HexDigits[(d[i] / 0x1000_0000) % 16] && g[1] == HexDigits[(d[i] / 0x100_0000) % 16]
    requires g[2] == HexDigits[(d[i] / 0x10_0000) % 16] && g[3] == HexDigits[(d[i] / 0x1_0000) % 16]
    requires g[4] == HexDigits[(d[i] / 0x1000) % 16] && g[5] == HexDigits[(d[i] / 0x100) % 16]
    requires g[6] == HexDigits[(d[i] / 0x10) % 16] && g[7] == HexDigits[d[i] % 16]
    ensures forall k :: 0 <= k < 8 ==> g[k] == HexAt(d, 8 * i + k)
  {
    Pow16Values();
    forall k | 0 <= k < 8
      ensures g[k] == HexAt(d, 8 * i + k)
    {
      GroupIndex(i, k);
    }
  }

  /** md5(): the digest of gen_uid(), the decimal rendering of one std::rand() value. */
  method Md5OfUid(r: nat, digestOf: string -> Digest) returns (res: string)
    ensures |res| == 32 && forall j :: 0 <= j < 32 ==> res[j] in HexDigits
    ensures res == HexDigest(digestOf(Decimal.ToString(r)))
  {
    var uid := Decimal.ToString(r);
    res := Md5(uid, digestOf);
  }

  lemma Pow16Values()
    ensures Pow16(0) == 1 && Pow16(1) == 0x10 && Pow16(2) == 0x100 && Pow16(3) == 0x1000
    ensures Pow16(4) == 0x1_0000 && Pow16(5) == 0x10_0000 && Pow16(6) == 0x100_0000
    ensures Pow16(7) == 0x1000_0000 && Pow16(8) == 0x1_0000_0000
  {
  }

  lemma GroupIndex(i: nat, k: nat)
    requires k < 8
    ensures (8 * i + k) / 8 == i && (8 * i + k) % 8 == k
  {
  }

  // ----- reading a rendering back -----

  predicate IsHexChar(c: char) { '0' <= c <= '9' || 'a' <= c <= 'f' }

  function HexValue(c: char): (v: nat)
    requires IsHexChar(c)
    ensures v < 16
  {
    if c <= '9' then c as int - '0' as int else c as int - 'a' as int + 10
  }

  /** The number a string of hexadecimal characters denotes, most significant first. */
  function WordOf(s: string): nat
    requires forall i :: 0 <= i < |s| ==> IsHexChar(s[i])
  {
    if s == [] then 0 else WordOf(s[..|s| - 1]) * 16 + HexValue(s[|s| - 1])
  }

  /** Splits a 32-character rendering into four groups of 8 and reads each as a word. */
  function DecodeDigest(s: string): seq<nat>
    requires |s| == 32 && forall i :: 0 <= i < 32 ==> IsHexChar(s[i])
  {
    seq(4, i requires 0 <= i < 4 => WordOf(s[8 * i..8 * i + 8]))
  }

  lemma HexDigitsTable(x: nat)
    requires x < 16
    ensures IsHexChar(HexDigits[x]) && HexValue(HexDigits[x]) == x
  {
  }

  /** Reading each group of the rendering as big-endian hex gives back the digest. */
  lemma DecodeHexDigest(d: Digest)
    ensures forall i :: 0 <= i < 32 ==> IsHexChar(HexDigest(d)[i])
    ensures DecodeDigest(HexDigest(d)) == d
  {
    var s := HexDigest(d);
    forall j | 0 <= j < 32
      ensures IsHexChar(s[j])
    {
      HexDigitsTable(Nibble(d[j / 8], j % 8));
    }
    forall i | 0 <= i < 4
      ensures WordOf(s[8 * i..8 * i + 8]) == d[i]
    {
      var g := s[8 * i..8 * i + 8];
      forall k | 0 <= k < 8
        ensures g[k] == HexDigits[Nibble(d[i], k)]
      {
        GroupIndex(i, k);
      }
      GroupValue(d[i], g);
    }
  }

  /** Distinct digests give distinct renderings. */
  lemma HexDigestInjective(d1: Digest, d2: Digest)
    ensures HexDigest(d1) == HexDigest(d2) ==> d1 == d2
  {
    DecodeHexDigest(d1);
    DecodeHexDigest(d2);
  }

  /** A group rendering a word with nibbles most significant first reads back as the word. */
  lemma GroupValue(w: Word32, g: string)
    requires |g| == 8
    requires forall k :: 0 <= k < 8 ==> g[k] == HexDigits[Nibble(w, k)]
    ensures forall k :: 0 <= k < 8 ==> IsHexChar(g[k])
    ensures WordOf(g) == w
  {
    forall k | 0 <= k < 8
      ensures IsHexChar(g[k]) && HexValue(g[k]) == Nibble(w, k)
    {
      HexDigitsTable(Nibble(w, k));
    }
    Pow16Values();
    var n := 0;
    while n < 8
      invariant 0 <= n <= 8
      invariant WordOf(g[..n]) == w / Pow16(8 - n)
    {
      var x := w / Pow16(7 - n);
      DivStep(w, n);
      assert g[..n + 1][..n] == g[..n];
      assert WordOf(g[..n + 1]) == (x / 16) * 16 + x % 16;
      n := n + 1;
    }
    assert WordOf(g[..8]) == w / 1;
    assert g[..8] == g;
  }

  /** Dropping one more nibble: (w >> 4(7 - n)) >> 4 == w >> 4(8 - n). */
  lemma DivStep(w: nat, n: nat)
    requires n < 8
    ensures (w / Pow16(7 - n)) / 16 == w / Pow16(8 - n)
  {
    Pow16Values();
    DivChain(w);
    if n == 0 {
    } else if n == 1 {
    } else if n == 2 {
    } else if n == 3 {
    } else if n == 4 {
    } else if n == 5 {
    } else if n == 6 {
    }
  }

  lemma DivChain(w: nat)
    ensures w / 0x1000_0000 / 16 == w / 0x1_0000_0000
    ensures w / 0x100_0000 / 16 == w / 0x1000_0000
    ensures w / 0x10_0000 / 16 == w / 0x100_0000
    ensures w / 0x1_0000 / 16 == w / 0x10_0000
    ensures w / 0x1000 / 16 == w / 0x1_0000
    ensures w / 0x100 / 16 == w / 0x1000
    ensures w / 0x10 / 16 == w / 0x100
    ensures w / 1 / 16 == w / 0x10
  {
  }
}
