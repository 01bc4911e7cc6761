/** Cache-key derivation: `"l~"` followed by the lowercase hexadecimal
    rendering of the URL's MD5 digest. */
module Keys {
  import opened Wrappers

  newtype byte = x: int | 0 <= x < 256

  /** A 128-bit digest, as MD5 produces. */
  type Digest = d: seq<byte> | |d| == 16 witness seq(16, _ => 0)

  /** The hash function used for keys. MD5 itself is not modelled: the resolver
      is given some deterministic function from strings to 16-byte digests. */
  type Hasher = string -> Digest

  /** The namespace marker in front of every key this cache writes. */
  const NAMESPACE: string := "l~"

  predicate IsHexDigit(c: char) {
    '0' <= c <= '9' || 'a' <= c <= 'f'
  }

  /** The lowercase hexadecimal digit of a value below 16. */
  function HexDigit(n: int): (c: char)
    requires 0 <= n < 16
    ensures IsHexDigit(c)
  {
    if n < 10 then (48 + n) as char else (87 + n) as char
  }

  /** The value of a lowercase hexadecimal digit; None for any other character. */
  function DigitValue(c: char): (r: Option<int>)
    ensures r.Some? <==> IsHexDigit(c)
    ensures r.Some? ==> 0 <= r.value < 16 && HexDigit(r.value) == c
  {
    if '0' <= c <= '9' then Some(c as int - 48)
    else if 'a' <= c <= 'f' then Some(c as int - 87)
    else None
  }

  lemma DigitValueOfHexDigit(n: int)
    requires 0 <= n < 16
    ensures DigitValue(HexDigit(n)) == Some(n)
  {
  }

  /** Node's `digest("hex")`: two lowercase digits per byte, high nibble first. */
  function Hex(bytes: seq<byte>): (s: string)
    ensures |s| == 2 * |bytes|
    ensures forall i :: 0 <= i < |s| ==> IsHexDigit(s[i])
  {
    if bytes == [] then ""
    else [HexDigit(bytes[0] as int / 16), HexDigit(bytes[0] as int % 16)] + Hex(bytes[1..])
  }

  /** Reads a hexadecimal rendering back; None when the text is not one. */
  function Unhex(s: string): (r: Option<seq<byte>>)
    ensures r.Some? ==> 2 * |r.value| == |s|
    decreases |s|
  {
    if s == [] then Some([])
    else if |s| == 1 then None
    else
      match (DigitValue(s[0]), DigitValue(s[1]), Unhex(s[2..]))
      case (Some(hi), Some(lo), Some(rest)) => Some([(16 * hi + lo) as byte] + rest)
      case _ => None
  }

  /** Rendering then reading gives the bytes back. */
  lemma {:induction false} UnhexHex(bytes: seq<byte>)
    ensures Unhex(Hex(bytes)) == Some(bytes)
  {
    if bytes != [] {
      var b := bytes[0] as int;
      var s := Hex(bytes);
      assert s[0] == HexDigit(b / 16) && s[1] == HexDigit(b % 16);
      assert s[2..] == Hex(bytes[1..]);
      UnhexHex(bytes[1..]);
      DigitValueOfHexDigit(b / 16);
      DigitValueOfHexDigit(b % 16);
      assert (16 * (b / 16) + b % 16) as byte == bytes[0];
      assert [bytes[0]] + bytes[1..] == bytes;
    }
  }

  /** Reading then rendering gives the text back: Hex and Unhex are inverse. */
  lemma {:induction false} HexUnhex(s: string, bytes: seq<byte>)
    requires Unhex(s) == Some(bytes)
    ensures Hex(bytes) == s
    decreases |s|
  {
    if s != [] {
      var hi := DigitValue(s[0]).value;
      var lo := DigitValue(s[1]).value;
      var rest := Unhex(s[2..]).value;
      assert bytes == [(16 * hi + lo) as byte] + rest;
      HexUnhex(s[2..], rest);
      var b := bytes[0] as int;
      assert b / 16 == hi && b % 16 == lo;
      assert bytes[1..] == rest;
      assert Hex(bytes) == [HexDigit(hi), HexDigit(lo)] + s[2..];
      assert s == [s[0], s[1]] + s[2..];
    }
  }

  lemma HexInjective(a: seq<byte>, b: seq<byte>)
    ensures Hex(a) == Hex(b) <==> a == b
  {
    UnhexHex(a);
    UnhexHex(b);
  }

  /** The key under which the resolution of `url` is cached. */
  function CacheKey(md5: Hasher, url: string): (key: string)
    ensures |key| == |NAMESPACE| + 32
    ensures key[..|NAMESPACE|] == NAMESPACE
    ensures forall i :: |NAMESPACE| <= i < |key| ==> IsHexDigit(key[i])
    ensures Unhex(key[|NAMESPACE|..]) == Some(md5(url))
  {
    var hex := Hex(md5(url));
    UnhexHex(md5(url));
    assert (NAMESPACE + hex)[|NAMESPACE|..] == hex;
    NAMESPACE + hex
  }

  /** Two URLs share a key exactly when they share a digest: the key neither
      merges nor separates anything the hash does not. */
  lemma CacheKeyInjective(md5: Hasher, u1: string, u2: string)
    ensures CacheKey(md5, u1) == CacheKey(md5, u2) <==> md5(u1) == md5(u2)
  {
  }
}
