/** The string and byte operations of Python's runtime that the modelled code relies on. */
module Text {

  newtype byte = x: int | 0 <= x < 256

  /** str.startswith */
  predicate StartsWith(s: string, prefix: string) {
    |prefix| <= |s| && s[..|prefix|] == prefix
  }

  predicate IsHexDigit(c: char) {
    '0' <= c <= '9' || 'a' <= c <= 'f'
  }

  function HexValue(c: char): (n: nat)
    requires IsHexDigit(c)
    ensures n < 16
  {
    if c <= '9' then c as int - '0' as int else c as int - 'a' as int + 10
  }

  function HexDigit(n: nat): (c: char)
    requires n < 16
    ensures IsHexDigit(c) && HexValue(c) == n
  {
    if n < 10 then ('0' as int + n) as char else ('a' as int + n - 10) as char
  }

  /** bytes.hex(): two lower-case digits per byte, most significant first, no prefix. */
  function Hex(bs: seq<byte>): (r: string)
    ensures |r| == 2 * |bs|
    ensures forall i :: 0 <= i < |r| ==> IsHexDigit(r[i])
  {
    if bs == [] then []
    else [HexDigit(bs[0] as int / 16), HexDigit(bs[0] as int % 16)] + Hex(bs[1..])
  }

  /** bytes.fromhex, on the strings Hex produces. */
  function Unhex(s: string): seq<byte>
    requires |s| % 2 == 0
    requires forall i :: 0 <= i < |s| ==> IsHexDigit(s[i])
  {
    if s == [] then []
    else [(HexValue(s[0]) * 16 + HexValue(s[1])) as byte] + Unhex(s[2..])
  }

  /** Hex loses nothing: the bytes are recovered from their rendering. */
  lemma {:induction false} UnhexHex(bs: seq<byte>)
    ensures Unhex(Hex(bs)) == bs
  {
    if bs != [] {
      var h := Hex(bs);
      assert h[2..] == Hex(bs[1..]);
      UnhexHex(bs[1..]);
    }
  }

  function DecimalDigit(n: nat): (c: char)
    requires n < 10
    ensures '0' <= c <= '9'
  {
    ('0' as int + n) as char
  }

  /** str(n) for a non-negative int. */
  function NatToString(n: nat): (s: string)
    ensures |s| > 0
    ensures forall i :: 0 <= i < |s| ==> '0' <= s[i] <= '9'
  {
    if n < 10 then [DecimalDigit(n)] else NatToString(n / 10) + [DecimalDigit(n % 10)]
  }

  /** int(s) for a non-empty string of decimal digits. */
  function ParseNat(s: string): nat
    requires |s| > 0
    requires forall i :: 0 <= i < |s| ==> '0' <= s[i] <= '9'
  {
    var d := s[|s| - 1] as int - '0' as int;
    if |s| == 1 then d else ParseNat(s[..|s| - 1]) * 10 + d
  }

  /** str(n) is read back as n. */
  lemma {:induction false} ParseNatToString(n: nat)
    ensures ParseNat(NatToString(n)) == n
  {
    if n >= 10 {
      var s := NatToString(n);
      assert s[..|s| - 1] == NatToString(n / 10);
      ParseNatToString(n / 10);
    }
  }

  function StripStart(s: string, c: char): (r: string)
    ensures |r| <= |s| && r == s[|s| - |r|..]
    ensures r == [] || r[0] != c
    ensures forall i :: 0 <= i < |s| - |r| ==> s[i] == c
  {
    if s != [] && s[0] == c then StripStart(s[1..], c) else s
  }

  function StripEnd(s: string, c: char): (r: string)
    ensures |r| <= |s| && r == s[..|r|]
    ensures r == [] || r[|r| - 1] != c
    ensures forall i :: |r| <= i < |s| ==> s[i] == c
  {
    if s != [] && s[|s| - 1] == c then StripEnd(s[..|s| - 1], c) else s
  }

  /** str.strip(c): both ends lose every leading and trailing c. */
  function Strip(s: string, c: char): string {
    StripEnd(StripStart(s, c), c)
  }

  /** Strip removes a run of c from each end and nothing else. */
  lemma StripIsInfix(s: string, c: char)
    ensures var r := Strip(s, c);
      exists i, j :: 0 <= i <= j <= |s| && r == s[i..j]
        && (forall k :: 0 <= k < i ==> s[k] == c)
        && (forall k :: j <= k < |s| ==> s[k] == c)
        && (r == [] || (r[0] != c && r[|r| - 1] != c))
  {
    var t := StripStart(s, c);
    var r := StripEnd(t, c);
    var i := |s| - |t|;
    var j := i + |r|;
    assert t == s[i..];
    assert r == t[..|r|];
    assert r == s[i..j];
    assert forall k :: 0 <= k < i ==> s[k] == c;
    assert forall k :: j <= k < |s| ==> s[k] == c by {
      forall k | j <= k < |s| ensures s[k] == c {
        assert s[k] == t[k - i];
      }
    }
    assert r == [] || (r[0] != c && r[|r| - 1] != c);
  }

  /** A string with no c at either end is left alone by Strip. */
  lemma StripClean(s: string, c: char)
    requires s == [] || (s[0] != c && s[|s| - 1] != c)
    ensures Strip(s, c) == s
  {
  }

  /** Surrounding a clean string with c and stripping c gives it back. */
  lemma StripQuoted(v: string, c: char)
    requires v == [] || (v[0] != c && v[|v| - 1] != c)
    ensures Strip([c] + v + [c], c) == v
  {
    var s := [c] + v + [c];
    var t := v + [c];
    assert s[0] == c && s[1..] == t;
    assert StripStart(s, c) == StripStart(t, c);
    if v == [] {
      assert t[1..] == [];
      assert StripStart(t, c) == [];
    } else {
      assert t[0] != c;
      assert StripStart(t, c) == t;
      assert t[|t| - 1] == c && t[..|t| - 1] == v;
      assert StripEnd(t, c) == StripEnd(v, c);
    }
  }
}
