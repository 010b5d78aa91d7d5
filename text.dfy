/** The string operations behind the exported names: `str(id(x))`, `os.path.dirname`, `os.path.join`. */
module Text {

  predicate IsDigit(c: char) { '0' <= c <= '9' }

  predicate AllDigits(s: string) { forall k :: 0 <= k < |s| ==> IsDigit(s[k]) }

  function DigitChar(d: nat): char
    requires d < 10
  {
    ('0' as int + d) as char
  }

  function DigitValue(c: char): nat
  {
    if IsDigit(c) then c as int - '0' as int else 0
  }

  /** Decimal digits of `n`, most significant first, without leading zeros. */
  function NatToString(n: nat): string
    decreases n
  {
    if n < 10 then [DigitChar(n)] else NatToString(n / 10) + [DigitChar(n % 10)]
  }

  /** `str(i)` for a Python int: an optional minus sign followed by the digits of `|i|`. */
  function IntToString(i: int): string
  {
    if i < 0 then "-" + NatToString(-i) else NatToString(i)
  }

  /** Reads a run of decimal digits back (the inverse of NatToString). */
  function ParseNat(s: string): nat
  {
    if s == [] then 0 else ParseNat(s[..|s| - 1]) * 10 + DigitValue(s[|s| - 1])
  }

  /** `int(s)` for what `str` produces (the inverse of IntToString). */
  function ParseInt(s: string): int
  {
    if |s| > 0 && s[0] == '-' then -(ParseNat(s[1..]) as int) else ParseNat(s)
  }

  lemma {:induction false} NatToStringRoundTrip(n: nat)
    ensures |NatToString(n)| > 0 && AllDigits(NatToString(n))
    ensures ParseNat(NatToString(n)) == n
    decreases n
  {
    var s := NatToString(n);
    if n < 10 {
      assert s[..|s| - 1] == [];
    } else {
      NatToStringRoundTrip(n / 10);
      assert s[..|s| - 1] == NatToString(n / 10);
    }
  }

  /** Decoding the decimal text of an identity gives the identity back. */
  lemma IntToStringRoundTrip(i: int)
    ensures ParseInt(IntToString(i)) == i
  {
    if i < 0 {
      NatToStringRoundTrip(-i);
      assert IntToString(i)[1..] == NatToString(-i);
    } else {
      NatToStringRoundTrip(i);
    }
  }

  /** Distinct identities give distinct `str(id(...))` names. */
  lemma IntToStringInjective(a: int, b: int)
    ensures IntToString(a) == IntToString(b) <==> a == b
  {
    IntToStringRoundTrip(a);
    IntToStringRoundTrip(b);
  }

  /** A stringified identity is never a path: it has no '/', so it cannot clash with a parameter
      name such as "/conv1/W". */
  lemma IntToStringHasNoSlash(i: int)
    ensures '/' !in IntToString(i)
    ensures |IntToString(i)| > 0
  {
    var n: nat := if i < 0 then -i else i;
    NatToStringRoundTrip(n);
    if i < 0 {
      assert IntToString(i) == "-" + NatToString(n);
      assert forall k :: 1 <= k < |IntToString(i)| ==> IntToString(i)[k] == NatToString(n)[k - 1];
    }
  }

  lemma IdNameIsNotPath(i: int, p: string)
    requires '/' in p
    ensures IntToString(i) != p
  {
    IntToStringHasNoSlash(i);
  }

  // ---- os.path (POSIX) ----

  predicate AllSlashes(s: string) { forall k :: 0 <= k < |s| ==> s[k] == '/' }

  /** `p.rfind('/')`: the last position holding '/', or -1. */
  function RFindSlash(p: string): (r: int)
    ensures -1 <= r < |p|
    ensures r >= 0 ==> p[r] == '/'
    ensures forall k :: r < k < |p| ==> p[k] != '/'
  {
    if |p| == 0 then -1
    else if p[|p| - 1] == '/' then |p| - 1
    else RFindSlash(p[..|p| - 1])
  }

  /** `s.rstrip('/')`. */
  function RStripSlashes(s: string): (r: string)
    ensures r <= s
    ensures r == [] || r[|r| - 1] != '/'
    ensures forall k :: |r| <= k < |s| ==> s[k] == '/'
  {
    if |s| > 0 && s[|s| - 1] == '/' then RStripSlashes(s[..|s| - 1]) else s
  }

  /** `os.path.dirname(p)`: everything up to the last '/', with trailing slashes removed
      unless the head consists of slashes only. */
  function Dirname(p: string): string
  {
    var head := p[..RFindSlash(p) + 1];
    if head != [] && !AllSlashes(head) then RStripSlashes(head) else head
  }

  /** `os.path.join(a, b)` for two components. */
  function Join(a: string, b: string): string
  {
    if |b| > 0 && b[0] == '/' then b
    else if a == [] || a[|a| - 1] == '/' then a + b
    else a + "/" + b
  }

  /** What `dirname` can produce: empty, or a directory that does not end in '/' unless it is all
      slashes. */
  predicate IsDir(d: string)
  {
    d == [] || d[|d| - 1] != '/' || AllSlashes(d)
  }

  lemma DirnameIsDir(p: string)
    ensures IsDir(Dirname(p))
  {
    var head := p[..RFindSlash(p) + 1];
    if head != [] && !AllSlashes(head) {
      var r := RStripSlashes(head);
      assert r != [] by {
        var k :| 0 <= k < |head| && head[k] != '/';
        assert k < |r|;
      }
    }
  }

  /** Joining a slash-free leaf onto a directory and taking the dirname gives the directory back. */
  lemma DirnameOfJoin(d: string, leaf: string)
    requires IsDir(d)
    requires '/' !in leaf
    ensures Dirname(Join(d, leaf)) == d
  {
    var p := Join(d, leaf);
    if d == [] {
      assert p == leaf;
      assert RFindSlash(p) == -1;
    } else if d[|d| - 1] == '/' {
      assert p == d + leaf;
      var r := RFindSlash(p);
      assert p[|d| - 1] == '/';
      assert forall k :: |d| <= k < |p| ==> p[k] == leaf[k - |d|];
      assert r == |d| - 1;
      assert p[..r + 1] == d;
    } else {
      assert p == d + "/" + leaf;
      var r := RFindSlash(p);
      assert p[|d|] == '/';
      assert forall k :: |d| < k < |p| ==> p[k] == leaf[k - |d| - 1];
      assert r == |d|;
      var head := p[..r + 1];
      assert head == d + "/";
      assert head[|d| - 1] == d[|d| - 1] != '/';
      var s := RStripSlashes(head);
      assert |s| <= |d|;
      assert |s| >= |d|;
      assert s == head[..|s|];
    }
  }

  /** Names derived as `join(dirname(p), leaf)` sit in the same directory as `p`. */
  lemma JoinDirnameStaysInLayer(p: string, leaf: string)
    requires '/' !in leaf
    ensures Dirname(Join(Dirname(p), leaf)) == Dirname(p)
  {
    DirnameIsDir(p);
    DirnameOfJoin(Dirname(p), leaf);
  }
}
