/**
  String helpers that the crawler takes from Python's `str`:
  `strip` with and without an argument, `split(sep)[0]` and `sep.join(parts)`.
  Strings are `seq<char>`; only the ASCII behaviour is modelled.
 */
module Text {

  /** Whitespace as `str.strip()` sees it, restricted to the ASCII range. */
  predicate IsSpace(c: char)
  {
    c == ' ' || c == '\t' || c == '\n' || c == '\r' || '\U{B}' <= c <= '\U{C}' || '\U{1C}' <= c <= '\U{1F}'
  }

  predicate IsDigit(c: char)
  {
    '0' <= c <= '9'
  }

  /** Drops the longest prefix whose characters all satisfy `drop`. */
  function TrimLeft(s: string, drop: char -> bool): (r: string)
    ensures |r| <= |s| && r == s[|s| - |r|..]
    ensures r == [] || !drop(r[0])
    ensures forall i :: 0 <= i < |s| - |r| ==> drop(s[i])
  {
    if s != [] && drop(s[0]) then TrimLeft(s[1..], drop) else s
  }

  /** Drops the longest suffix whose characters all satisfy `drop`. */
  function TrimRight(s: string, drop: char -> bool): (r: string)
    ensures |r| <= |s| && r == s[..|r|]
    ensures r == [] || !drop(r[|r| - 1])
    ensures forall i :: |r| <= i < |s| ==> drop(s[i])
  {
    if s != [] && drop(s[|s| - 1]) then TrimRight(s[..|s| - 1], drop) else s
  }

  /** Python's `s.strip(chars)`: both ends, as long as `drop` holds. */
  function Trim(s: string, drop: char -> bool): string
  {
    TrimRight(TrimLeft(s, drop), drop)
  }

  /** Python's `s.strip()`. */
  function Strip(s: string): string
  {
    Trim(s, IsSpace)
  }

  /** A trimmed string starts and ends with characters that `drop` keeps. */
  lemma TrimEnds(s: string, drop: char -> bool)
    ensures var r := Trim(s, drop); r == [] || (!drop(r[0]) && !drop(r[|r| - 1]))
  {
    var l := TrimLeft(s, drop);
    var r := TrimRight(l, drop);
    if r != [] {
      assert r[0] == l[0];
    }
  }

  /** Trimming a string that has nothing to drop at either end is the identity. */
  lemma TrimKeeps(s: string, drop: char -> bool)
    requires s == [] || (!drop(s[0]) && !drop(s[|s| - 1]))
    ensures Trim(s, drop) == s
  {
  }

  /** Trimming keeps a property that every character has. */
  lemma TrimKeepsAll(s: string, drop: char -> bool, p: char -> bool)
    requires forall i :: 0 <= i < |s| ==> p(s[i])
    ensures forall i :: 0 <= i < |Trim(s, drop)| ==> p(Trim(s, drop)[i])
  {
    var l := TrimLeft(s, drop);
    forall i | 0 <= i < |l|
      ensures p(l[i])
    {
      assert l[i] == s[|s| - |l| + i];
    }
    var r := TrimRight(l, drop);
    forall i | 0 <= i < |r|
      ensures p(r[i])
    {
      assert r[i] == l[i];
    }
  }

  /** A trimmed string is a contiguous part of the original; `k` is where it starts. */
  lemma TrimIsInfix(s: string, drop: char -> bool) returns (k: nat)
    ensures k + |Trim(s, drop)| <= |s| && Trim(s, drop) == s[k..k + |Trim(s, drop)|]
  {
    var l := TrimLeft(s, drop);
    var r := TrimRight(l, drop);
    k := |s| - |l|;
    assert r == l[..|r|] == s[k..k + |r|];
  }

  /** Whether `m` occurs in `s` starting at position `i`. */
  predicate OccursAt(s: string, m: string, i: nat)
  {
    i + |m| <= |s| && s[i..i + |m|] == m
  }

  /**
    `s.split(m)[0]`: the part of `s` before the first occurrence of `m`,
    or all of `s` when `m` does not occur.
   */
  function PrefixBefore(s: string, m: string): (r: string)
    requires m != []
    ensures |r| <= |s| && r == s[..|r|]
    ensures forall i :: 0 <= i < |r| ==> !OccursAt(s, m, i)
    ensures |r| == |s| || OccursAt(s, m, |r|)
    decreases |s|
  {
    if |m| <= |s| && s[..|m|] == m then []
    else if s == [] then []
    else
      var rest := PrefixBefore(s[1..], m);
      assert !OccursAt(s, m, 0);
      assert forall i :: 1 <= i <= |rest| ==> (OccursAt(s, m, i) <==> OccursAt(s[1..], m, i - 1)) by {
        forall i | 1 <= i <= |rest| ensures OccursAt(s, m, i) <==> OccursAt(s[1..], m, i - 1) {
          if i + |m| <= |s| {
            var a, b := s[i..i + |m|], s[1..][i - 1..i - 1 + |m|];
            assert |a| == |b|;
            assert forall k :: 0 <= k < |a| ==> a[k] == s[i + k] == b[k];
            assert a == b;
          }
        }
      }
      [s[0]] + rest
  }

  /** An occurrence inside a part of `s` is an occurrence in `s`. */
  lemma OccursInInfix(s: string, k: nat, t: string, m: string, i: nat)
    requires k + |t| <= |s| && t == s[k..k + |t|]
    requires OccursAt(t, m, i)
    ensures OccursAt(s, m, k + i)
  {
    var a, b := t[i..i + |m|], s[k + i..k + i + |m|];
    assert forall j :: 0 <= j < |m| ==> a[j] == t[i + j] == s[k + i + j] == b[j];
    assert a == b;
  }

  /** The part before the first occurrence of `m` holds no occurrence of `m` itself. */
  lemma PrefixBeforeFree(s: string, m: string, j: nat)
    requires m != []
    ensures !OccursAt(PrefixBefore(s, m), m, j)
  {
    var p := PrefixBefore(s, m);
    if OccursAt(p, m, j) {
      assert s[0..0 + |p|] == p;
      OccursInInfix(s, 0, p, m, j);
    }
  }

  /** An occurrence in a stripped string is an occurrence, at position `i`, in the original. */
  lemma StripOccurs(p: string, m: string, j: nat) returns (i: nat)
    requires OccursAt(Strip(p), m, j)
    ensures OccursAt(p, m, i)
  {
    var k := TrimIsInfix(p, IsSpace);
    OccursInInfix(p, k, Strip(p), m, j);
    i := k + j;
  }

  /** Stripping the part before the first `m` still leaves no occurrence of `m`. */
  lemma StripPrefixBeforeFree(s: string, m: string, j: nat)
    requires m != []
    ensures !OccursAt(Strip(PrefixBefore(s, m)), m, j)
  {
    if OccursAt(Strip(PrefixBefore(s, m)), m, j) {
      var i := StripOccurs(PrefixBefore(s, m), m, j);
      PrefixBeforeFree(s, m, i);
    }
  }

  /** Python's `sep.join(parts)`. */
  function Join(sep: string, parts: seq<string>): string
  {
    if |parts| == 0 then ""
    else if |parts| == 1 then parts[0]
    else parts[0] + sep + Join(sep, parts[1..])
  }

  /** Joining non-empty parts never yields the empty string. */
  lemma {:induction false} JoinNonEmpty(sep: string, parts: seq<string>)
    requires parts != []
    requires forall i :: 0 <= i < |parts| ==> parts[i] != ""
    ensures Join(sep, parts) != ""
  {
    assert |Join(sep, parts)| >= |parts[0]|;
  }
}
