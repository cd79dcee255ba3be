/**
  `slugify` from generate_ics_bulk.py: strip the blanks around a name,
  lower-case it, turn every run of non-word characters into one `_`, and
  drop `_` from both ends. Word characters are the ASCII letters, digits
  and `_`.
 */
module Slug {
  import opened Text

  predicate IsWordChar(c: char)
  {
    'a' <= c <= 'z' || 'A' <= c <= 'Z' || IsDigit(c) || c == '_'
  }

  predicate IsNonWordChar(c: char)
  {
    !IsWordChar(c)
  }

  predicate IsUnderscore(c: char)
  {
    c == '_'
  }

  /** The characters a slug is made of: lower-case letters, digits and `_`. */
  predicate IsSlugChar(c: char)
  {
    'a' <= c <= 'z' || IsDigit(c) || c == '_'
  }

  function LowerChar(c: char): char
  {
    if 'A' <= c <= 'Z' then (c as int + 32) as char else c
  }

  /** `str.lower()` on ASCII. */
  function Lower(s: string): string
  {
    seq(|s|, i requires 0 <= i < |s| => LowerChar(s[i]))
  }

  /**
    `re.sub(r"\W+", "_", s)`: every maximal run of non-word characters
    becomes one `_`; word characters are kept.
   */
  function CollapseNonWord(s: string): string
    decreases |s|
  {
    if s == [] then []
    else if IsWordChar(s[0]) then [s[0]] + CollapseNonWord(s[1..])
    else ['_'] + CollapseNonWord(TrimLeft(s[1..], IsNonWordChar))
  }

  /** Collapsing keeps word characters and adds only `_`. */
  lemma {:induction false} CollapseAlphabet(s: string)
    requires forall i :: 0 <= i < |s| && IsWordChar(s[i]) ==> IsSlugChar(s[i])
    ensures forall i :: 0 <= i < |CollapseNonWord(s)| ==> IsSlugChar(CollapseNonWord(s)[i])
    decreases |s|
  {
    if s != [] {
      var rest := if IsWordChar(s[0]) then s[1..] else TrimLeft(s[1..], IsNonWordChar);
      assert rest == s[|s| - |rest|..];
      assert forall i :: 0 <= i < |rest| ==> rest[i] == s[|s| - |rest| + i];
      CollapseAlphabet(rest);
    }
  }

  function Slugify(text: string): string
  {
    Trim(CollapseNonWord(Lower(Strip(text))), IsUnderscore)
  }

  /** Every word character of a lower-cased string is a slug character. */
  lemma LowerAlphabet(x: string)
    ensures forall i :: 0 <= i < |Lower(x)| && IsWordChar(Lower(x)[i]) ==> IsSlugChar(Lower(x)[i])
  {
    forall i | 0 <= i < |Lower(x)| && IsWordChar(Lower(x)[i])
      ensures IsSlugChar(Lower(x)[i])
    {
      assert Lower(x)[i] == LowerChar(x[i]);
    }
  }

  /** A slug holds only lower-case letters, digits and `_`. */
  lemma SlugAlphabet(text: string)
    ensures forall i :: 0 <= i < |Slugify(text)| ==> IsSlugChar(Slugify(text)[i])
  {
    var lowered := Lower(Strip(text));
    LowerAlphabet(Strip(text));
    CollapseAlphabet(lowered);
    TrimKeepsAll(CollapseNonWord(lowered), IsUnderscore, IsSlugChar);
  }

  /** A slug never starts or ends with `_`. */
  lemma SlugEnds(text: string)
    ensures var s := Slugify(text); s == [] || (s[0] != '_' && s[|s| - 1] != '_')
  {
    TrimEnds(CollapseNonWord(Lower(Strip(text))), IsUnderscore);
  }

  lemma {:induction false} CollapseKeepsWords(s: string)
    requires forall i :: 0 <= i < |s| ==> IsWordChar(s[i])
    ensures CollapseNonWord(s) == s
  {
    if s != [] {
      CollapseKeepsWords(s[1..]);
    }
  }

  lemma LowerKeepsSlug(s: string)
    requires forall i :: 0 <= i < |s| ==> IsSlugChar(s[i])
    ensures Lower(s) == s
  {
    assert forall i :: 0 <= i < |s| ==> LowerChar(s[i]) == s[i];
  }

  /** Slugifying a slug gives it back unchanged. */
  lemma SlugIdempotent(text: string)
    ensures Slugify(Slugify(text)) == Slugify(text)
  {
    var s := Slugify(text);
    SlugAlphabet(text);
    SlugEnds(text);
    if s != [] {
      assert IsSlugChar(s[0]) && IsSlugChar(s[|s| - 1]);
    }
    TrimKeeps(s, IsSpace);
    var stripped := Strip(s);
    assert stripped == s;
    LowerKeepsSlug(s);
    var lowered := Lower(stripped);
    assert lowered == s;
    CollapseKeepsWords(s);
    var collapsed := CollapseNonWord(lowered);
    assert collapsed == s;
    TrimKeeps(s, IsUnderscore);
    assert Slugify(s) == Trim(collapsed, IsUnderscore);
  }
}
