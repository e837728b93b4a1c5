/** Skill text normalisation: `normalize_skill` is Python's `str.strip()`,
    which removes leading and trailing characters for which `str.isspace()`
    holds. */
module SkillText {

  /** The code points Python's `str.isspace()` accepts. */
  predicate IsSpace(c: char) {
    || ('\t' <= c <= '\r')
    || ('\U{1C}' <= c <= '\U{1F}')
    || c == ' '
    || c == '\U{85}'
    || c == '\U{A0}'
    || c == '\U{1680}'
    || ('\U{2000}' <= c <= '\U{200A}')
    || c == '\U{2028}'
    || c == '\U{2029}'
    || c == '\U{202F}'
    || c == '\U{205F}'
    || c == '\U{3000}'
  }

  predicate AllSpace(s: string) {
    forall k | 0 <= k < |s| :: IsSpace(s[k])
  }

  /** True when `s` neither starts nor ends with whitespace. */
  predicate Trimmed(s: string) {
    s == [] || (!IsSpace(s[0]) && !IsSpace(s[|s| - 1]))
  }

  /** Drops the leading whitespace: the result is a suffix of `s`, what was
      dropped is all whitespace, and what is left does not start with it. */
  function TrimStart(s: string): (r: string)
    ensures |r| <= |s| && r == s[|s| - |r|..]
    ensures AllSpace(s[..|s| - |r|])
    ensures r == [] || !IsSpace(r[0])
  {
    if |s| > 0 && IsSpace(s[0]) then
      var r := TrimStart(s[1..]);
      assert s[..|s| - |r|] == [s[0]] + s[1..][..|s| - 1 - |r|];
      r
    else
      s
  }

  /** Drops the trailing whitespace: the result is a prefix of `s`, what was
      dropped is all whitespace, and what is left does not end with it. */
  function TrimEnd(s: string): (r: string)
    ensures |r| <= |s| && r == s[..|r|]
    ensures AllSpace(s[|r|..])
    ensures r == [] || !IsSpace(r[|r| - 1])
  {
    if |s| > 0 && IsSpace(s[|s| - 1]) then
      var r := TrimEnd(s[..|s| - 1]);
      assert s[|r|..] == s[..|s| - 1][|r|..] + [s[|s| - 1]];
      r
    else
      s
  }

  /** `normalize_skill(skill)`, that is `skill.strip()`. The result has no
      whitespace at either end, and it is empty exactly when the input is all
      whitespace; `NormalizeIsSlice` shows it is the input with whitespace
      cut from both ends. */
  function NormalizeSkill(s: string): (r: string)
    ensures |r| <= |s|
    ensures Trimmed(r)
    ensures r == [] <==> AllSpace(s)
    ensures r != [] ==> r[0] in s && r[|r| - 1] in s
  {
    var t := TrimStart(s);
    var r := TrimEnd(t);
    TrimBoth(s, t, r);
    r
  }

  /** What trimming the start and then the end leaves of `s`. */
  lemma TrimBoth(s: string, t: string, r: string)
    requires t == TrimStart(s) && r == TrimEnd(t)
    ensures Trimmed(r)
    ensures r == [] <==> AllSpace(s)
    ensures r != [] ==> r[0] in s && r[|r| - 1] in s
  {
    if r == [] {
      TrimBothEmpty(s, t);
    } else {
      TrimBothNonEmpty(s, t, r);
    }
  }

  /** Nothing is left only of whitespace. */
  lemma TrimBothEmpty(s: string, t: string)
    requires t == TrimStart(s) && TrimEnd(t) == []
    ensures AllSpace(s)
  {
    assert AllSpace(t) by { assert t[0..] == t; }
    assert t == [];
    assert s[..|s|] == s;
  }

  /** What is left of text that is not all whitespace starts and ends with
      characters of it that are not whitespace. */
  lemma TrimBothNonEmpty(s: string, t: string, r: string)
    requires t == TrimStart(s) && r == TrimEnd(t) && r != []
    ensures Trimmed(r) && !AllSpace(s)
    ensures r[0] in s && r[|r| - 1] in s
  {
    var i := |s| - |t|;
    assert r[0] == s[i] by { assert r[0] == t[0]; }
    assert r[|r| - 1] == s[i + |r| - 1] by { assert r[|r| - 1] == t[|r| - 1]; }
    assert !AllSpace(s) by { assert !IsSpace(s[i]); }
  }

  lemma {:induction false} TrimStartOfSpaced(p: string, t: string)
    requires AllSpace(p)
    requires t == [] || !IsSpace(t[0])
    ensures TrimStart(p + t) == t
    decreases |p|
  {
    if p != [] {
      assert (p + t)[1..] == p[1..] + t;
      TrimStartOfSpaced(p[1..], t);
    } else {
      assert p + t == t;
    }
  }

  lemma {:induction false} TrimEndOfSpaced(t: string, q: string)
    requires AllSpace(q)
    requires t == [] || !IsSpace(t[|t| - 1])
    ensures TrimEnd(t + q) == t
    decreases |q|
  {
    if q != [] {
      assert (t + q)[..|t + q| - 1] == t + q[..|q| - 1];
      TrimEndOfSpaced(t, q[..|q| - 1]);
    } else {
      assert t + q == t;
    }
  }

  /** Stripping recovers the core of any whitespace-padded text: for padding
      `p` and `q` made of whitespace and a `core` with no whitespace at its
      ends, `(p + core + q).strip() == core`. */
  lemma {:induction false} NormalizePadded(p: string, core: string, q: string)
    requires AllSpace(p) && AllSpace(q) && Trimmed(core)
    ensures NormalizeSkill(p + core + q) == core
  {
    if core == [] {
      assert AllSpace(p + core + q) by {
        forall k | 0 <= k < |p + core + q| ensures IsSpace((p + core + q)[k]) {
          if k < |p| { assert (p + core + q)[k] == p[k]; }
          else { assert (p + core + q)[k] == q[k - |p|]; }
        }
      }
    } else {
      assert p + core + q == p + (core + q);
      TrimStartOfSpaced(p, core + q);
      TrimEndOfSpaced(core, q);
    }
  }

  /** The stripped text is a contiguous piece of the input, and all that
      was cut from either end is whitespace. */
  lemma NormalizeIsSlice(s: string)
    ensures exists i, j | 0 <= i <= j <= |s| ::
      NormalizeSkill(s) == s[i..j] && AllSpace(s[..i]) && AllSpace(s[j..])
  {
    var t := TrimStart(s);
    var r := TrimEnd(t);
    var i := |s| - |t|;
    assert NormalizeSkill(s) == r;
    assert t == s[i..];
    assert r == t[..|r|] && r == s[i..i + |r|];
    assert s[i + |r|..] == t[|r|..];
    assert AllSpace(s[..i]) && AllSpace(s[i + |r|..]);
  }

  /** Text with no whitespace at either end is stripped to itself. */
  lemma NormalizeTrimmed(r: string)
    requires Trimmed(r)
    ensures NormalizeSkill(r) == r
  {
    assert [] + r == r;
    TrimStartOfSpaced([], r);
    assert r + [] == r;
    TrimEndOfSpaced(r, []);
  }

  /** Stripping is idempotent. */
  lemma NormalizeIdempotent(s: string)
    ensures NormalizeSkill(NormalizeSkill(s)) == NormalizeSkill(s)
  {
    NormalizeTrimmed(NormalizeSkill(s));
  }

  /** A padded custom skill: `"  Negotiation  "` strips to `"Negotiation"`. */
  lemma NormalizeNegotiation(text: string)
    requires text == "  Negotiation  "
    ensures NormalizeSkill(text) == "Negotiation"
  {
    var pad, core := "  ", "Negotiation";
    assert AllSpace(pad) by { assert pad[0] == ' ' && pad[1] == ' '; }
    assert Trimmed(core) by { assert core[0] == 'N' && core[|core| - 1] == 'n'; }
    assert text == pad + core + pad;
    NormalizePadded(pad, core, pad);
  }
}
