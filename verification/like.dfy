/**
 * SQL `ILIKE` as the department lookup uses it: `%` matches any run of
 * characters, `_` matches one character, a backslash makes the next
 * pattern character literal, and letters compare without regard to case
 * (ASCII case folding).
 */
module Like {
  import opened Strings

  predicate IsMeta(c: char) { c == '%' || c == '_' || c == '\\' }

  /** A pattern fragment with no wildcard or escape character in it. */
  predicate Plain(p: string) { forall i :: 0 <= i < |p| ==> !IsMeta(p[i]) }

  predicate SameIgnoringCase(a: char, b: char) { LowerChar(a) == LowerChar(b) }

  /** Does the whole of `s` match pattern `p`, ignoring case? */
  function ILike(s: string, p: string): bool
    decreases |s| + |p|
  {
    if p == [] then s == []
    else if p[0] == '%' then ILike(s, p[1..]) || (s != [] && ILike(s[1..], p))
    else if p[0] == '_' then s != [] && ILike(s[1..], p[1..])
    else if p[0] == '\\' && |p| >= 2 then s != [] && SameIgnoringCase(s[0], p[1]) && ILike(s[1..], p[2..])
    else s != [] && SameIgnoringCase(s[0], p[0]) && ILike(s[1..], p[1..])
  }

  /** The pattern `%name%` the department query builds. */
  function SubstringPattern(name: string): (p: string)
    ensures |p| == |name| + 2 && p[0] == '%' && p[|p| - 1] == '%'
  {
    "%" + name + "%"
  }

  /** A leading `%` matches when the rest matches some suffix of `s`. */
  lemma {:induction false} PercentMatchesSuffix(s: string, q: string)
    ensures ILike(s, "%" + q) <==> exists k :: 0 <= k <= |s| && ILike(s[k..], q)
    decreases |s|
  {
    var p := "%" + q;
    assert p[1..] == q;
    if s != [] {
      PercentMatchesSuffix(s[1..], q);
      if ILike(s[1..], p) {
        var k :| 0 <= k <= |s[1..]| && ILike(s[1..][k..], q);
        assert s[1..][k..] == s[k + 1..];
        assert ILike(s[k + 1..], q);
      }
      if ILike(s, q) {
        assert s[0..] == s;
      }
      if exists k :: 0 <= k <= |s| && ILike(s[k..], q) {
        var k :| 0 <= k <= |s| && ILike(s[k..], q);
        if k > 0 {
          assert s[1..][k - 1..] == s[k..];
          assert ILike(s[1..], p);
        } else {
          assert ILike(s, p[1..]);
        }
        assert ILike(s, p);
      }
    } else {
      assert forall k :: 0 <= k <= |s| ==> s[k..] == s;
    }
  }

  /** A trailing `%` after a plain fragment: the fragment is a case-insensitive prefix. */
  lemma {:induction false} PlainThenPercent(s: string, name: string)
    requires Plain(name)
    ensures ILike(s, name + "%") <==> |name| <= |s| && Lower(s[..|name|]) == Lower(name)
    decreases |name|
  {
    var p := name + "%";
    if name == [] {
      assert p == "%";
      PercentAll(s);
    } else {
      assert p[0] == name[0] && !IsMeta(name[0]);
      assert p[1..] == name[1..] + "%";
      if s != [] {
        PlainThenPercent(s[1..], name[1..]);
        if |name| <= |s| {
          assert s[1..][..|name| - 1] == s[..|name|][1..];
          LowerCons(s[..|name|]);
          LowerCons(name);
        }
      }
    }
  }

  /** `%` alone matches everything. */
  lemma {:induction false} PercentAll(s: string)
    ensures ILike(s, "%")
    decreases |s|
  {
    assert "%"[1..] == [];
    if s != [] {
      PercentAll(s[1..]);
    }
  }

  /** Lower-casing a non-empty text is lower-casing its head and its tail. */
  lemma LowerCons(s: string)
    requires s != []
    ensures Lower(s) == [LowerChar(s[0])] + Lower(s[1..])
  {
  }

  /** A case-insensitive prefix at offset `k` is a case-insensitive occurrence there. */
  lemma PrefixAtOffset(s: string, name: string, k: nat)
    requires k <= |s|
    ensures (|name| <= |s[k..]| && Lower(s[k..][..|name|]) == Lower(name)) <==> OccursAt(Lower(s), Lower(name), k)
  {
    if |name| <= |s[k..]| {
      assert s[k..][..|name|] == s[k..k + |name|];
      assert Lower(s)[k..k + |name|] == Lower(s[k..k + |name|]);
    }
  }

  /**
   * For a name without wildcards, `ILIKE '%name%'` holds exactly when the
   * name occurs in the text ignoring case.
   */
  lemma SubstringPatternMeansContains(s: string, name: string)
    requires Plain(name)
    ensures ILike(s, SubstringPattern(name)) <==> Contains(Lower(s), Lower(name))
  {
    var q := name + "%";
    assert SubstringPattern(name) == "%" + q;
    PercentMatchesSuffix(s, q);
    if ILike(s, SubstringPattern(name)) {
      var k :| 0 <= k <= |s| && ILike(s[k..], q);
      PlainThenPercent(s[k..], name);
      PrefixAtOffset(s, name, k);
    }
    if Contains(Lower(s), Lower(name)) {
      var k :| OccursAt(Lower(s), Lower(name), k);
      PrefixAtOffset(s, name, k);
      PlainThenPercent(s[k..], name);
    }
  }

  /**
   * A pattern without wildcards matches exactly the texts equal to it
   * ignoring case: `name ILIKE 'Roads'` is a case-insensitive equality.
   */
  lemma {:induction false} PlainMeansEqualIgnoringCase(s: string, p: string)
    requires Plain(p)
    ensures ILike(s, p) <==> EqualIgnoringCase(s, p)
    decreases |p|
  {
    if p == [] {
      assert |Lower(s)| == |s|;
    } else {
      assert !IsMeta(p[0]);
      assert Plain(p[1..]) by {
        forall i | 0 <= i < |p[1..]| ensures !IsMeta(p[1..][i]) {
          assert p[1..][i] == p[i + 1];
        }
      }
      LowerCons(p);
      if s != [] {
        PlainMeansEqualIgnoringCase(s[1..], p[1..]);
        LowerCons(s);
      }
    }
  }
}
