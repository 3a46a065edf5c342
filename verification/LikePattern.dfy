/**
 Escaping a search query for LIKE (packages/db/src/directory.ts), against the matcher of section
 9.7.1 of the PostgreSQL documentation with backslash as the escape character.
 */
module LikePattern {

  predicate IsMeta(c: char) {
    c == '%' || c == '_' || c == '\\'
  }

  /** q.replace(/[%_\\]/g, c => "\\" + c) */
  function Escape(q: string): string {
    if q == [] then []
    else (if IsMeta(q[0]) then ['\\', q[0]] else [q[0]]) + Escape(q[1..])
  }

  function Pattern(q: string): string {
    "%" + Escape(q) + "%"
  }

  /** s LIKE p; a pattern that ends in a lone escape character matches nothing (it is an error). */
  ghost predicate Like(s: string, p: string)
    decreases |p|, |s|
  {
    if p == [] then s == []
    else if p[0] == '%' then Like(s, p[1..]) || (s != [] && Like(s[1..], p))
    else if p[0] == '_' then s != [] && Like(s[1..], p[1..])
    else if p[0] == '\\' then |p| >= 2 && s != [] && s[0] == p[1] && Like(s[1..], p[2..])
    else s != [] && s[0] == p[0] && Like(s[1..], p[1..])
  }

  predicate StartsWith(s: string, q: string) {
    q <= s
  }

  /** q stands somewhere in s. */
  ghost predicate Contains(s: string, q: string) {
    exists i :: 0 <= i <= |s| && StartsWith(s[i..], q)
  }

  /** A final % accepts whatever is left. */
  lemma {:induction false} RestMatches(s: string)
    ensures Like(s, "%")
  {
    assert "%"[1..] == "";
    if s != [] {
      RestMatches(s[1..]);
    }
  }

  /** An escaped query matches itself and nothing else. */
  lemma {:induction false} EscapedPrefix(s: string, q: string)
    ensures Like(s, Escape(q) + "%") <==> StartsWith(s, q)
  {
    if q == [] {
      assert Escape(q) + "%" == "%";
      RestMatches(s);
    } else {
      var p := Escape(q) + "%";
      var rest := Escape(q[1..]) + "%";
      if IsMeta(q[0]) {
        assert p == ['\\', q[0]] + rest;
        assert p[2..] == rest;
      } else {
        assert p == [q[0]] + rest;
        assert p[1..] == rest;
      }
      if s != [] {
        EscapedPrefix(s[1..], q[1..]);
        assert s == [s[0]] + s[1..] && q == [q[0]] + q[1..];
        assert StartsWith(s, q) <==> s[0] == q[0] && StartsWith(s[1..], q[1..]);
      }
    }
  }

  lemma ContainsStep(s: string, q: string)
    requires s != []
    ensures Contains(s, q) <==> StartsWith(s, q) || Contains(s[1..], q)
  {
    assert s[0..] == s;
    if Contains(s, q) {
      var i :| 0 <= i <= |s| && StartsWith(s[i..], q);
      if i > 0 {
        assert s[1..][i - 1..] == s[i..];
      }
    }
    if Contains(s[1..], q) {
      var i :| 0 <= i <= |s[1..]| && StartsWith(s[1..][i..], q);
      assert s[1..][i..] == s[i + 1..];
    }
  }

  /** Escaping is exact: the pattern matches a text if and only if the text contains the query. */
  lemma {:induction false} SearchIsSubstring(s: string, q: string)
    ensures Like(s, Pattern(q)) <==> Contains(s, q)
  {
    var p := Pattern(q);
    assert p[1..] == Escape(q) + "%";
    EscapedPrefix(s, q);
    if s == [] {
      assert s[0..] == s;
    } else {
      SearchIsSubstring(s[1..], q);
      ContainsStep(s, q);
    }
  }

  /** An underscore stands for any one character: unescaped, the query "_" would match every text but the empty one. */
  lemma UnderscoreStandsForAny(s: string)
    ensures Like(s, "_") <==> |s| == 1
    ensures Like(s, "%_%") <==> s != ""
    ensures Like(s, Pattern("_")) <==> '_' in s
  {
    OneCharacter(s);
    SomeCharacter(s);
    SearchIsSubstring(s, "_");
    if i :| 0 <= i < |s| && s[i] == '_' {
      assert StartsWith(s[i..], "_");
    }
  }

  lemma OneCharacter(s: string)
    ensures Like(s, "_") <==> |s| == 1
  {
    assert "_"[1..] == "";
  }

  lemma SomeCharacter(s: string)
    ensures Like(s, "%_%") <==> s != ""
  {
    assert "%_%"[1..] == "_%" && "_%"[1..] == "%";
    if s == "" {
      assert !Like(s, "_%");
    } else {
      RestMatches(s[1..]);
      assert Like(s, "_%");
    }
  }
}
