/** The store's pattern match, SQL `LIKE` as ISO/IEC 9075 (SQL-92) section 8.5 defines
    it: `%` matches any sequence of characters, `_` matches exactly one, every other
    character matches itself. No escape character is used, and matching is
    case-sensitive. The resolver's fuzzy form of a filter value is defined here too. */
module Patterns {
  import opened Text

  predicate Like(pattern: string, s: string)
    decreases |pattern| + |s|
  {
    if pattern == [] then s == []
    else if pattern[0] == '%' then Like(pattern[1..], s) || (s != [] && Like(pattern, s[1..]))
    else s != [] && (pattern[0] == '_' || pattern[0] == s[0]) && Like(pattern[1..], s[1..])
  }

  /** A value free of wildcards, so that as a pattern it stands for itself. */
  predicate Literal(v: string) {
    '%' !in v && '_' !in v
  }

  /** Every `-` replaced by `%-%`, as `value.replace("-", "%-%")`. */
  function Hyphens(v: string): (r: string)
    ensures '-' in v ==> '%' in r
    decreases |v|
  {
    if v == [] then [] else (if v[0] == '-' then "%-%" else [v[0]]) + Hyphens(v[1..])
  }

  /** The fuzzy form of a filter value (conversion.py:107-109): wildcards around every
      hyphen and at both ends, so `C9300L-48T-4G-E` becomes `%C9300L%-%48T%-%4G%-%E%`. */
  function Fuzzy(v: string): (r: string)
    ensures |r| >= 2 && r[0] == '%' && r[|r| - 1] == '%'
  {
    "%" + Hyphens(v) + "%"
  }

  /** Hyphens are widened piece by piece. */
  lemma {:induction false} HyphensAppend(a: string, b: string)
    ensures Hyphens(a + b) == Hyphens(a) + Hyphens(b)
    decreases |a|
  {
    if a == [] {
      assert a + b == b;
    } else {
      assert (a + b)[0] == a[0] && (a + b)[1..] == a[1..] + b;
      HyphensAppend(a[1..], b);
    }
  }

  /** A text without hyphens is left as it is. */
  lemma {:induction false} HyphensPlain(v: string)
    requires '-' !in v
    ensures Hyphens(v) == v
    decreases |v|
  {
    if v != [] {
      HyphensPlain(v[1..]);
    }
  }

  /** Four hyphen-free pieces joined by hyphens get a wildcard on each side of every
      hyphen. */
  lemma FourPieces(a: string, b: string, c: string, d: string)
    requires '-' !in a && '-' !in b && '-' !in c && '-' !in d
    ensures Hyphens(a + "-" + b + "-" + c + "-" + d) == a + "%-%" + b + "%-%" + c + "%-%" + d
  {
    HyphensPlain(a);
    HyphensPlain(b);
    HyphensPlain(c);
    HyphensPlain(d);
    assert Hyphens("-") == "%-%";
    HyphensAppend(a + "-" + b + "-" + c + "-", d);
    HyphensAppend(a + "-" + b + "-" + c, "-");
    HyphensAppend(a + "-" + b + "-", c);
    HyphensAppend(a + "-" + b, "-");
    HyphensAppend(a + "-", b);
    HyphensAppend(a, "-");
  }

  /** The example of conversion.py:107-108: `C9300L-48T-4G-E` becomes
      `%C9300L%-%48T%-%4G%-%E%`. */
  lemma FuzzyExample()
    ensures Fuzzy("C9300L" + "-" + "48T" + "-" + "4G" + "-" + "E") ==
      "%" + "C9300L" + "%-%" + "48T" + "%-%" + "4G" + "%-%" + "E" + "%"
  {
    FourPieces("C9300L", "48T", "4G", "E");
  }

  /** The containment form `%v%` used by the mapping fallback and the list filters. */
  function Around(v: string): (r: string)
    ensures |r| == |v| + 2 && r[0] == '%' && r[|r| - 1] == '%'
  {
    "%" + v + "%"
  }

  lemma LikeAnything(s: string)
    ensures Like("%", s)
    decreases |s|
  {
    assert "%"[1..] == [];
    if s != [] {
      LikeAnything(s[1..]);
    }
  }

  lemma LikeLeadingPercent(p: string, s: string)
    requires Like(p, s)
    ensures Like("%" + p, s)
  {
    assert ("%" + p)[1..] == p;
  }

  lemma {:induction false} LikeTrailingPercent(p: string, s: string)
    requires Like(p, s)
    ensures Like(p + "%", s)
    decreases |p| + |s|
  {
    if p == [] {
      assert p + "%" == "%";
      LikeAnything(s);
    } else {
      assert (p + "%")[0] == p[0] && (p + "%")[1..] == p[1..] + "%";
      if p[0] == '%' {
        if Like(p[1..], s) {
          LikeTrailingPercent(p[1..], s);
        } else {
          LikeTrailingPercent(p, s[1..]);
        }
      } else {
        LikeTrailingPercent(p[1..], s[1..]);
      }
    }
  }

  /** Widening every hyphen never loses a match. */
  lemma {:induction false} LikeHyphens(p: string, s: string)
    requires Like(p, s)
    ensures Like(Hyphens(p), s)
    decreases |p| + |s|
  {
    if p != [] {
      var h := Hyphens(p[1..]);
      if p[0] == '%' {
        assert Hyphens(p) == "%" + h;
        assert Hyphens(p)[1..] == h;
        if Like(p[1..], s) {
          LikeHyphens(p[1..], s);
        } else {
          LikeHyphens(p, s[1..]);
        }
      } else if p[0] == '-' {
        LikeHyphens(p[1..], s[1..]);
        assert Hyphens(p) == "%-%" + h;
        var q := Hyphens(p);
        assert q[1..] == "-%" + h;
        assert ("-%" + h)[1..] == "%" + h;
        assert ("%" + h)[1..] == h;
        assert Like("%" + h, s[1..]);
        assert Like("-%" + h, s);
      } else {
        LikeHyphens(p[1..], s[1..]);
        assert Hyphens(p) == [p[0]] + h;
        assert Hyphens(p)[1..] == h;
      }
    }
  }

  /** Whatever a value matches as an exact pattern, its fuzzy form matches too
      (conversion.py:107-109): `C9300L-48T` still finds its own family. */
  lemma FuzzyWidens(v: string, s: string)
    requires Like(v, s)
    ensures Like(Fuzzy(v), s)
  {
    LikeHyphens(v, s);
    LikeTrailingPercent(Hyphens(v), s);
    LikeLeadingPercent(Hyphens(v) + "%", s);
    assert Fuzzy(v) == "%" + (Hyphens(v) + "%");
  }

  /** A literal pattern matches exactly itself. */
  lemma {:induction false} LikeLiteral(v: string, s: string)
    requires Literal(v)
    ensures Like(v, s) <==> v == s
    decreases |v| + |s|
  {
    if v != [] && s != [] {
      LikeLiteral(v[1..], s[1..]);
      assert v == [v[0]] + v[1..] && s == [s[0]] + s[1..];
    }
  }

  lemma {:induction false} LikePrefix(v: string, s: string)
    requires Literal(v)
    ensures Like(v + "%", s) <==> StartsWith(s, v)
    decreases |v|
  {
    if v == [] {
      assert v + "%" == "%";
      LikeAnything(s);
    } else {
      assert (v + "%")[0] == v[0] && (v + "%")[1..] == v[1..] + "%";
      if s != [] {
        LikePrefix(v[1..], s[1..]);
        if StartsWith(s[1..], v[1..]) && s[0] == v[0] {
          assert s[..|v|] == [s[0]] + s[1..][..|v| - 1];
          assert v == [v[0]] + v[1..];
        }
        if StartsWith(s, v) {
          assert s[1..][..|v| - 1] == s[..|v|][1..];
        }
      }
    }
  }

  /** `%v%` with a literal `v` matches exactly the strings containing `v`. */
  lemma {:induction false} AroundMeansContains(v: string, s: string)
    requires Literal(v)
    ensures Like(Around(v), s) <==> Contains(s, v)
    decreases |s|
  {
    assert Around(v)[1..] == v + "%";
    LikePrefix(v, s);
    if s != [] {
      AroundMeansContains(v, s[1..]);
    }
  }
  /** Every string matches itself as a pattern: its `%` and `_` match themselves too. */
  lemma {:induction false} LikeSelf(p: string)
    ensures Like(p, p)
    decreases |p|
  {
    if p != [] {
      LikeSelf(p[1..]);
      if p[0] == '%' {
        assert Like(p, p[1..]) by {
          if p[1..] == [] {
          } else {
            assert Like(p[1..], p[1..]);
          }
        }
      }
    }
  }
}
