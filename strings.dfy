/** The handful of Go `strings` functions the core relies on, on `seq<char>`. */
module Strings {

  /** `unicode.IsSpace`: ASCII white space, NEL, NBSP and the Unicode White_Space characters above Latin-1. */
  predicate IsSpace(c: char) {
    c == ' ' || c == '\t' || c == '\n' || c == '\U{B}' || c == '\U{C}' || c == '\r'
    || c == '\U{85}' || c == '\U{A0}' || c == '\U{1680}'
    || ('\U{2000}' <= c <= '\U{200A}')
    || c == '\U{2028}' || c == '\U{2029}' || c == '\U{202F}' || c == '\U{205F}' || c == '\U{3000}'
  }

  predicate AllSpace(s: string) {
    forall i :: 0 <= i < |s| ==> IsSpace(s[i])
  }

  /** `strings.HasPrefix` */
  predicate HasPrefix(s: string, prefix: string) {
    |prefix| <= |s| && s[..|prefix|] == prefix
  }

  /** `strings.TrimPrefix`: removes `prefix` once when `s` starts with it. */
  function TrimPrefix(s: string, prefix: string): (r: string)
    ensures HasPrefix(s, prefix) ==> prefix + r == s
    ensures !HasPrefix(s, prefix) ==> r == s
  {
    if HasPrefix(s, prefix) then s[|prefix|..] else s
  }

  /** Leading white space removed: what is dropped is all space, what is kept does not start with space. */
  function TrimLeftSpace(s: string): (r: string)
    ensures |r| <= |s| && r == s[|s| - |r|..]
    ensures AllSpace(s[..|s| - |r|])
    ensures r == [] || !IsSpace(r[0])
    decreases |s|
  {
    if |s| > 0 && IsSpace(s[0]) then
      var r := TrimLeftSpace(s[1..]);
      LeftSpaceStep(s, r);
      r
    else s
  }

  /** Dropping one more leading space keeps the facts of `TrimLeftSpace`. */
  lemma LeftSpaceStep(s: string, r: string)
    requires |s| > 0 && IsSpace(s[0])
    requires |r| <= |s| - 1 && r == s[1..][|s| - 1 - |r|..] && AllSpace(s[1..][..|s| - 1 - |r|])
    ensures r == s[|s| - |r|..] && AllSpace(s[..|s| - |r|])
  {
    var k := |s| - |r|;
    assert s[1..][k - 1..] == s[k..];
    forall i | 0 <= i < k ensures IsSpace(s[..k][i]) {
      if i > 0 {
        assert s[..k][i] == s[1..][..k - 1][i - 1];
      }
    }
  }

  /** Trailing white space removed. */
  function TrimRightSpace(s: string): (r: string)
    ensures |r| <= |s| && r == s[..|r|]
    ensures AllSpace(s[|r|..])
    ensures r == [] || !IsSpace(r[|r| - 1])
    decreases |s|
  {
    if |s| > 0 && IsSpace(s[|s| - 1]) then
      var r := TrimRightSpace(s[..|s| - 1]);
      RightSpaceStep(s, r);
      r
    else s
  }

  /** Dropping one more trailing space keeps the facts of `TrimRightSpace`. */
  lemma RightSpaceStep(s: string, r: string)
    requires |s| > 0 && IsSpace(s[|s| - 1])
    requires |r| <= |s| - 1 && r == s[..|s| - 1][..|r|] && AllSpace(s[..|s| - 1][|r|..])
    ensures r == s[..|r|] && AllSpace(s[|r|..])
  {
    forall i | 0 <= i < |s| - |r| ensures IsSpace(s[|r|..][i]) {
      if |r| + i < |s| - 1 {
        assert s[|r|..][i] == s[..|s| - 1][|r|..][i];
      }
    }
  }

  /** `strings.TrimSpace`: white space dropped at both ends (its halves state what each end drops; `TrimSpaceBlank` and `TrimSpaceEnds` state the rest). */
  function TrimSpace(s: string): string
  {
    TrimRightSpace(TrimLeftSpace(s))
  }

  /** `TrimSpace` is empty exactly for a string of white space. */
  lemma TrimSpaceBlank(s: string)
    ensures TrimSpace(s) == [] <==> AllSpace(s)
  {
    var l := TrimLeftSpace(s);
    TrimBothEnds(s, l, TrimRightSpace(l), |s| - |l|);
  }

  /** What `TrimSpace` keeps neither starts nor ends with white space. */
  lemma TrimSpaceEnds(s: string)
    ensures var r := TrimSpace(s);
      r == [] || (!IsSpace(r[0]) && !IsSpace(r[|r| - 1]))
  {
    var l := TrimLeftSpace(s);
    TrimBothEnds(s, l, TrimRightSpace(l), |s| - |l|);
  }

  /** The facts about `TrimSpace` from those about its two halves. */
  lemma TrimBothEnds(s: string, l: string, r: string, a: nat)
    requires a <= |s| && l == s[a..] && AllSpace(s[..a]) && (l == [] || !IsSpace(l[0]))
    requires |r| <= |l| && r == l[..|r|] && AllSpace(l[|r|..]) && (r == [] || !IsSpace(r[|r| - 1]))
    ensures r == [] <==> AllSpace(s)
    ensures r == [] || (!IsSpace(r[0]) && !IsSpace(r[|r| - 1]))
    ensures a + |r| <= |s| && r == s[a..a + |r|] && AllSpace(s[a + |r|..])
  {
    assert s[a..a + |r|] == l[..|r|];
    assert s[a + |r|..] == l[|r|..];
    assert l != [] ==> l[0] == s[a];
    if r == [] {
      assert l[|r|..] == l;
      assert s == s[..a];
    }
  }

  /** `strings.TrimRight(s, cutset)` for a one-character cut set: every trailing `c` is removed. */
  function TrimRight(s: string, c: char): (r: string)
    ensures |r| <= |s| && r == s[..|r|]
    ensures forall i :: |r| <= i < |s| ==> s[i] == c
    ensures r == [] || r[|r| - 1] != c
    decreases |s|
  {
    if |s| > 0 && s[|s| - 1] == c then TrimRight(s[..|s| - 1], c) else s
  }

  /** `strings.Join` */
  function Join(parts: seq<string>, sep: string): string
  {
    if |parts| == 0 then ""
    else if |parts| == 1 then parts[0]
    else parts[0] + sep + Join(parts[1..], sep)
  }

  /** `strings.Split` on a one-character separator: the pieces between separators, at least one. */
  function Split(s: string, sep: char): (r: seq<string>)
    ensures |r| >= 1
    decreases |s|
  {
    if |s| == 0 then [""]
    else
      var rest := Split(s[1..], sep);
      if s[0] == sep then [""] + rest
      else [[s[0]] + rest[0]] + rest[1..]
  }

  /** No piece of `Split` holds the separator, and joining the pieces with it gives the input back. */
  lemma {:induction false} SplitSpec(s: string, sep: char)
    ensures forall i :: 0 <= i < |Split(s, sep)| ==> sep !in Split(s, sep)[i]
    ensures Join(Split(s, sep), [sep]) == s
    decreases |s|
  {
    if |s| > 0 {
      var rest := Split(s[1..], sep);
      SplitSpec(s[1..], sep);
      var r := Split(s, sep);
      if s[0] == sep {
        assert r[1..] == rest;
        assert Join(r, [sep]) == [sep] + Join(rest, [sep]);
        assert [sep] + s[1..] == s;
      } else {
        assert r[1..] == rest[1..];
        assert r[0] == [s[0]] + rest[0];
        if |rest| > 1 {
          assert Join(rest, [sep]) == rest[0] + [sep] + Join(rest[1..], [sep]);
        }
        assert Join(r, [sep]) == [s[0]] + Join(rest, [sep]);
        assert [s[0]] + s[1..] == s;
        forall i | 0 <= i < |r| ensures sep !in r[i] {
          if i == 0 {
            assert sep !in rest[0];
          } else {
            assert r[i] == rest[i];
          }
        }
      }
    }
  }

  /** A string without the separator is one piece. */
  lemma {:induction false} SplitNoSep(s: string, sep: char)
    requires sep !in s
    ensures Split(s, sep) == [s]
    decreases |s|
  {
    if |s| > 0 {
      assert sep !in s[1..] by {
        forall i | 0 <= i < |s[1..]| ensures s[1..][i] != sep {
          assert s[1..][i] == s[i + 1];
        }
      }
      SplitNoSep(s[1..], sep);
      assert [s[0]] + s[1..] == s;
    }
  }

  /** The first piece ends at the first separator; the rest is split on its own. */
  lemma {:induction false} SplitAtFirst(a: string, sep: char, b: string)
    requires sep !in a
    ensures Split(a + [sep] + b, sep) == [a] + Split(b, sep)
    decreases |a|
  {
    var s := a + [sep] + b;
    if |a| == 0 {
      assert s[1..] == b;
    } else {
      assert sep !in a[1..] by {
        forall i | 0 <= i < |a[1..]| ensures a[1..][i] != sep {
          assert a[1..][i] == a[i + 1];
        }
      }
      SplitAtFirst(a[1..], sep, b);
      assert s[1..] == a[1..] + [sep] + b;
      assert s[0] == a[0] != sep;
      assert [a[0]] + a[1..] == a;
    }
  }
}
