/**
 * The string operations of the .NET runtime that the core relies on, written
 * out on `seq<char>`: `String.Split(char)`, `String.Join(char, ...)`,
 * `String.Trim(char)`, `String.Contains(string)`, `String.Replace(s, "")`,
 * `String.ToLower()` on ASCII letters, and ordinal ordering by Dafny `char` (a Unicode scalar value, not a UTF-16 code unit).
 */
module StringUtil {

  // ---------------------------------------------------------------------
  // Split and Join
  // ---------------------------------------------------------------------

  /** `s.Split(sep)`: every piece between separators, empty pieces included. */
  function Split(s: string, sep: char): (r: seq<string>)
    ensures |r| >= 1
    ensures forall i :: 0 <= i < |r| ==> sep !in r[i]
    decreases |s|
  {
    if |s| == 0 then [""]
    else if s[0] == sep then [""] + Split(s[1..], sep)
    else
      var rest := Split(s[1..], sep);
      [[s[0]] + rest[0]] + rest[1..]
  }

  /** `String.Join(sep, ps)`: the pieces with one separator between neighbours. */
  function Join(ps: seq<string>, sep: char): string
  {
    if |ps| == 0 then ""
    else if |ps| == 1 then ps[0]
    else ps[0] + [sep] + Join(ps[1..], sep)
  }

  /** The text a writer produces by `WriteLine`-ing each line with terminator `t`. */
  function Terminated(ls: seq<string>, t: char): string
  {
    if |ls| == 0 then "" else ls[0] + [t] + Terminated(ls[1..], t)
  }

  ghost predicate Free(ps: seq<string>, c: char)
  {
    forall i :: 0 <= i < |ps| ==> c !in ps[i]
  }

  lemma {:induction false} SplitWithoutSeparator(s: string, sep: char)
    requires sep !in s
    ensures Split(s, sep) == [s]
    decreases |s|
  {
    if |s| > 0 {
      SplitWithoutSeparator(s[1..], sep);
      assert [s[0]] + s[1..] == s;
    }
  }

  lemma {:induction false} SplitAtFirstSeparator(a: string, rest: string, sep: char)
    requires sep !in a
    ensures Split(a + [sep] + rest, sep) == [a] + Split(rest, sep)
    decreases |a|
  {
    var s := a + [sep] + rest;
    if |a| == 0 {
      assert s[0] == sep && s[1..] == rest;
    } else {
      assert s[0] == a[0] && s[1..] == a[1..] + [sep] + rest;
      SplitAtFirstSeparator(a[1..], rest, sep);
      assert [a[0]] + a[1..] == a;
    }
  }

  /** Splitting a join followed by one more separator gives the pieces back, then the rest. */
  lemma {:induction false} SplitJoinThen(ps: seq<string>, rest: string, sep: char)
    requires |ps| >= 1 && Free(ps, sep)
    ensures Split(Join(ps, sep) + [sep] + rest, sep) == ps + Split(rest, sep)
    decreases |ps|
  {
    if |ps| == 1 {
      assert ps == [ps[0]];
      assert Join(ps, sep) == ps[0];
      SplitAtFirstSeparator(ps[0], rest, sep);
      assert ps + Split(rest, sep) == [ps[0]] + Split(rest, sep);
    } else {
      var head, more := ps[0], ps[1..];
      assert [head] + more == ps;
      assert sep !in head && Free(more, sep) by {
        assert forall i :: 0 <= i < |more| ==> more[i] == ps[i + 1];
      }
      var tail := Join(more, sep) + [sep] + rest;
      assert Join(ps, sep) == head + [sep] + Join(more, sep);
      assert Join(ps, sep) + [sep] + rest == head + [sep] + tail;
      SplitAtFirstSeparator(head, tail, sep);
      SplitJoinThen(more, rest, sep);
      var after := Split(rest, sep);
      assert Split(Join(ps, sep) + [sep] + rest, sep) == [head] + (more + after);
      ConcatAssoc([head], more, after);
    }
  }

  lemma {:induction false} ConcatAssoc<T>(a: seq<T>, b: seq<T>, c: seq<T>)
    ensures a + (b + c) == (a + b) + c
  {
  }

  /** Split is the inverse of Join on pieces that do not contain the separator. */
  lemma {:induction false} SplitJoin(ps: seq<string>, sep: char)
    requires |ps| >= 1 && Free(ps, sep)
    ensures Split(Join(ps, sep), sep) == ps
    decreases |ps|
  {
    if |ps| == 1 {
      SplitWithoutSeparator(ps[0], sep);
    } else {
      SplitAtFirstSeparator(ps[0], Join(ps[1..], sep), sep);
      SplitJoin(ps[1..], sep);
      assert [ps[0]] + ps[1..] == ps;
    }
  }

  lemma {:induction false} JoinFree(ps: seq<string>, sep: char, c: char)
    requires Free(ps, c) && sep != c
    ensures c !in Join(ps, sep)
    decreases |ps|
  {
    if |ps| > 1 {
      JoinFree(ps[1..], sep, c);
    }
  }

  lemma {:induction false} JoinFirst(ps: seq<string>, sep: char)
    requires |ps| >= 1 && |ps[0]| >= 1
    ensures |Join(ps, sep)| >= 1 && Join(ps, sep)[0] == ps[0][0]
  {
  }

  lemma {:induction false} JoinLast(ps: seq<string>, sep: char)
    requires |ps| >= 1 && |ps[|ps| - 1]| >= 1
    ensures var j := Join(ps, sep); |j| >= 1 && j[|j| - 1] == ps[|ps| - 1][|ps[|ps| - 1]| - 1]
    decreases |ps|
  {
    if |ps| > 1 {
      JoinLast(ps[1..], sep);
    }
  }

  lemma {:induction false} TerminatedSnoc(ls: seq<string>, l: string, t: char)
    ensures Terminated(ls + [l], t) == Terminated(ls, t) + l + [t]
    decreases |ls|
  {
    if |ls| == 0 {
      assert Terminated([l], t) == l + [t] + Terminated([], t);
    } else {
      assert (ls + [l])[1..] == ls[1..] + [l];
      TerminatedSnoc(ls[1..], l, t);
    }
  }

  /** A text of terminated lines is the lines joined by the terminator, plus one more. */
  lemma {:induction false} TerminatedIsJoin(ls: seq<string>, t: char)
    requires |ls| >= 1
    ensures Terminated(ls, t) == Join(ls, t) + [t]
    decreases |ls|
  {
    if |ls| > 1 {
      TerminatedIsJoin(ls[1..], t);
    }
  }

  // ---------------------------------------------------------------------
  // Trim
  // ---------------------------------------------------------------------

  /** `s.TrimStart(c)`: the suffix left after dropping every leading `c`. */
  function TrimStart(s: string, c: char): (r: string)
    ensures |r| <= |s| && r == s[|s| - |r|..]
    ensures forall k :: 0 <= k < |s| - |r| ==> s[k] == c
    ensures r == [] || r[0] != c
  {
    if |s| > 0 && s[0] == c then TrimStart(s[1..], c) else s
  }

  /** `s.TrimEnd(c)`: the prefix left after dropping every trailing `c`. */
  function TrimEnd(s: string, c: char): (r: string)
    ensures |r| <= |s| && r == s[..|r|]
    ensures forall k :: |r| <= k < |s| ==> s[k] == c
    ensures r == [] || r[|r| - 1] != c
  {
    if |s| > 0 && s[|s| - 1] == c then TrimEnd(s[..|s| - 1], c) else s
  }

  /** `s.Trim(c)`: both ends. */
  function Trim(s: string, c: char): string
  {
    TrimEnd(TrimStart(s, c), c)
  }

  /** Trimming a text that starts with another character and ends in one terminator removes just that terminator. */
  lemma {:induction false} TrimOneTerminator(j: string, c: char)
    requires |j| >= 1 && j[0] != c && j[|j| - 1] != c
    ensures Trim(j + [c], c) == j
  {
    var s := j + [c];
    assert TrimStart(s, c) == s;
    assert s[..|s| - 1] == j;
  }

  // ---------------------------------------------------------------------
  // Contains and Replace
  // ---------------------------------------------------------------------

  /** `s.Contains(sub)` with ordinal comparison: `sub` occurs at some position. */
  function Contains(s: string, sub: string): (r: bool)
    ensures r <==> exists i :: 0 <= i <= |s| && sub <= s[i..]
    decreases |s|
  {
    if sub <= s then
      assert s[0..] == s;
      true
    else if |s| == 0 then false
    else
      var t := Contains(s[1..], sub);
      assert t ==> exists i :: 0 <= i <= |s| && sub <= s[i..] by {
        if t {
          var j :| 0 <= j <= |s[1..]| && sub <= s[1..][j..];
          assert s[1..][j..] == s[j + 1..];
        }
      }
      assert (exists i :: 0 <= i <= |s| && sub <= s[i..]) ==> t by {
        if exists i :: 0 <= i <= |s| && sub <= s[i..] {
          var i :| 0 <= i <= |s| && sub <= s[i..];
          assert i != 0;
          assert s[1..][i - 1..] == s[i..];
        }
      }
      t
  }

  /**
   * `s.Replace(pat, "")`: every non-overlapping occurrence of `pat`, scanned
   * left to right, removed. .NET rejects an empty `pat`.
   */
  function RemoveAll(s: string, pat: string): (r: string)
    requires |pat| > 0
    ensures |r| <= |s|
    decreases |s|
  {
    if pat <= s then RemoveAll(s[|pat|..], pat)
    else if |s| == 0 then ""
    else [s[0]] + RemoveAll(s[1..], pat)
  }

  /** A string without `pat` is left as it is. */
  lemma {:induction false} RemoveAllAbsent(s: string, pat: string)
    requires |pat| > 0 && !Contains(s, pat)
    ensures RemoveAll(s, pat) == s
    decreases |s|
  {
    assert s[0..] == s;
    if |s| > 0 {
      forall i | 0 <= i <= |s[1..]|
        ensures !(pat <= s[1..][i..])
      {
        assert s[1..][i..] == s[i + 1..];
      }
      RemoveAllAbsent(s[1..], pat);
      assert [s[0]] + s[1..] == s;
    }
  }

  /** Removing `pat` from `a + pat` gives `a` back when no occurrence of `pat` starts inside `a`. */
  lemma {:induction false} RemoveAllTrailing(a: string, pat: string)
    requires |pat| > 0
    requires forall i :: 0 <= i < |a| ==> !(pat <= (a + pat)[i..])
    ensures RemoveAll(a + pat, pat) == a
    decreases |a|
  {
    var b := a + pat;
    if |a| == 0 {
      assert b == pat;
      assert b[|pat|..] == [];
    } else {
      assert b[0..] == b;
      assert !(pat <= b);
      assert RemoveAll(b, pat) == [b[0]] + RemoveAll(b[1..], pat);
      assert b[1..] == a[1..] + pat;
      forall i | 0 <= i < |a[1..]|
        ensures !(pat <= (a[1..] + pat)[i..])
      {
        assert (a[1..] + pat)[i..] == b[i + 1..];
      }
      RemoveAllTrailing(a[1..], pat);
      assert a == [a[0]] + a[1..];
    }
  }

  /** Where `base` is free of `ext`, no occurrence of `ext` starts inside `base + [sep]`. */
  lemma {:induction false} NoOccurrenceBeforeSuffix(base: string, sep: char, ext: string, i: int)
    requires |ext| > 0 && sep !in ext && !Contains(base, ext)
    requires 0 <= i <= |base|
    ensures !(ext <= (base + [sep] + ext)[i..])
  {
    var b := base + [sep] + ext;
    if i + |ext| <= |base| {
      assert b[i..i + |ext|] == base[i..i + |ext|];
      assert !(ext <= base[i..]);
      assert ext <= base[i..] <==> ext == base[i..i + |ext|];
    } else {
      var k := |base| - i;
      assert b[|base|] == sep;
      assert b[i..][k] == sep;
      assert ext[k] != sep;
    }
  }

  /**
   * With a separator that `ext` lacks, and a `base` free of `ext`, the only
   * occurrence of `ext` in `base + [sep] + ext` is the trailing one.
   */
  lemma {:induction false} RemoveAllAfterSeparator(base: string, sep: char, ext: string)
    requires |ext| > 0 && sep !in ext && !Contains(base, ext)
    ensures RemoveAll(base + [sep] + ext, ext) == base + [sep]
    ensures Contains(base + [sep] + ext, [sep] + ext)
  {
    var a := base + [sep];
    assert a + ext == base + [sep] + ext;
    forall i | 0 <= i < |a|
      ensures !(ext <= (a + ext)[i..])
    {
      NoOccurrenceBeforeSuffix(base, sep, ext, i);
    }
    RemoveAllTrailing(a, ext);
    assert (base + [sep] + ext)[|base|..] == [sep] + ext;
  }

  // ---------------------------------------------------------------------
  // ToLower
  // ---------------------------------------------------------------------

  function LowerChar(c: char): char
  {
    if 'A' <= c <= 'Z' then (c as int + 32) as char else c
  }

  /** `s.ToLower()` for the ASCII letters, the only ones the core lower-cases. */
  function ToLower(s: string): (r: string)
    ensures |r| == |s|
    ensures forall i :: 0 <= i < |s| ==> r[i] == LowerChar(s[i])
  {
    if |s| == 0 then "" else [LowerChar(s[0])] + ToLower(s[1..])
  }

  // ---------------------------------------------------------------------
  // Ordinal order
  // ---------------------------------------------------------------------

  /** Ordinal string comparison: `a` sorts strictly before `b`, `char` by `char`. */
  predicate Below(a: string, b: string)
    decreases |a|
  {
    if |a| == 0 then |b| > 0
    else if |b| == 0 then false
    else if a[0] < b[0] then true
    else if a[0] == b[0] then Below(a[1..], b[1..])
    else false
  }

  /** `a` sorts before `b` or is equal to it. */
  predicate AtMost(a: string, b: string)
  {
    a == b || Below(a, b)
  }

  lemma {:induction false} BelowIrreflexive(a: string)
    ensures !Below(a, a)
    decreases |a|
  {
    if |a| > 0 {
      BelowIrreflexive(a[1..]);
    }
  }

  lemma {:induction false} BelowAsymmetric(a: string, b: string)
    requires Below(a, b)
    ensures !Below(b, a)
    decreases |a|
  {
    if |a| > 0 && |b| > 0 && a[0] == b[0] {
      BelowAsymmetric(a[1..], b[1..]);
    }
  }

  lemma {:induction false} BelowTransitive(a: string, b: string, c: string)
    requires Below(a, b) && Below(b, c)
    ensures Below(a, c)
    decreases |a|
  {
    if |a| > 0 && a[0] == b[0] && b[0] == c[0] {
      BelowTransitive(a[1..], b[1..], c[1..]);
    }
  }

  lemma {:induction false} BelowTotal(a: string, b: string)
    requires a != b
    ensures Below(a, b) || Below(b, a)
    decreases |a|
  {
    if |a| > 0 && |b| > 0 && a[0] == b[0] {
      assert a == [a[0]] + a[1..] && b == [b[0]] + b[1..];
      BelowTotal(a[1..], b[1..]);
    }
  }

  lemma {:induction false} AtMostTotal(a: string, b: string)
    ensures AtMost(a, b) || AtMost(b, a)
  {
    if a != b {
      BelowTotal(a, b);
    }
  }

  lemma {:induction false} AtMostTransitive(a: string, b: string, c: string)
    requires AtMost(a, b) && AtMost(b, c)
    ensures AtMost(a, c)
  {
    if a != b && b != c {
      BelowTransitive(a, b, c);
    }
  }

  lemma {:induction false} AtMostAntisymmetric(a: string, b: string)
    requires AtMost(a, b) && AtMost(b, a)
    ensures a == b
  {
    if a != b {
      BelowAsymmetric(a, b);
    }
  }
}
