/**
 * The parts of java.lang.String that the modelled code relies on:
 * `contains`, `replace(CharSequence, CharSequence)` and `split` with a
 * one-character separator, together with the facts about them that the
 * rest of the model uses.
 */
module JavaStrings {

  /** `t` occurs in `s` starting at index `i`. */
  ghost predicate OccursAt(s: string, t: string, i: int)
  {
    0 <= i && i + |t| <= |s| && s[i..i + |t|] == t
  }

  /** String.contains: `t` is a contiguous part of `s`. */
  predicate Contains(s: string, t: string)
    decreases |s|
  {
    t <= s || (s != [] && Contains(s[1..], t))
  }

  /** Contains agrees with the positional definition of a substring. */
  lemma {:induction false} ContainsIffOccurs(s: string, t: string)
    ensures Contains(s, t) <==> exists i :: OccursAt(s, t, i)
    decreases |s|
  {
    if t <= s {
      assert OccursAt(s, t, 0);
    } else if s != [] {
      ContainsIffOccurs(s[1..], t);
      forall i | OccursAt(s[1..], t, i)
        ensures OccursAt(s, t, i + 1)
      {
        assert s[1..][i..i + |t|] == s[i + 1..i + 1 + |t|];
      }
      forall i | OccursAt(s, t, i)
        ensures OccursAt(s[1..], t, i - 1)
      {
        assert i != 0 by {
          assert s[0..|t|] == s[..|t|];
        }
        assert i - 1 + |t| <= |s[1..]|;
        var u, v := s[1..][i - 1..i - 1 + |t|], s[i..i + |t|];
        assert forall j :: 0 <= j < |t| ==> u[j] == v[j];
      }
    }
  }

  /**
   * String.replace(CharSequence, CharSequence) for a non-empty target:
   * occurrences are replaced from left to right without overlapping.
   */
  function Replace(s: string, target: string, replacement: string): string
    requires target != []
    decreases |s|
  {
    if target <= s then replacement + Replace(s[|target|..], target, replacement)
    else if s == [] then []
    else [s[0]] + Replace(s[1..], target, replacement)
  }

  /** Replacing a target that does not occur changes nothing. */
  lemma {:induction false} ReplaceAbsent(s: string, target: string, replacement: string)
    requires target != []
    requires !Contains(s, target)
    ensures Replace(s, target, replacement) == s
    decreases |s|
  {
    if s != [] {
      ReplaceAbsent(s[1..], target, replacement);
    }
  }

  /** Replacing one character by another acts position by position. */
  lemma {:induction false} ReplaceCharPointwise(s: string, c: char, d: char)
    ensures |Replace(s, [c], [d])| == |s|
    ensures forall i :: 0 <= i < |s| ==>
      Replace(s, [c], [d])[i] == if s[i] == c then d else s[i]
    decreases |s|
  {
    if s != [] {
      ReplaceCharPointwise(s[1..], c, d);
      assert [c] <= s <==> s[0] == c;
      assert s[|[c]|..] == s[1..];
    }
  }

  /** Splits `s` at every `c`; there is always one part more than there are separators. */
  function SplitAll(s: string, c: char): (parts: seq<string>)
    ensures |parts| > 0
    decreases |s|
  {
    if s == [] then [[]]
    else
      var rest := SplitAll(s[1..], c);
      if s[0] == c then [[]] + rest
      else [[s[0]] + rest[0]] + rest[1..]
  }

  /** No part produced by SplitAll contains the separator. */
  lemma {:induction false} SplitAllPartsFree(s: string, c: char)
    ensures forall i :: 0 <= i < |SplitAll(s, c)| ==> c !in SplitAll(s, c)[i]
    decreases |s|
  {
    if s != [] {
      SplitAllPartsFree(s[1..], c);
    }
  }

  /** Concatenates the parts with `sep` between consecutive ones. */
  function Join(parts: seq<string>, sep: string): string
  {
    if |parts| == 0 then []
    else if |parts| == 1 then parts[0]
    else parts[0] + sep + Join(parts[1..], sep)
  }

  /** Prefixing the first part prefixes the joined string. */
  lemma JoinPrepend(a: string, parts: seq<string>, sep: string)
    requires |parts| > 0
    ensures Join([a + parts[0]] + parts[1..], sep) == a + Join(parts, sep)
  {
    var q := [a + parts[0]] + parts[1..];
    if |parts| > 1 {
      assert q[1..] == parts[1..];
    }
  }

  /** Joining two non-empty lists of parts puts one separator between them. */
  lemma {:induction false} JoinAppend(a: seq<string>, b: seq<string>, sep: string)
    requires |a| > 0 && |b| > 0
    ensures Join(a + b, sep) == Join(a, sep) + sep + Join(b, sep)
    decreases |a|
  {
    if |a| == 1 {
      assert (a + b)[1..] == b;
    } else {
      assert (a + b)[1..] == a[1..] + b;
      JoinAppend(a[1..], b, sep);
    }
  }

  /** Replacing a single character is joining the split parts with the replacement. */
  lemma {:induction false} ReplaceCharAsJoin(s: string, c: char, replacement: string)
    ensures Replace(s, [c], replacement) == Join(SplitAll(s, c), replacement)
    decreases |s|
  {
    if s != [] {
      ReplaceCharAsJoin(s[1..], c, replacement);
      var rest := SplitAll(s[1..], c);
      assert s[|[c]|..] == s[1..];
      if s[0] == c {
        assert ([[]] + rest)[1..] == rest;
      } else {
        JoinPrepend([s[0]], rest, replacement);
      }
    }
  }

  /** Splitting at `c` and joining with `c` gives back the original string. */
  lemma JoinSplitAll(s: string, c: char)
    ensures Join(SplitAll(s, c), [c]) == s
  {
    ReplaceCharAsJoin(s, c, [c]);
    ReplaceCharPointwise(s, c, c);
  }

  /** Joining separator-free parts with a separator-free string yields a separator-free string. */
  lemma {:induction false} JoinFree(parts: seq<string>, sep: string, c: char)
    requires forall i :: 0 <= i < |parts| ==> c !in parts[i]
    requires c !in sep
    ensures c !in Join(parts, sep)
    decreases |parts|
  {
    if |parts| > 1 {
      JoinFree(parts[1..], sep, c);
    }
  }

  /** Replacing every `c` by a string without `c` leaves no `c` behind. */
  lemma ReplaceCharRemovesAll(s: string, c: char, replacement: string)
    requires c !in replacement
    ensures c !in Replace(s, [c], replacement)
  {
    ReplaceCharAsJoin(s, c, replacement);
    SplitAllPartsFree(s, c);
    JoinFree(SplitAll(s, c), replacement, c);
  }

  /** The number of occurrences of `c` in `s`. */
  function CountChar(s: string, c: char): nat
  {
    if s == [] then 0 else (if s[0] == c then 1 else 0) + CountChar(s[1..], c)
  }

  lemma {:induction false} CountCharAppend(x: string, y: string, c: char)
    ensures CountChar(x + y, c) == CountChar(x, c) + CountChar(y, c)
    decreases |x|
  {
    if x == [] {
      assert x + y == y;
    } else {
      assert (x + y)[1..] == x[1..] + y;
      CountCharAppend(x[1..], y, c);
    }
  }

  lemma {:induction false} CountCharAbsent(s: string, c: char)
    requires c !in s
    ensures CountChar(s, c) == 0
    decreases |s|
  {
    if s != [] {
      CountCharAbsent(s[1..], c);
    }
  }

  /** Joining n separator-free parts with `c` yields exactly n - 1 occurrences of `c`. */
  lemma {:induction false} CountCharJoin(parts: seq<string>, c: char)
    requires |parts| > 0
    requires forall i :: 0 <= i < |parts| ==> c !in parts[i]
    ensures CountChar(Join(parts, [c]), c) == |parts| - 1
    decreases |parts|
  {
    CountCharAbsent(parts[0], c);
    if |parts| > 1 {
      CountCharJoin(parts[1..], c);
      CountCharAppend(parts[0], [c], c);
      CountCharAppend(parts[0] + [c], Join(parts[1..], [c]), c);
    }
  }

  /** Drops the empty strings at the end of `parts`. */
  function StripTrailingEmpty(parts: seq<string>): (r: seq<string>)
    ensures r <= parts
    ensures r != [] ==> r[|r| - 1] != []
    ensures forall i :: |r| <= i < |parts| ==> parts[i] == []
  {
    if parts == [] then []
    else if parts[|parts| - 1] == [] then StripTrailingEmpty(parts[..|parts| - 1])
    else parts
  }

  /**
   * String.split with a one-character, non-special regular expression and
   * limit 0: a string without the separator is returned whole (even when it
   * is empty); otherwise all parts, with the trailing empty ones removed.
   */
  function JavaSplit(s: string, c: char): seq<string>
  {
    if c !in s then [s] else StripTrailingEmpty(SplitAll(s, c))
  }
}
