/** String helpers the prompt builder relies on: substring search (Python's
    `sub in s`), `sep.join(parts)` and `s.split(sep)`, with the lemmas that
    relate them. */
module Strings {

  /** `sub` occurs in `s` starting at index `i`. */
  predicate OccursAt(s: string, sub: string, i: nat)
  {
    i + |sub| <= |s| && forall j :: 0 <= j < |sub| ==> s[i + j] == sub[j]
  }

  /** Python's `sub in s`. */
  predicate Contains(s: string, sub: string)
  {
    exists i: nat | i <= |s| :: OccursAt(s, sub, i)
  }

  /** A text occurs at the start of anything it begins. */
  lemma OccursAtStart(s: string, b: string)
    ensures OccursAt(s + b, s, 0)
  {
    forall j | 0 <= j < |s| ensures (s + b)[0 + j] == s[j] {
    }
  }

  lemma OccursAtEnd(a: string, s: string)
    ensures OccursAt(a + s, s, |a|)
  {
    forall j | 0 <= j < |s| ensures (a + s)[|a| + j] == s[j] {
    }
  }

  lemma OccursWhole(s: string)
    ensures OccursAt(s, s, 0)
  {
  }

  /** `a` is the prefix of `a + b` and `b` the rest. */
  lemma PrefixThenSuffix(a: string, b: string)
    ensures (a + b)[..|a|] == a && (a + b)[|a|..] == b
  {
  }

  /** Appending text keeps an occurrence where it was. */
  lemma ExtendRight(x: string, y: string, sub: string, i: nat)
    requires OccursAt(x, sub, i)
    ensures OccursAt(x + y, sub, i)
  {
    forall j | 0 <= j < |sub| ensures (x + y)[i + j] == sub[j] {
      assert (x + y)[i + j] == x[i + j];
    }
  }

  /** Prepending text shifts an occurrence by the length of that text. */
  lemma ExtendLeft(x: string, y: string, sub: string, i: nat)
    requires OccursAt(y, sub, i)
    ensures OccursAt(x + y, sub, |x| + i)
  {
    forall j | 0 <= j < |sub| ensures (x + y)[|x| + i + j] == sub[j] {
      assert (x + y)[|x| + i + j] == y[i + j];
    }
  }

  /** A text lacking one of the characters of `sub` cannot contain `sub`. */
  lemma MissingCharExcludes(s: string, sub: string, c: char)
    requires c in sub && c !in s
    ensures !Contains(s, sub)
  {
  }

  /** A text shorter than `sub` cannot contain it. */
  lemma ShortExcludes(s: string, sub: string)
    requires |s| < |sub|
    ensures !Contains(s, sub)
  {
  }

  /** Gluing two texts free of `sub` creates no occurrence when the junction
      has a character that `sub` does not use on one side. */
  lemma GlueAtBarrier(a: string, b: string, sub: string)
    requires |sub| > 0
    requires !Contains(a, sub) && !Contains(b, sub)
    requires (|a| > 0 && a[|a| - 1] !in sub) || (|b| > 0 && b[0] !in sub)
    ensures !Contains(a + b, sub)
  {
    forall i: nat | i <= |a + b|
      ensures !OccursAt(a + b, sub, i)
    {
      if i + |sub| <= |a + b| {
        if i + |sub| <= |a| {
          assert !OccursAt(a, sub, i);
          var j :| 0 <= j < |sub| && a[i + j] != sub[j];
          assert (a + b)[i + j] == a[i + j];
        } else if i >= |a| {
          assert !OccursAt(b, sub, i - |a|);
          var j :| 0 <= j < |sub| && b[i - |a| + j] != sub[j];
          assert (a + b)[i + j] == b[i - |a| + j];
        } else if |a| > 0 && a[|a| - 1] !in sub {
          assert sub[|a| - 1 - i] in sub;
          assert (a + b)[i + (|a| - 1 - i)] == a[|a| - 1];
        } else {
          assert sub[|a| - i] in sub;
          assert (a + b)[i + (|a| - i)] == b[0];
        }
      }
    }
  }

  /** A prefix `a` in which the first character of `sub` never appears cannot
      start an occurrence, so every occurrence in `a + t` lies inside `t`. */
  lemma GlueAfterLabel(a: string, t: string, sub: string)
    requires |sub| > 0 && sub[0] !in a
    requires !Contains(t, sub)
    ensures !Contains(a + t, sub)
  {
    forall i: nat | i <= |a + t|
      ensures !OccursAt(a + t, sub, i)
    {
      if i + |sub| <= |a + t| {
        if i < |a| {
          assert (a + t)[i + 0] == a[i];
        } else {
          assert !OccursAt(t, sub, i - |a|);
          var j :| 0 <= j < |sub| && t[i - |a| + j] != sub[j];
          assert (a + t)[i + j] == t[i - |a| + j];
        }
      }
    }
  }

  /** Appending a line (a lead such as a field label, then a field) to text
      free of `sub` keeps it free of `sub`, when the lead opens with a
      character `sub` does not use and holds none that `sub` starts with. */
  lemma AppendLine(x: string, lead: string, field: string, sub: string)
    requires |sub| > 0 && |lead| > 0
    requires lead[0] !in sub && sub[0] !in lead
    requires !Contains(x, sub) && !Contains(field, sub)
    ensures !Contains(x + (lead + field), sub)
  {
    GlueAfterLabel(lead, field, sub);
    GlueAtBarrier(x, lead + field, sub);
  }

  /** Five texts free of `sub`, each after the first opening with a
      character `sub` does not use, concatenate to a text free of `sub`. */
  lemma AbsentFromFive(p0: string, p1: string, p2: string, p3: string, p4: string, sub: string)
    requires |sub| > 0
    requires !Contains(p0, sub) && !Contains(p1, sub) && !Contains(p2, sub)
    requires !Contains(p3, sub) && !Contains(p4, sub)
    requires |p1| > 0 && p1[0] !in sub && |p2| > 0 && p2[0] !in sub
    requires |p3| > 0 && p3[0] !in sub && |p4| > 0 && p4[0] !in sub
    ensures !Contains(p0 + p1 + p2 + p3 + p4, sub)
  {
    GlueAtBarrier(p0, p1, sub);
    GlueAtBarrier(p0 + p1, p2, sub);
    GlueAtBarrier(p0 + p1 + p2, p3, sub);
    GlueAtBarrier(p0 + p1 + p2 + p3, p4, sub);
  }

  /** An occurrence inside an occurrence is an occurrence. */
  lemma ContainsThrough(p: string, s: string, sub: string, k: nat)
    requires Contains(p, s) && OccursAt(s, sub, k)
    ensures Contains(p, sub)
  {
    var i: nat :| i <= |p| && OccursAt(p, s, i);
    forall j | 0 <= j < |sub| ensures p[i + k + j] == sub[j] {
      assert p[i + (k + j)] == s[k + j];
    }
    assert OccursAt(p, sub, i + k);
  }

  /** Dropping the first character of a text free of `sub` keeps it free. */
  lemma DropFirstKeepsAbsence(c: string, sub: string)
    requires |c| > 0 && !Contains(c, sub)
    ensures !Contains(c[1..], sub)
  {
    forall i: nat | i <= |c[1..]|
      ensures !OccursAt(c[1..], sub, i)
    {
      if i + |sub| <= |c[1..]| {
        assert !OccursAt(c, sub, i + 1);
        var j :| 0 <= j < |sub| && c[i + 1 + j] != sub[j];
        assert c[1..][i + j] == c[i + 1 + j];
      }
    }
  }

  /** Sum of the lengths of `parts`. */
  function TotalLength(parts: seq<string>): nat
  {
    if parts == [] then 0 else |parts[0]| + TotalLength(parts[1..])
  }

  /** Python's `sep.join(parts)`: the parts in order, one `sep` between each
      two neighbours, none before the first or after the last. */
  function Join(sep: string, parts: seq<string>): (r: string)
    ensures parts == [] ==> r == []
    ensures |parts| == 1 ==> r == parts[0]
    ensures |parts| > 0 ==> |r| == TotalLength(parts) + (|parts| - 1) * |sep|
  {
    if parts == [] then []
    else if |parts| == 1 then parts[0]
    else parts[0] + sep + Join(sep, parts[1..])
  }

  /** Python's `s.split(sep)` for a non-empty separator: cut at every
      occurrence of `sep`, scanning left to right without overlaps. */
  function Split(s: string, sep: string): (r: seq<string>)
    requires |sep| > 0
    ensures |r| > 0
    decreases |s|
  {
    if |s| < |sep| then [s]
    else if s[..|sep|] == sep then [[]] + Split(s[|sep|..], sep)
    else
      var rest := Split(s[1..], sep);
      [[s[0]] + rest[0]] + rest[1..]
  }

  /** No proper prefix of `sep` is also a suffix of it, so two occurrences of
      `sep` can never overlap (true of ", "). */
  predicate Borderless(sep: string)
  {
    forall k :: 0 < k < |sep| ==> sep[..k] != sep[|sep| - k..]
  }

  lemma {:induction false} SplitWithoutSeparator(c: string, sep: string)
    requires |sep| > 0 && !Contains(c, sep)
    ensures Split(c, sep) == [c]
    decreases |c|
  {
    if |c| >= |sep| {
      assert !OccursAt(c, sep, 0);
      assert c[..|sep|] != sep;
      DropFirstKeepsAbsence(c, sep);
      SplitWithoutSeparator(c[1..], sep);
      assert [c[0]] + c[1..] == c;
    }
  }

  /** Splitting `c + sep + t` cuts exactly at the separator written after `c`. */
  lemma {:induction false} SplitAfterPart(c: string, sep: string, t: string)
    requires |sep| > 0 && Borderless(sep) && !Contains(c, sep)
    ensures Split(c + sep + t, sep) == [c] + Split(t, sep)
    decreases |c|
  {
    var s := c + sep + t;
    if c == [] {
      assert s == sep + t;
      assert s[..|sep|] == sep;
      assert s[|sep|..] == t;
    } else {
      assert s[..|sep|] != sep by {
        if |c| >= |sep| {
          assert s[..|sep|] == c[0..|sep|];
          assert !OccursAt(c, sep, 0);
        } else {
          var k := |sep| - |c|;
          assert sep[..k] != sep[|sep| - k..];
          assert s[..|sep|][|c|..] == sep[..k];
          assert sep[|c|..] == sep[|sep| - k..];
        }
      }
      DropFirstKeepsAbsence(c, sep);
      assert s[1..] == c[1..] + sep + t;
      SplitAfterPart(c[1..], sep, t);
      assert [c[0]] + c[1..] == c;
    }
  }

  /** Splitting a join on the same separator gives the parts back, provided
      there is at least one part and no part contains the separator. */
  lemma {:induction false} SplitJoinRoundTrip(sep: string, parts: seq<string>)
    requires |sep| > 0 && Borderless(sep)
    requires |parts| > 0
    requires forall k :: 0 <= k < |parts| ==> !Contains(parts[k], sep)
    ensures Split(Join(sep, parts), sep) == parts
    decreases |parts|
  {
    if |parts| == 1 {
      SplitWithoutSeparator(parts[0], sep);
    } else {
      SplitAfterPart(parts[0], sep, Join(sep, parts[1..]));
      SplitJoinRoundTrip(sep, parts[1..]);
      assert [parts[0]] + parts[1..] == parts;
    }
  }

  /** Joining parts that do not contain `sub` does not create `sub` when the
      separator starts with a character `sub` does not use and holds no
      character that `sub` starts with. */
  lemma {:induction false} JoinExcludes(sep: string, parts: seq<string>, sub: string)
    requires |sub| > 0 && |sep| > 0
    requires sep[0] !in sub && sub[0] !in sep
    requires forall k :: 0 <= k < |parts| ==> !Contains(parts[k], sub)
    ensures !Contains(Join(sep, parts), sub)
    decreases |parts|
  {
    if |parts| > 1 {
      var rest := Join(sep, parts[1..]);
      JoinExcludes(sep, parts[1..], sub);
      GlueAfterLabel(sep, rest, sub);
      GlueAtBarrier(parts[0], sep + rest, sub);
      assert parts[0] + sep + rest == parts[0] + (sep + rest);
    } else if |parts| == 1 {
      assert !Contains(parts[0], sub);
    } else {
      assert !OccursAt([], sub, 0);
    }
  }
}
