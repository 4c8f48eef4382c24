/** The plugin's label-wise wildcard comparison of domain names
    (`WildcardMatch` and `equal`). A `*` label stands for exactly one label
    on either side; this is deliberately simpler than the wildcard synthesis
    of RFC 4592. */
module Wildcard {
  import opened Strings

  /** The labels of a name, as dns.SplitDomainName yields them for names
      without escapes other than the root `.` (which `WildcardMatch`
      handles before splitting): the pieces between dots, minus the single
      empty piece a trailing dot leaves behind. */
  function Labels(name: string): (ls: seq<string>)
    ensures forall k :: 0 <= k < |ls| ==> Free(ls[k], '.')
  {
    DropTrailingEmpty(Split(name, '.'))
  }

  /** `parts` without its last element when that element is empty. */
  function DropTrailingEmpty(parts: seq<string>): (r: seq<string>)
    requires |parts| >= 1
    ensures r == parts || (r + [""] == parts)
  {
    if parts[|parts| - 1] == "" then parts[..|parts| - 1] else parts
  }

  /** Joining the labels with dots gives the name back, up to the trailing
      dot that was dropped. */
  lemma LabelsJoin(name: string)
    ensures Join(Labels(name), '.') == name || Join(Labels(name) + [""], '.') == name
  {
    JoinSplit(name, '.');
  }

  /** One label matches another when either is `*`, or when they agree
      letter for letter ignoring ASCII case. */
  predicate LabelEqual(a: string, b: string)
  {
    a == "*" || b == "*" || Lower(a) == Lower(b)
  }

  /** When two names match: either one is the root `.`, or both have the same
      number of labels and every pair of labels at the same position matches. */
  predicate Matches(s1: string, s2: string)
  {
    || s1 == "."
    || s2 == "."
    || (var l1, l2 := Labels(s1), Labels(s2);
        |l1| == |l2| && forall k :: 0 <= k < |l1| ==> LabelEqual(l1[k], l2[k]))
  }

  /** `equal`: the wildcard short-cut, then the length check, then a
      comparison of the letters from the last to the first with the 0x20 bit
      set on upper-case ASCII letters. */
  method Equal(a: string, b: string) returns (r: bool)
    ensures r <==> LabelEqual(a, b)
  {
    if b == "*" || a == "*" {
      return true;
    }
    if |a| != |b| {
      return false;
    }
    var i := |a| - 1;
    while i >= 0
      invariant -1 <= i < |a|
      invariant forall j :: i < j < |a| ==> LowerChar(a[j]) == LowerChar(b[j])
    {
      var ai := LowerChar(a[i]);
      var bi := LowerChar(b[i]);
      if ai != bi {
        assert Lower(a)[i] != Lower(b)[i];
        return false;
      }
      i := i - 1;
    }
    assert Lower(a) == Lower(b);
    return true;
  }

  /** `WildcardMatch`: the root short-cut, then the label counts, then the
      labels pairwise in order. */
  method WildcardMatch(s1: string, s2: string) returns (r: bool)
    ensures r <==> Matches(s1, s2)
    ensures s1 == "." || s2 == "." ==> r
    ensures |Labels(s1)| != |Labels(s2)| && s1 != "." && s2 != "." ==> !r
  {
    if s1 == "." || s2 == "." {
      return true;
    }
    var l1 := Labels(s1);
    var l2 := Labels(s2);
    if |l1| != |l2| {
      return false;
    }
    var i := 0;
    while i < |l1|
      invariant 0 <= i <= |l1|
      invariant forall j :: 0 <= j < i ==> LabelEqual(l1[j], l2[j])
    {
      var eq := Equal(l1[i], l2[i]);
      if !eq {
        return false;
      }
      i := i + 1;
    }
    return true;
  }

  /** Matching is symmetric: neither side is the pattern. */
  lemma MatchesSymmetric(s1: string, s2: string)
    ensures Matches(s1, s2) <==> Matches(s2, s1)
  {
  }

  /** Every name matches itself. */
  lemma MatchesReflexive(s: string)
    ensures Matches(s, s)
  {
  }

  /** Lowering a name does not change its labels other than lowering them. */
  lemma LabelsLower(s: string)
    ensures Labels(Lower(s)) == LowerAll(Labels(s))
  {
    SplitLower(s, '.');
    var parts := Split(s, '.');
    assert Lower(parts[|parts| - 1]) == "" <==> parts[|parts| - 1] == "";
    if parts[|parts| - 1] == "" {
      assert LowerAll(parts)[..|parts| - 1] == LowerAll(parts[..|parts| - 1]);
    }
  }

  /** Lowering either label does not change whether they match. */
  lemma LabelEqualLower(a: string, b: string)
    ensures LabelEqual(Lower(a), b) <==> LabelEqual(a, b)
    ensures LabelEqual(a, Lower(b)) <==> LabelEqual(a, b)
  {
    LowerIdempotent(a);
    LowerIdempotent(b);
    LowerSingle(a, '*');
    LowerSingle(b, '*');
  }

  /** A one-character caseless string is the lowering of itself only. */
  lemma LowerSingle(s: string, c: char)
    requires Caseless(c)
    ensures Lower(s) == [c] <==> s == [c]
  {
    if Lower(s) == [c] {
      assert Lower(s)[0] == LowerChar(s[0]);
      assert s == [s[0]];
    }
  }

  /** Lowering a name keeps it the root exactly when it was the root. */
  lemma LowerRoot(s: string)
    ensures Lower(s) == "." <==> s == "."
  {
    LowerSingle(s, '.');
  }

  /** Matching ignores ASCII case on either side. */
  lemma {:induction false} MatchesCaseInsensitive(s1: string, s2: string)
    ensures Matches(Lower(s1), s2) <==> Matches(s1, s2)
    ensures Matches(s1, Lower(s2)) <==> Matches(s1, s2)
  {
    LowerRoot(s1);
    LowerRoot(s2);
    LabelsLower(s1);
    LabelsLower(s2);
    var l1, l2 := Labels(s1), Labels(s2);
    forall k | 0 <= k < |l1| && k < |l2|
      ensures LabelEqual(Lower(l1[k]), l2[k]) <==> LabelEqual(l1[k], l2[k])
      ensures LabelEqual(l1[k], Lower(l2[k])) <==> LabelEqual(l1[k], l2[k])
    {
      LabelEqualLower(l1[k], l2[k]);
    }
  }

  /** A label without dots followed by a dot contributes exactly itself to
      the labels of the name. */
  lemma LabelsCons(x: string, rest: string)
    requires Free(x, '.')
    ensures Labels(x + "." + rest) == [x] + Labels(rest)
  {
    assert x + "." + rest == x + ['.'] + rest;
    SplitAppend(x, rest, '.');
    assert Split(x, '.') == [x];
    DropTrailingEmptyCons(x, Split(rest, '.'));
  }

  /** Dropping a trailing empty element only looks at the end of the list. */
  lemma DropTrailingEmptyCons(x: string, tail: seq<string>)
    requires |tail| >= 1
    ensures DropTrailingEmpty([x] + tail) == [x] + DropTrailingEmpty(tail)
  {
    var parts := [x] + tail;
    assert parts[|parts| - 1] == tail[|tail| - 1];
    if tail[|tail| - 1] == "" {
      assert parts[..|parts| - 1] == [x] + tail[..|tail| - 1];
    }
  }

  /** A leading `*` label matches any single leading label in front of the
      same remaining name. */
  lemma StarMatchesAnyLeadingLabel(x: string, rest: string)
    requires Free(x, '.')
    ensures Matches(x + "." + rest, "*." + rest)
  {
    LabelsCons(x, rest);
    assert "*." + rest == "*" + "." + rest;
    LabelsCons("*", rest);
    var lx, ls := Labels(x + "." + rest), Labels("*." + rest);
    forall k | 0 <= k < |lx|
      ensures LabelEqual(lx[k], ls[k])
    {
      if k > 0 {
        assert lx[k] == ls[k];
      }
    }
  }

  /** A `*` label absorbs exactly one label: a wildcard name never matches
      the name it was put in front of. */
  lemma StarNeverMatchesNoLabel(rest: string)
    requires rest != "."
    ensures !Matches(rest, "*." + rest)
  {
    assert "*." + rest == "*" + "." + rest;
    LabelsCons("*", rest);
  }

}
