/** String helpers shared by the resolver: locating a separator, splitting on
    it and joining back, and the ASCII case folding used for domain names.
    Strings are sequences of characters; the plugin works on Go strings, whose
    ASCII bytes are what every operation here inspects. */
module Strings {

  /** Position of the first `c` in `s`, or -1 when `s` has none, as Go's
      strings.IndexRune reports it. */
  function IndexOf(s: string, c: char): (r: int)
    ensures -1 <= r < |s|
    ensures r >= 0 ==> s[r] == c
    ensures forall j :: 0 <= j < |s| && (r < 0 || j < r) ==> s[j] != c
  {
    if |s| == 0 then -1
    else if s[0] == c then 0
    else
      var k := IndexOf(s[1..], c);
      if k < 0 then -1 else k + 1
  }

  /** The contract of IndexOf pins its result down: any position holding the
      first `c` is the one it returns. */
  lemma IndexOfIs(s: string, c: char, j: int)
    requires 0 <= j < |s| && s[j] == c && Free(s[..j], c)
    ensures IndexOf(s, c) == j
  {
    forall k | 0 <= k < j ensures s[k] != c {
      assert s[..j][k] == s[k];
    }
  }

  /** Concatenation of `parts` with `sep` between neighbours (Go's strings.Join). */
  function Join(parts: seq<string>, sep: char): string
  {
    if |parts| == 0 then ""
    else if |parts| == 1 then parts[0]
    else parts[0] + [sep] + Join(parts[1..], sep)
  }

  /** Go's strings.Split with a one-character separator: the pieces between
      separators, including empty ones; never an empty list. */
  function Split(s: string, sep: char): (parts: seq<string>)
    ensures |parts| >= 1
    ensures forall k :: 0 <= k < |parts| ==> Free(parts[k], sep)
    decreases |s|
  {
    var i := IndexOf(s, sep);
    if i < 0 then [s]
    else
      var head := s[..i];
      var rest := Split(s[i + 1..], sep);
      assert Free(head, sep) by {
        forall j | 0 <= j < |head| ensures head[j] != sep {
          assert head[j] == s[j];
        }
      }
      FreeCons(head, rest, sep);
      [head] + rest
  }

  /** Putting a piece free of `c` in front of pieces free of `c`. */
  lemma FreeCons(head: string, rest: seq<string>, c: char)
    requires Free(head, c)
    requires forall k :: 0 <= k < |rest| ==> Free(rest[k], c)
    ensures forall k :: 0 <= k < |rest| + 1 ==> Free(([head] + rest)[k], c)
  {
    forall k | 0 < k < |rest| + 1 ensures Free(([head] + rest)[k], c) {
      assert ([head] + rest)[k] == rest[k - 1];
    }
  }

  /** `s` does not contain `c`. */
  predicate Free(s: string, c: char)
  {
    forall j :: 0 <= j < |s| ==> s[j] != c
  }

  /** Joining the pieces back with the separator restores the string. */
  lemma {:induction false} JoinSplit(s: string, sep: char)
    ensures Join(Split(s, sep), sep) == s
    decreases |s|
  {
    var i := IndexOf(s, sep);
    if i >= 0 {
      var rest := Split(s[i + 1..], sep);
      JoinSplit(s[i + 1..], sep);
      assert ([s[..i]] + rest)[1..] == rest;
      assert s == s[..i] + [sep] + s[i + 1..];
    }
  }

  /** Splitting undoes joining, as long as no part holds the separator. */
  lemma {:induction false} SplitJoin(parts: seq<string>, sep: char)
    requires |parts| >= 1
    requires forall k :: 0 <= k < |parts| ==> Free(parts[k], sep)
    ensures Split(Join(parts, sep), sep) == parts
    decreases |parts|
  {
    if |parts| > 1 {
      var p := parts[0];
      var tail := Join(parts[1..], sep);
      var s := p + [sep] + tail;
      assert s[..|p|] == p;
      IndexOfIs(s, sep, |p|);
      assert s[|p| + 1..] == tail;
      SplitJoin(parts[1..], sep);
      assert parts == [p] + parts[1..];
    }
  }

  /** Splitting a concatenation around a separator splits each side. */
  lemma {:induction false} SplitAppend(a: string, b: string, sep: char)
    ensures Split(a + [sep] + b, sep) == Split(a, sep) + Split(b, sep)
    decreases |a|
  {
    var i := IndexOf(a, sep);
    if i < 0 {
      SplitAppendNoSep(a, b, sep);
    } else {
      var s := a + [sep] + b;
      assert s[..i] == a[..i];
      IndexOfIs(s, sep, i);
      assert s[i + 1..] == a[i + 1..] + [sep] + b;
      SplitAppend(a[i + 1..], b, sep);
      SplitAppendStep(a[..i], Split(a[i + 1..], sep), Split(b, sep));
    }
  }

  /** The base case of SplitAppend: `a` holds no separator. */
  lemma SplitAppendNoSep(a: string, b: string, sep: char)
    requires IndexOf(a, sep) < 0
    ensures Split(a + [sep] + b, sep) == Split(a, sep) + Split(b, sep)
  {
    var s := a + [sep] + b;
    assert s[..|a|] == a;
    IndexOfIs(s, sep, |a|);
    assert s[|a| + 1..] == b;
  }

  /** Regrouping the pieces in the inductive step of SplitAppend. */
  lemma SplitAppendStep(h: string, x: seq<string>, y: seq<string>)
    ensures [h] + (x + y) == ([h] + x) + y
  {
  }

  /** ASCII lower-casing of one character: an upper-case letter gets the
      0x20 bit set, which for 'A'..'Z' (0x41..0x5A, bit clear) adds 32;
      everything else is left alone. */
  function LowerChar(c: char): (r: char)
    ensures 'A' <= c <= 'Z' ==> 'a' <= r <= 'z' && r as int == c as int + 32
    ensures !('A' <= c <= 'Z') ==> r == c
  {
    if 'A' <= c <= 'Z' then (c as int + 0x20) as char else c
  }

  /** `s` with every ASCII upper-case letter lowered. */
  function Lower(s: string): (r: string)
    ensures |r| == |s|
  {
    seq(|s|, k requires 0 <= k < |s| => LowerChar(s[k]))
  }

  /** Every string of `ps`, lowered. */
  function LowerAll(ps: seq<string>): (r: seq<string>)
    ensures |r| == |ps|
  {
    seq(|ps|, k requires 0 <= k < |ps| => Lower(ps[k]))
  }

  /** Lowering leaves a string alone exactly when it has no upper-case
      ASCII letter. */
  lemma LowerFixed(s: string)
    ensures Lower(s) == s <==> forall j :: 0 <= j < |s| ==> !('A' <= s[j] <= 'Z')
  {
    if Lower(s) == s {
      forall j | 0 <= j < |s| ensures !('A' <= s[j] <= 'Z') {
        assert Lower(s)[j] == LowerChar(s[j]);
      }
    }
  }

  /** A character that is no ASCII letter is the image of itself only. */
  predicate Caseless(c: char)
  {
    !('A' <= c <= 'Z') && !('a' <= c <= 'z')
  }

  /** Lowering twice is lowering once. */
  lemma LowerIdempotent(s: string)
    ensures Lower(Lower(s)) == Lower(s)
  {
  }

  /** Lowering does not move a caseless separator. */
  lemma IndexOfLower(s: string, c: char)
    requires Caseless(c)
    ensures IndexOf(Lower(s), c) == IndexOf(s, c)
  {
    var i := IndexOf(s, c);
    if i >= 0 {
      assert Lower(s)[..i] == Lower(s[..i]);
      IndexOfIs(Lower(s), c, i);
    } else {
      forall k | 0 <= k < |s| ensures Lower(s)[k] != c {
        assert s[k] != c;
      }
    }
  }

  /** Splitting on a caseless separator commutes with lowering. */
  lemma {:induction false} SplitLower(s: string, sep: char)
    requires Caseless(sep)
    ensures Split(Lower(s), sep) == LowerAll(Split(s, sep))
    decreases |s|
  {
    var i := IndexOf(s, sep);
    IndexOfLower(s, sep);
    if i < 0 {
      assert LowerAll([s]) == [Lower(s)];
    } else {
      var rest := Split(s[i + 1..], sep);
      calc {
        Split(Lower(s), sep);
        [Lower(s)[..i]] + Split(Lower(s)[i + 1..], sep);
        { assert Lower(s)[..i] == Lower(s[..i]);
          assert Lower(s)[i + 1..] == Lower(s[i + 1..]); }
        [Lower(s[..i])] + Split(Lower(s[i + 1..]), sep);
        { SplitLower(s[i + 1..], sep); }
        [Lower(s[..i])] + LowerAll(rest);
        { LowerAllCons(s[..i], rest); }
        LowerAll([s[..i]] + rest);
      }
    }
  }

  /** Lowering a list distributes over its head and tail. */
  lemma LowerAllCons(p: string, ps: seq<string>)
    ensures LowerAll([p] + ps) == [Lower(p)] + LowerAll(ps)
  {
  }
}
