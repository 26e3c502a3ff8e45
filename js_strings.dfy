/** The JavaScript string and array operations the action relies on, with the
    exact semantics of `String.prototype.split` for a one-character separator,
    `Array.prototype.join`, `Array.prototype.filter`, `String.prototype.trim`,
    `String.prototype.endsWith` and `split(sep).pop()`. */
module JsStrings {

  /** `s.split(sep)`: every maximal run of non-separator characters, including
      the empty ones before, between and after separators. */
  function Split(s: string, sep: char): (r: seq<string>)
    ensures |r| >= 1
    ensures forall i :: 0 <= i < |r| ==> sep !in r[i]
    decreases |s|
  {
    if s == [] then [""]
    else if s[0] == sep then [""] + Split(s[1..], sep)
    else
      var rest := Split(s[1..], sep);
      [[s[0]] + rest[0]] + rest[1..]
  }

  /** `parts.join(sep)`; the empty array joins to the empty string. */
  function Join(parts: seq<string>, sep: char): string
  {
    if |parts| == 0 then ""
    else if |parts| == 1 then parts[0]
    else parts[0] + [sep] + Join(parts[1..], sep)
  }

  /** `s.split(sep).pop()`: the text after the last separator, or all of `s`. */
  function LastSegment(s: string, sep: char): string
  {
    var parts := Split(s, sep);
    parts[|parts| - 1]
  }

  /** `s.endsWith(suffix)` */
  predicate EndsWith(s: string, suffix: string)
  {
    |suffix| <= |s| && s[|s| - |suffix|..] == suffix
  }

  /** The characters `String.prototype.trim` removes: the ECMAScript
      WhiteSpace and LineTerminator productions. */
  predicate IsWhiteSpace(c: char)
  {
    || '\t' <= c <= '\r'
    || c == ' ' || c == '\U{00A0}' || c == '\U{1680}'
    || '\U{2000}' <= c <= '\U{200A}'
    || c == '\U{2028}' || c == '\U{2029}' || c == '\U{202F}'
    || c == '\U{205F}' || c == '\U{3000}' || c == '\U{FEFF}'
  }

  function TrimStart(s: string): (r: string)
    ensures r == [] || !IsWhiteSpace(r[0])
    ensures |r| <= |s| && r == s[|s| - |r|..] && IsBlank(s[..|s| - |r|])
  {
    if s != [] && IsWhiteSpace(s[0]) then TrimStart(s[1..]) else s
  }

  function TrimEnd(s: string): (r: string)
    ensures r == [] || !IsWhiteSpace(r[|r| - 1])
    ensures |r| <= |s| && r == s[..|r|] && IsBlank(s[|r|..])
  {
    if s != [] && IsWhiteSpace(s[|s| - 1]) then TrimEnd(s[..|s| - 1]) else s
  }

  /** `s.trim()` */
  function Trim(s: string): string
  {
    TrimEnd(TrimStart(s))
  }

  /** A string made of white space only (the empty string included). */
  predicate IsBlank(s: string)
  {
    forall i :: 0 <= i < |s| ==> IsWhiteSpace(s[i])
  }

  /** `xs.filter(keep)`: the elements `keep` accepts, in their original order,
      each with its original multiplicity. */
  function Filter<T>(xs: seq<T>, keep: T -> bool): (r: seq<T>)
    ensures |r| <= |xs|
  {
    if xs == [] then []
    else
      assert xs == [xs[0]] + xs[1..];
      (if keep(xs[0]) then [xs[0]] else []) + Filter(xs[1..], keep)
  }

  /** JavaScript truthiness of a string. */
  predicate NonEmpty(x: string)
  {
    x != ""
  }

  /** `args.filter((arg) => arg)` on strings: drops the empty strings. */
  function DropEmpty(xs: seq<string>): seq<string>
  {
    Filter(xs, NonEmpty)
  }

  /** The tokens produced by splitting every element of `xs` separately. */
  function SplitEach(xs: seq<string>, sep: char): seq<string>
  {
    if xs == [] then [] else Split(xs[0], sep) + SplitEach(xs[1..], sep)
  }

  // ---------------------------------------------------------------------
  // split / join

  lemma {:induction false} SplitNoSeparator(s: string, sep: char)
    requires sep !in s
    ensures Split(s, sep) == [s]
    decreases |s|
  {
    if s != [] {
      SplitNoSeparator(s[1..], sep);
      assert [s[0]] + s[1..] == s;
    }
  }

  /** Splitting at one separator occurrence splits the two sides apart. */
  lemma {:induction false} SplitAppend(a: string, b: string, sep: char)
    ensures Split(a + [sep] + b, sep) == Split(a, sep) + Split(b, sep)
    decreases |a|
  {
    var s := a + [sep] + b;
    if a == [] {
      assert s[1..] == b;
    } else {
      assert s[0] == a[0];
      assert s[1..] == a[1..] + [sep] + b;
      SplitAppend(a[1..], b, sep);
    }
  }

  /** Joining then splitting yields the tokens of each part, in order. */
  lemma {:induction false} SplitJoin(xs: seq<string>, sep: char)
    requires |xs| > 0
    ensures Split(Join(xs, sep), sep) == SplitEach(xs, sep)
    decreases |xs|
  {
    if |xs| == 1 {
      assert SplitEach(xs[1..], sep) == [];
    } else {
      SplitAppend(xs[0], Join(xs[1..], sep), sep);
      SplitJoin(xs[1..], sep);
    }
  }

  /** Parts free of the separator survive a join/split round trip unchanged. */
  lemma {:induction false} SplitEachIdentity(xs: seq<string>, sep: char)
    requires forall i :: 0 <= i < |xs| ==> sep !in xs[i]
    ensures SplitEach(xs, sep) == xs
    decreases |xs|
  {
    if xs != [] {
      SplitNoSeparator(xs[0], sep);
      SplitEachIdentity(xs[1..], sep);
      assert [xs[0]] + xs[1..] == xs;
    }
  }

  lemma {:induction false} SplitEachAppend(a: seq<string>, b: seq<string>, sep: char)
    ensures SplitEach(a + b, sep) == SplitEach(a, sep) + SplitEach(b, sep)
    decreases |a|
  {
    if a == [] {
      assert a + b == b;
    } else {
      assert (a + b)[0] == a[0];
      assert (a + b)[1..] == a[1..] + b;
      SplitEachAppend(a[1..], b, sep);
    }
  }

  /** The inverse round trip: joining the pieces of a split restores the string. */
  lemma {:induction false} JoinSplit(s: string, sep: char)
    ensures Join(Split(s, sep), sep) == s
    decreases |s|
  {
    if s != [] {
      var rest := Split(s[1..], sep);
      JoinSplit(s[1..], sep);
      if s[0] == sep {
        assert Split(s, sep)[1..] == rest;
        assert s == [sep] + s[1..];
      } else {
        var r := Split(s, sep);
        assert r[0] == [s[0]] + rest[0];
        assert r[1..] == rest[1..];
        if |rest| == 1 {
          assert s == [s[0]] + s[1..];
        } else {
          assert Join(r, sep) == [s[0]] + rest[0] + [sep] + Join(rest[1..], sep);
          assert s == [s[0]] + s[1..];
        }
      }
    }
  }

  /** A string that contains the separator is broken into several tokens. */
  lemma SplitBreaks(s: string, sep: char)
    requires sep in s
    ensures |Split(s, sep)| >= 2
  {
    JoinSplit(s, sep);
  }

  /** Splitting every element never loses an element: each yields at least
      one token. */
  lemma {:induction false} SplitEachLength(xs: seq<string>, sep: char)
    ensures |SplitEach(xs, sep)| >= |xs|
    decreases |xs|
  {
    if xs != [] {
      SplitEachLength(xs[1..], sep);
    }
  }

  /** An element holding the separator yields more tokens than elements. */
  lemma {:induction false} SplitEachGrows(xs: seq<string>, sep: char, i: nat)
    requires i < |xs| && sep in xs[i]
    ensures |SplitEach(xs, sep)| > |xs|
    decreases |xs|
  {
    if i == 0 {
      SplitBreaks(xs[0], sep);
      SplitEachLength(xs[1..], sep);
    } else {
      SplitEachGrows(xs[1..], sep, i - 1);
    }
  }

  // ---------------------------------------------------------------------
  // split(sep).pop()

  /** The last segment is a separator-free suffix of `s`, preceded by a
      separator unless it is the whole string. */
  lemma {:induction false} LastSegmentSuffix(s: string, sep: char)
    ensures var r := LastSegment(s, sep);
      && |r| <= |s| && s[|s| - |r|..] == r && sep !in r
      && (|r| < |s| ==> s[|s| - |r| - 1] == sep)
    decreases |s|
  {
    if s != [] {
      var t := s[1..];
      LastSegmentSuffix(t, sep);
      var r := LastSegment(s, sep);
      if s[0] == sep || |Split(t, sep)| > 1 {
        LastSegmentSkip(s, sep);
        assert s[|s| - |r|..] == t[|t| - |r|..];
        if |r| == |t| && s[0] != sep {
          assert r == t;
          SplitNoSeparator(t, sep);
        }
        if |r| < |t| {
          assert s[|s| - |r| - 1] == t[|t| - |r| - 1];
        }
      } else {
        LastSegmentWhole(s, sep);
      }
    }
  }

  /** After a separator, or when the rest still splits, the last segment is
      that of the rest. */
  lemma LastSegmentSkip(s: string, sep: char)
    requires s != [] && (s[0] == sep || |Split(s[1..], sep)| > 1)
    ensures LastSegment(s, sep) == LastSegment(s[1..], sep)
  {
  }

  /** When the rest does not split and `s` does not start with the
      separator, the whole of `s` is one segment. */
  lemma LastSegmentWhole(s: string, sep: char)
    requires s != [] && s[0] != sep && |Split(s[1..], sep)| == 1
    ensures LastSegment(s, sep) == s
  {
    var t := s[1..];
    JoinSplit(t, sep);
    var rest := Split(t, sep);
    assert rest == [rest[0]];
    assert [s[0]] + t == s;
  }

  /** `split(sep).pop()` is empty exactly when `s` is empty or ends with the
      separator: the two failure cases of artifact classification. */
  lemma LastSegmentEmpty(s: string, sep: char)
    ensures LastSegment(s, sep) == "" <==> (s == "" || s[|s| - 1] == sep)
  {
    LastSegmentSuffix(s, sep);
    var r := LastSegment(s, sep);
    if r != "" {
      assert s[|s| - 1] == r[|r| - 1];
    }
  }

  /** A string without the separator is its own last segment. */
  lemma LastSegmentNoSeparator(s: string, sep: char)
    requires sep !in s
    ensures LastSegment(s, sep) == s
  {
    SplitNoSeparator(s, sep);
  }

  // ---------------------------------------------------------------------
  // trim

  lemma {:induction false} TrimStartEmpty(s: string)
    ensures TrimStart(s) == "" <==> IsBlank(s)
    decreases |s|
  {
    if s != [] && IsWhiteSpace(s[0]) {
      TrimStartEmpty(s[1..]);
      assert forall i :: 1 <= i < |s| ==> s[i] == s[1..][i - 1];
    }
  }

  lemma {:induction false} TrimEndKeepsFirst(s: string)
    requires s != [] && !IsWhiteSpace(s[0])
    ensures TrimEnd(s) != ""
    decreases |s|
  {
    if IsWhiteSpace(s[|s| - 1]) {
      TrimEndKeepsFirst(s[..|s| - 1]);
    }
  }

  /** `s.trim() !== ''` holds exactly when `s` has a non-white-space character. */
  lemma TrimEmptyIffBlank(s: string)
    ensures Trim(s) == "" <==> IsBlank(s)
  {
    TrimStartEmpty(s);
    if TrimStart(s) != "" {
      TrimEndKeepsFirst(TrimStart(s));
    }
  }

  // ---------------------------------------------------------------------
  // filter

  /** Filtering distributes over concatenation: order is preserved. */
  lemma {:induction false} FilterAppend<T>(a: seq<T>, b: seq<T>, keep: T -> bool)
    ensures Filter(a + b, keep) == Filter(a, keep) + Filter(b, keep)
    decreases |a|
  {
    if a == [] {
      assert a + b == b;
    } else {
      var ab := a + b;
      assert ab[0] == a[0];
      assert ab[1..] == a[1..] + b;
      var head := if keep(a[0]) then [a[0]] else [];
      assert Filter(ab, keep) == head + Filter(ab[1..], keep);
      FilterAppend(a[1..], b, keep);
      assert Filter(a, keep) == head + Filter(a[1..], keep);
    }
  }

  /** Every element of a filtered sequence is accepted by `keep`. */
  lemma {:induction false} FilterAccepted<T>(xs: seq<T>, keep: T -> bool, i: nat)
    requires i < |Filter(xs, keep)|
    ensures keep(Filter(xs, keep)[i])
    decreases |xs|
  {
    if keep(xs[0]) && i == 0 {
    } else if keep(xs[0]) {
      FilterAccepted(xs[1..], keep, i - 1);
    } else {
      FilterAccepted(xs[1..], keep, i);
    }
  }

  /** Filtering drops everything when `keep` rejects every element. */
  lemma {:induction false} FilterDropsAll<T>(xs: seq<T>, keep: T -> bool)
    requires forall i :: 0 <= i < |xs| ==> !keep(xs[i])
    ensures Filter(xs, keep) == []
    decreases |xs|
  {
    if xs != [] {
      FilterDropsAll(xs[1..], keep);
    }
  }

  /** Two separator-free words joined by one separator split back apart. */
  lemma SplitTwo(a: string, b: string, sep: char)
    requires sep !in a && sep !in b
    ensures Split(a + [sep] + b, sep) == [a, b]
  {
    SplitAppend(a, b, sep);
    SplitNoSeparator(a, sep);
    SplitNoSeparator(b, sep);
  }

  /** One step of filtering, for sequences written out element by element. */
  lemma FilterCons<T>(x: T, xs: seq<T>, keep: T -> bool)
    ensures Filter([x] + xs, keep) == (if keep(x) then [x] else []) + Filter(xs, keep)
  {
    assert ([x] + xs)[1..] == xs;
  }

  /** Filtering keeps everything when `keep` accepts every element. */
  lemma {:induction false} FilterKeepsAll<T>(xs: seq<T>, keep: T -> bool)
    requires forall i :: 0 <= i < |xs| ==> keep(xs[i])
    ensures Filter(xs, keep) == xs
    decreases |xs|
  {
    if xs != [] {
      FilterKeepsAll(xs[1..], keep);
      assert [xs[0]] + xs[1..] == xs;
    }
  }

  /** Each value occurs in the filtered sequence exactly as often as in the
      input when `keep` accepts it, and not at all otherwise. */
  lemma {:induction false} FilterCount<T>(xs: seq<T>, keep: T -> bool, x: T)
    ensures multiset(Filter(xs, keep))[x] == if keep(x) then multiset(xs)[x] else 0
    decreases |xs|
  {
    if xs != [] {
      FilterCount(xs[1..], keep, x);
      assert xs == [xs[0]] + xs[1..];
    }
  }
}
