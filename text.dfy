/**
 * The JavaScript string and array operations the pages rely on, restricted to
 * ASCII: `toLowerCase`, `includes`, `trim`, `split`, `join` and `filter`.
 */
module Text {

  /** ASCII `toLowerCase` of one character. */
  function LowerChar(c: char): char {
    if 'A' <= c <= 'Z' then (c as int + 32) as char else c
  }

  /** ASCII `toLowerCase` of a string. */
  function Lower(s: string): (r: string)
    ensures |r| == |s|
    ensures forall i :: 0 <= i < |r| ==> !('A' <= r[i] <= 'Z')
    ensures forall i :: 0 <= i < |s| && 'A' <= s[i] <= 'Z' ==> r[i] as int == s[i] as int + 32
    ensures forall i :: 0 <= i < |s| && !('A' <= s[i] <= 'Z') ==> r[i] == s[i]
  {
    seq(|s|, i requires 0 <= i < |s| => LowerChar(s[i]))
  }

  /** Lower-casing works character by character, so it distributes over concatenation. */
  lemma LowerAppend(a: string, b: string)
    ensures Lower(a + b) == Lower(a) + Lower(b)
  {
  }

  /** Lower-casing twice is lower-casing once. */
  lemma LowerIdempotent(s: string)
    ensures Lower(Lower(s)) == Lower(s)
  {
    assert forall i :: 0 <= i < |s| ==> Lower(Lower(s))[i] == Lower(s)[i];
  }

  predicate StartsWith(s: string, prefix: string) {
    |prefix| <= |s| && s[..|prefix|] == prefix
  }

  /** `part` occurs in `s` starting at index `i`. */
  predicate OccursAt(s: string, part: string, i: int) {
    0 <= i && i + |part| <= |s| && s[i..i + |part|] == part
  }

  /** `s.includes(part)`: some suffix of `s` starts with `part`. */
  predicate Contains(s: string, part: string)
    decreases |s|
  {
    StartsWith(s, part) || (|s| > 0 && Contains(s[1..], part))
  }

  /** Contains agrees with "occurs at some index". */
  lemma {:induction false} ContainsIff(s: string, part: string)
    ensures Contains(s, part) <==> exists i :: OccursAt(s, part, i)
    decreases |s|
  {
    if Contains(s, part) {
      if StartsWith(s, part) {
        assert OccursAt(s, part, 0);
      } else {
        ContainsIff(s[1..], part);
        var i :| OccursAt(s[1..], part, i);
        assert s[1..][i..i + |part|] == s[i + 1..i + 1 + |part|];
        assert OccursAt(s, part, i + 1);
      }
    }
    if exists i :: OccursAt(s, part, i) {
      var i :| OccursAt(s, part, i);
      if i == 0 {
        assert StartsWith(s, part);
      } else {
        assert s[1..][i - 1..i - 1 + |part|] == s[i..i + |part|];
        assert OccursAt(s[1..], part, i - 1);
        ContainsIff(s[1..], part);
      }
    }
  }

  /** The empty string is contained in every string, so an empty search matches everything. */
  lemma ContainsEmpty(s: string)
    ensures Contains(s, "")
  {
    assert StartsWith(s, "");
  }

  /** Case-insensitive `includes`, as the list pages compute it. */
  predicate ContainsIgnoringCase(s: string, part: string) {
    Contains(Lower(s), Lower(part))
  }

  /** Every string contains the empty string case-insensitively: an empty search box keeps everything. */
  lemma ContainsIgnoringCaseEmpty()
    ensures forall s :: ContainsIgnoringCase(s, "")
  {
    forall s: string
      ensures ContainsIgnoringCase(s, "")
    {
      ContainsEmpty(Lower(s));
    }
  }

  /** ASCII white space as `trim` and `parseInt` skip it (tab, line feed, vertical tab, form feed, carriage return, space). */
  predicate IsSpace(c: char) {
    c == ' ' || 9 <= c as int <= 13
  }

  /** A string with no white space at either end. */
  predicate IsTrimmed(s: string) {
    s == [] || (!IsSpace(s[0]) && !IsSpace(s[|s| - 1]))
  }

  /** `trimStart`: the longest suffix of `s` not starting with white space. */
  function TrimStart(s: string): (r: string)
    ensures |r| <= |s| && r == s[|s| - |r|..]
    ensures r == [] || !IsSpace(r[0])
    ensures forall k :: 0 <= k < |s| - |r| ==> IsSpace(s[k])
  {
    if s != [] && IsSpace(s[0]) then
      var r := TrimStart(s[1..]);
      TrimStartStep(s, s[1..], r);
      r
    else s
  }

  /** A suffix of the tail that only white space precedes is such a suffix of `s` when `s` opens with white space. */
  lemma TrimStartStep(s: string, tail: string, r: string)
    requires s != [] && IsSpace(s[0]) && tail == s[1..]
    requires |r| <= |tail| && r == tail[|tail| - |r|..]
    requires forall k :: 0 <= k < |tail| - |r| ==> IsSpace(tail[k])
    ensures r == s[|s| - |r|..]
    ensures forall k :: 0 <= k < |s| - |r| ==> IsSpace(s[k])
  {
    forall k | 1 <= k < |s| - |r|
      ensures IsSpace(s[k])
    {
      assert s[k] == tail[k - 1];
    }
  }

  /** `trimEnd`: the longest prefix of `s` not ending with white space. */
  function TrimEnd(s: string): (r: string)
    ensures |r| <= |s| && r == s[..|r|]
    ensures r == [] || !IsSpace(r[|r| - 1])
    ensures forall k :: |r| <= k < |s| ==> IsSpace(s[k])
  {
    if s != [] && IsSpace(s[|s| - 1]) then
      var r := TrimEnd(s[..|s| - 1]);
      TrimEndStep(s, s[..|s| - 1], r);
      r
    else s
  }

  /** A prefix of the front that only white space follows is such a prefix of `s` when `s` ends with white space. */
  lemma TrimEndStep(s: string, front: string, r: string)
    requires s != [] && IsSpace(s[|s| - 1]) && front == s[..|s| - 1]
    requires |r| <= |front| && r == front[..|r|]
    requires forall k :: |r| <= k < |front| ==> IsSpace(front[k])
    ensures r == s[..|r|]
    ensures forall k :: |r| <= k < |s| ==> IsSpace(s[k])
  {
    forall k | |r| <= k < |front|
      ensures IsSpace(s[k])
    {
      assert s[k] == front[k];
    }
  }

  /** `trim`: white space removed from both ends, nothing else touched. */
  function Trim(s: string): (r: string)
    ensures IsTrimmed(r)
    ensures forall c :: c in r ==> c in s
    ensures IsTrimmed(s) ==> r == s
  {
    var t := TrimStart(s);
    var r := TrimEnd(t);
    TrimBothEnds(s, t, r);
    r
  }

  /** Cutting white space from the front and then from the back leaves a trimmed run of `s`. */
  lemma TrimBothEnds(s: string, t: string, r: string)
    requires |t| <= |s| && t == s[|s| - |t|..] && (t == [] || !IsSpace(t[0]))
    requires forall k :: 0 <= k < |s| - |t| ==> IsSpace(s[k])
    requires |r| <= |t| && r == t[..|r|] && (r == [] || !IsSpace(r[|r| - 1]))
    requires forall k :: |r| <= k < |t| ==> IsSpace(t[k])
    ensures IsTrimmed(r)
    ensures forall c :: c in r ==> c in s
    ensures IsTrimmed(s) ==> r == s
  {
    if r != [] {
      assert r[0] == t[0];
    }
    forall c | c in r
      ensures c in s
    {
      var i :| 0 <= i < |r| && r[i] == c;
      assert s[|s| - |t| + i] == c;
    }
    if IsTrimmed(s) && s != [] {
      assert !IsSpace(s[0]);
      assert |s| - |t| == 0;
      assert t == s;
      assert !IsSpace(t[|t| - 1]);
      assert |t| - |r| == 0;
    }
  }

  /** `r` is the run of `s` starting at `i`, and only white space lies outside it. */
  predicate TrimmedAt(s: string, r: string, i: int) {
    && 0 <= i <= |s| - |r|
    && r == s[i..i + |r|]
    && (forall k :: 0 <= k < i ==> IsSpace(s[k]))
    && (forall k :: i + |r| <= k < |s| ==> IsSpace(s[k]))
  }

  /**
   * `trim` cuts a run out of `s` with only white space before and after it;
   * as that run neither starts nor ends with white space, it is the only such run.
   */
  lemma TrimIsSlice(s: string)
    ensures exists i :: TrimmedAt(s, Trim(s), i)
  {
    var t := TrimStart(s);
    var r := TrimEnd(t);
    assert Trim(s) == r;
    RunBetweenSpaces(s, t, r);
  }

  /** White space cut from the front of `s` and then from the back of what is left leaves a run of `s`. */
  lemma RunBetweenSpaces(s: string, t: string, r: string)
    requires |t| <= |s| && t == s[|s| - |t|..]
    requires forall k :: 0 <= k < |s| - |t| ==> IsSpace(s[k])
    requires |r| <= |t| && r == t[..|r|]
    requires forall k :: |r| <= k < |t| ==> IsSpace(t[k])
    ensures TrimmedAt(s, r, |s| - |t|)
  {
    var i := |s| - |t|;
    PrefixOfSuffix(s, t, r);
    forall k | i + |r| <= k < |s|
      ensures IsSpace(s[k])
    {
      assert s[k] == t[k - i];
    }
  }

  /** A prefix `r` of a suffix `t` of `s` is the run of `s` where `t` begins. */
  lemma PrefixOfSuffix<T>(s: seq<T>, t: seq<T>, r: seq<T>)
    requires |t| <= |s| && t == s[|s| - |t|..]
    requires |r| <= |t| && r == t[..|r|]
    ensures r == s[|s| - |t|..|s| - |t| + |r|]
    ensures forall k :: |s| - |t| <= k < |s| ==> s[k] == t[k - (|s| - |t|)]
  {
  }

  /** A leading space does not survive `trim`. */
  lemma TrimLeadingSpace(p: string)
    ensures Trim(" " + p) == Trim(p)
  {
    TrimStartSpace(p);
  }

  lemma TrimStartSpace(p: string)
    ensures TrimStart(" " + p) == TrimStart(p)
  {
    assert (" " + p)[1..] == p;
  }

  /** `s.split(sep)`: the pieces between occurrences of `sep`; the empty string gives one empty piece. */
  function Split(s: string, sep: char): (r: seq<string>)
    ensures |r| >= 1
    ensures forall piece :: piece in r ==> sep !in piece
    decreases |s|
  {
    if s == [] then [""]
    else
      var rest := Split(s[1..], sep);
      if s[0] == sep then [""] + rest
      else [[s[0]] + rest[0]] + rest[1..]
  }

  /** `xs.join(sep)`. */
  function Join(xs: seq<string>, sep: string): string
    decreases |xs|
  {
    if xs == [] then ""
    else if |xs| == 1 then xs[0]
    else xs[0] + sep + Join(xs[1..], sep)
  }

  /** With a non-empty separator, the join is empty only for no pieces or one empty piece. */
  lemma JoinEmptyIff(xs: seq<string>, sep: string)
    requires sep != ""
    ensures Join(xs, sep) == "" <==> xs == [] || xs == [""]
  {
    if |xs| == 1 {
      assert xs == [xs[0]];
    } else if |xs| > 1 {
      assert |Join(xs, sep)| >= |sep|;
    }
  }

  /** Splitting and re-joining with the same separator gives back the string. */
  lemma {:induction false} JoinSplit(s: string, sep: char)
    ensures Join(Split(s, sep), [sep]) == s
    decreases |s|
  {
    if s != [] {
      var rest := Split(s[1..], sep);
      JoinSplit(s[1..], sep);
      if s[0] == sep {
        assert Split(s, sep) == [""] + rest;
        assert ([""] + rest)[1..] == rest;
        assert s == "" + [sep] + s[1..];
      } else if |rest| == 1 {
        assert Split(s, sep) == [[s[0]] + rest[0]];
        assert s == [s[0]] + s[1..];
      } else {
        var first := [s[0]] + rest[0];
        assert Split(s, sep) == [first] + rest[1..];
        assert ([first] + rest[1..])[1..] == rest[1..];
        assert Join(rest, [sep]) == rest[0] + [sep] + Join(rest[1..], [sep]);
        assert s == [s[0]] + s[1..];
      }
    }
  }

  /** A string without the separator is a single piece. */
  lemma {:induction false} SplitWithoutSeparator(x: string, sep: char)
    requires sep !in x
    ensures Split(x, sep) == [x]
    decreases |x|
  {
    if x != [] {
      SplitWithoutSeparator(x[1..], sep);
      assert [x[0]] + x[1..] == x;
    }
  }

  /** The first separator ends the first piece. */
  lemma {:induction false} SplitAtSeparator(x: string, sep: char, t: string)
    requires sep !in x
    ensures Split(x + [sep] + t, sep) == [x] + Split(t, sep)
    decreases |x|
  {
    var s := x + [sep] + t;
    if x == [] {
      assert s[1..] == t;
    } else {
      assert s[1..] == x[1..] + [sep] + t;
      SplitAtSeparator(x[1..], sep, t);
      assert [x[0]] + x[1..] == x;
    }
  }

  /** `pieces.map(p => p.trim())`. */
  function MapTrim(pieces: seq<string>): (r: seq<string>)
    ensures |r| == |pieces|
    ensures forall i :: 0 <= i < |r| ==> r[i] == Trim(pieces[i])
  {
    seq(|pieces|, i requires 0 <= i < |pieces| => Trim(pieces[i]))
  }

  /**
   * Joining trimmed, comma-free entries with ", " and then splitting on ","
   * and trimming every piece gives the entries back; `pre` is the single
   * space that the separator leaves in front of every entry but the first.
   */
  lemma {:induction false} TrimmedPiecesOfJoin(pre: string, xs: seq<string>)
    requires pre == "" || pre == " "
    requires xs != []
    requires forall i :: 0 <= i < |xs| ==> IsTrimmed(xs[i]) && ',' !in xs[i]
    ensures MapTrim(Split(pre + Join(xs, ", "), ',')) == xs
    decreases |xs|
  {
    var head, tail := xs[0], xs[1..];
    assert IsTrimmed(head) && ',' !in head;
    if |xs| == 1 {
      assert xs == [head];
      TrimmedPiecesOfSingle(pre, head);
    } else {
      assert forall i :: 0 <= i < |tail| ==> tail[i] == xs[i + 1];
      TrimmedPiecesOfJoin(" ", tail);
      TrimmedPiecesOfCons(pre, xs);
    }
  }

  lemma TrimmedPiecesOfSingle(pre: string, x: string)
    requires pre == "" || pre == " "
    requires IsTrimmed(x) && ',' !in x
    ensures MapTrim(Split(pre + Join([x], ", "), ',')) == [x]
  {
    TrimAfterPrefix(pre, x);
    NoSeparatorAfterPrefix(pre, x);
    SplitWithoutSeparator(pre + x, ',');
    JoinSingle(pre, x);
    MapTrimSingle(pre + x);
  }

  lemma JoinSingle(pre: string, x: string)
    ensures pre + Join([x], ", ") == pre + x
  {
  }

  lemma MapTrimSingle(a: string)
    ensures MapTrim([a]) == [Trim(a)]
  {
  }

  lemma TrimmedPiecesOfCons(pre: string, xs: seq<string>)
    requires pre == "" || pre == " "
    requires |xs| > 1 && IsTrimmed(xs[0]) && ',' !in xs[0]
    requires MapTrim(Split(" " + Join(xs[1..], ", "), ',')) == xs[1..]
    ensures MapTrim(Split(pre + Join(xs, ", "), ',')) == xs
  {
    TrimAfterPrefix(pre, xs[0]);
    NoSeparatorAfterPrefix(pre, xs[0]);
    JoinShape(pre, xs);
    PiecesAfterFirst(pre + xs[0], " " + Join(xs[1..], ", "), xs[0], xs[1..]);
    HeadTail(xs);
  }

  /** A non-empty sequence is its head followed by its tail. */
  lemma HeadTail<T>(xs: seq<T>)
    requires xs != []
    ensures [xs[0]] + xs[1..] == xs
  {
  }

  /** `pre + xs.join(", ")` split around its first comma. */
  lemma JoinShape(pre: string, xs: seq<string>)
    requires |xs| > 1
    ensures pre + Join(xs, ", ") == (pre + xs[0]) + [','] + (" " + Join(xs[1..], ", "))
  {
    var rest := Join(xs[1..], ", ");
    assert Join(xs, ", ") == xs[0] + ", " + rest;
    JoinSeparated(pre, xs[0], rest);
  }

  lemma NoSeparatorAfterPrefix(pre: string, x: string)
    requires pre == "" || pre == " "
    requires ',' !in x
    ensures ',' !in pre + x
  {
  }

  lemma PiecesAfterFirst(first: string, t: string, x: string, ys: seq<string>)
    requires ',' !in first && Trim(first) == x
    requires MapTrim(Split(t, ',')) == ys
    ensures MapTrim(Split(first + [','] + t, ',')) == [x] + ys
  {
    SplitAtSeparator(first, ',', t);
    MapTrimCons(first, Split(t, ','));
  }

  /** The first entry, after the blank that may precede it, trims to itself. */
  lemma TrimAfterPrefix(pre: string, x: string)
    requires pre == "" || pre == " "
    requires IsTrimmed(x)
    ensures Trim(pre + x) == x
  {
    if pre == " " {
      TrimLeadingSpace(x);
      assert Trim(x) == x;
    } else {
      assert pre + x == x;
    }
  }

  /** Regrouping `pre + x + ", " + rest` around its first comma. */
  lemma JoinSeparated(pre: string, x: string, rest: string)
    ensures pre + (x + ", " + rest) == (pre + x) + [','] + (" " + rest)
  {
  }

  lemma MapTrimCons(a: string, b: seq<string>)
    ensures MapTrim([a] + b) == [Trim(a)] + MapTrim(b)
  {
  }

  /** `a` appears in `b` in order, possibly with gaps. */
  predicate IsSubsequence<T(==)>(a: seq<T>, b: seq<T>)
    decreases |b|
  {
    if a == [] then true
    else if b == [] then false
    else if a[0] == b[0] then IsSubsequence(a[1..], b[1..])
    else IsSubsequence(a, b[1..])
  }

  /**
   * `s.filter(keep)`: exactly the elements of `s` that pass `keep`, each as
   * often as in `s`, in their original order; when every element passes, `s`
   * itself.
   */
  function Filter<T(==,!new)>(s: seq<T>, keep: T -> bool): (r: seq<T>)
    ensures forall i :: 0 <= i < |r| ==> r[i] in s && keep(r[i])
    ensures forall i :: 0 <= i < |s| && keep(s[i]) ==> s[i] in r
    ensures IsSubsequence(r, s)
    ensures |r| <= |s|
    ensures (forall i :: 0 <= i < |s| ==> keep(s[i])) ==> r == s
    ensures forall x :: multiset(r)[x] == if keep(x) then multiset(s)[x] else 0
    decreases |s|
  {
    if s == [] then []
    else
      var rest := Filter(s[1..], keep);
      if keep(s[0]) then
        FilterKeepStep(s, keep, rest);
        [s[0]] + rest
      else
        FilterDropStep(s, keep, rest);
        rest
  }

  /** What `Filter` promises of `r` as the filtered `s`. */
  ghost predicate FilterOf<T(!new)>(r: seq<T>, s: seq<T>, keep: T -> bool) {
    && (forall i :: 0 <= i < |r| ==> r[i] in s && keep(r[i]))
    && (forall i :: 0 <= i < |s| && keep(s[i]) ==> s[i] in r)
    && IsSubsequence(r, s)
    && |r| <= |s|
    && ((forall i :: 0 <= i < |s| ==> keep(s[i])) ==> r == s)
    && (forall x :: multiset(r)[x] == if keep(x) then multiset(s)[x] else 0)
  }

  /** A kept head goes in front of the filtered tail. */
  lemma FilterKeepStep<T(!new)>(s: seq<T>, keep: T -> bool, rest: seq<T>)
    requires s != [] && keep(s[0])
    requires FilterOf(rest, s[1..], keep)
    ensures FilterOf([s[0]] + rest, s, keep)
  {
    var r := [s[0]] + rest;
    assert s == [s[0]] + s[1..];
    assert r[1..] == rest;
    assert multiset(s) == multiset{s[0]} + multiset(s[1..]);
    assert multiset(r) == multiset{s[0]} + multiset(rest);
  }

  /** A dropped head leaves the filtered tail as it is. */
  lemma FilterDropStep<T(!new)>(s: seq<T>, keep: T -> bool, rest: seq<T>)
    requires s != [] && !keep(s[0])
    requires FilterOf(rest, s[1..], keep)
    ensures FilterOf(rest, s, keep)
  {
    assert s == [s[0]] + s[1..];
    assert multiset(s) == multiset{s[0]} + multiset(s[1..]);
    assert rest != [] ==> rest[0] in rest;
  }
}
