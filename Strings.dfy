/**
 * String operations the Swift viewer and the Python generators rely on:
 * `String(repeating:count:)`, `padding(toLength:withPad:startingAt:)`,
 * `joined(separator:)`, `split(separator:)`, `contains`, `hasPrefix`,
 * Python's `str.replace`, `str.split('/')[-1]` and decimal formatting of
 * integers. Characters are Unicode scalar values.
 */
module Strings {

  /** `n` copies of the character `c`. */
  function Repeat(c: char, n: nat): (r: string)
    ensures |r| == n
    ensures forall i :: 0 <= i < n ==> r[i] == c
  {
    seq(n, _ => c)
  }

  /** `n` copies of the string `s` (Python's `s * n` for `n >= 0`). */
  function RepeatStr(s: string, n: nat): (r: string)
    ensures |r| == n * |s|
  {
    if n == 0 then [] else RepeatStr(s, n - 1) + s
  }

  lemma {:induction false} RepeatStrAdd(s: string, m: nat, n: nat)
    ensures RepeatStr(s, m + n) == RepeatStr(s, m) + RepeatStr(s, n)
    decreases n
  {
    if n > 0 {
      RepeatStrAdd(s, m, n - 1);
    }
  }

  /** A positive number of copies is one copy in front of the rest. */
  lemma RepeatStrCons(s: string, n: nat)
    requires n > 0
    ensures RepeatStr(s, n) == s + RepeatStr(s, n - 1)
  {
    RepeatStrAdd(s, 1, n - 1);
    assert RepeatStr(s, 1) == RepeatStr(s, 0) + s;
  }

  /** `n` copies of `a` then `m` of `b`, both ending with `p`, end with `p`. */
  lemma RepeatPairEnds(a: string, b: string, n: nat, m: nat, p: string)
    requires n + m > 0 && EndsWith(a, p) && EndsWith(b, p)
    ensures EndsWith(RepeatStr(a, n) + RepeatStr(b, m), p)
  {
    if m > 0 {
      assert RepeatStr(b, m) == RepeatStr(b, m - 1) + b;
      EndsWithTail(RepeatStr(a, n) + RepeatStr(b, m - 1), b, p);
      AppendAssoc(RepeatStr(a, n), RepeatStr(b, m - 1), b);
    } else {
      assert RepeatStr(a, n) == RepeatStr(a, n - 1) + a;
      EndsWithTail(RepeatStr(a, n - 1), a, p);
      assert RepeatStr(b, m) == [];
      assert RepeatStr(a, n) + RepeatStr(b, m) == RepeatStr(a, n);
    }
  }

  /** A text whose last part ends with `p` ends with `p`. */
  lemma EndsWithTail(front: string, last: string, p: string)
    requires EndsWith(last, p)
    ensures EndsWith(front + last, p)
  {
    var s := front + last;
    assert s[|s| - |p|..] == last[|last| - |p|..];
  }

  /** `n` copies of `a` then `m` of `b`, both starting with `c`, start with `c`. */
  lemma RepeatPairStarts(a: string, b: string, n: nat, m: nat, c: char)
    requires n + m > 0 && a != [] && b != [] && a[0] == c && b[0] == c
    ensures |RepeatStr(a, n) + RepeatStr(b, m)| > 0 && (RepeatStr(a, n) + RepeatStr(b, m))[0] == c
  {
    if n > 0 {
      RepeatStrAdd(a, 1, n - 1);
    } else {
      RepeatStrAdd(b, 1, m - 1);
    }
  }

  /**
   * Foundation's `padding(toLength: n, withPad: " ", startingAt: 0)`:
   * truncates to `n` characters or pads with spaces up to `n`.
   */
  function PadTo(s: string, n: nat): (r: string)
    ensures |r| == n
    ensures |s| >= n ==> r == s[..n]
    ensures |s| < n ==> r == s + Repeat(' ', n - |s|)
  {
    if |s| >= n then s[..n] else s + Repeat(' ', n - |s|)
  }

  /** The concatenation of all parts, in order. */
  function Concat(parts: seq<string>): (r: string)
  {
    if parts == [] then [] else Concat(parts[..|parts| - 1]) + parts[|parts| - 1]
  }

  lemma {:induction false} ConcatAppend(a: seq<string>, b: seq<string>)
    ensures Concat(a + b) == Concat(a) + Concat(b)
    decreases |b|
  {
    if b == [] {
      assert a + b == a;
    } else {
      var b' := b[..|b| - 1];
      var last := b[|b| - 1];
      assert (a + b)[..|a + b| - 1] == a + b';
      assert Concat(a + b) == Concat(a + b') + last;
      ConcatAppend(a, b');
      assert Concat(b) == Concat(b') + last;
      AppendAssoc(Concat(a), Concat(b'), last);
    }
  }

  lemma ConcatSingle(s: string)
    ensures Concat([s]) == s
  {
    assert [s][..0] == [];
  }

  /**
   * The texts (or segment lists) `f` gives for each element, concatenated in
   * order: a `for` loop appending to a string or an array.
   */
  function Each<T, U>(xs: seq<T>, f: T -> seq<U>): seq<U>
  {
    if xs == [] then [] else Each(xs[..|xs| - 1], f) + f(xs[|xs| - 1])
  }

  /** One more loop iteration appends one more text after what `h` already holds. */
  lemma EachStep<T, U>(h: seq<U>, xs: seq<T>, i: nat, f: T -> seq<U>)
    requires i < |xs|
    ensures h + Each(xs[..i + 1], f) == h + Each(xs[..i], f) + f(xs[i])
  {
    assert xs[..i + 1][..i] == xs[..i];
  }

  lemma {:induction false} EachAppend<T, U>(a: seq<T>, b: seq<T>, f: T -> seq<U>)
    ensures Each(a + b, f) == Each(a, f) + Each(b, f)
    decreases |b|
  {
    if b == [] {
      assert a + b == a;
    } else {
      var b' := b[..|b| - 1];
      assert (a + b)[..|a + b| - 1] == a + b';
      EachAppend(a, b', f);
    }
  }

  /** When `f` gives exactly one output per element, `Each` is the list of those outputs. */
  lemma {:induction false} EachSingles<T, U>(xs: seq<T>, f: T -> seq<U>)
    requires forall k :: 0 <= k < |xs| ==> |f(xs[k])| == 1
    ensures |Each(xs, f)| == |xs|
    ensures forall k :: 0 <= k < |xs| ==> Each(xs, f)[k] == f(xs[k])[0]
    decreases |xs|
  {
    if xs != [] {
      var n := |xs| - 1;
      var init := xs[..n];
      assert forall k :: 0 <= k < n ==> init[k] == xs[k];
      EachSingles(init, f);
      var r := Each(xs, f);
      assert r == Each(init, f) + f(xs[n]);
      forall k | 0 <= k < |xs|
        ensures r[k] == f(xs[k])[0]
      {
        if k < n {
          assert r[k] == Each(init, f)[k] == f(init[k])[0];
        }
      }
    }
  }

  /**
   * Like `Each`, for a rendering function that also takes the layout
   * `ctx` every element is rendered with.
   */
  function EachIn<C, T, U>(ctx: C, xs: seq<T>, f: (C, T) -> seq<U>): seq<U>
  {
    if xs == [] then [] else EachIn(ctx, xs[..|xs| - 1], f) + f(ctx, xs[|xs| - 1])
  }

  lemma EachInStep<C, T, U>(h: seq<U>, ctx: C, xs: seq<T>, i: nat, f: (C, T) -> seq<U>)
    requires i < |xs|
    ensures h + EachIn(ctx, xs[..i + 1], f) == h + EachIn(ctx, xs[..i], f) + f(ctx, xs[i])
  {
    assert xs[..i + 1][..i] == xs[..i];
  }

  lemma {:induction false} EachInAppend<C, T, U>(ctx: C, a: seq<T>, b: seq<T>, f: (C, T) -> seq<U>)
    ensures EachIn(ctx, a + b, f) == EachIn(ctx, a, f) + EachIn(ctx, b, f)
    decreases |b|
  {
    if b == [] {
      assert a + b == a;
    } else {
      var b' := b[..|b| - 1];
      assert (a + b)[..|a + b| - 1] == a + b';
      EachInAppend(ctx, a, b', f);
    }
  }

  lemma EachInMiddle<C, T, U>(ctx: C, a: seq<T>, x: T, b: seq<T>, f: (C, T) -> seq<U>)
    ensures EachIn(ctx, a + [x] + b, f) == EachIn(ctx, a, f) + f(ctx, x) + EachIn(ctx, b, f)
  {
    EachInAppend(ctx, a + [x], b, f);
    EachInAppend(ctx, a, [x], f);
    assert [x][..0] == [];
  }

  /** The output of element `k` sits between that of the elements before it and that of those after it. */
  lemma EachInAt<C, T, U>(ctx: C, xs: seq<T>, k: nat, f: (C, T) -> seq<U>)
    requires k < |xs|
    ensures EachIn(ctx, xs, f) == EachIn(ctx, xs[..k], f) + f(ctx, xs[k]) + EachIn(ctx, xs[k + 1..], f)
  {
    SplitAt(xs, k);
    EachInMiddle(ctx, xs[..k], xs[k], xs[k + 1..], f);
  }

  /** When `f` gives exactly one output per element, `EachIn` is the list of those outputs. */
  lemma {:induction false} EachInSingles<C, T, U>(ctx: C, xs: seq<T>, f: (C, T) -> seq<U>)
    requires forall k :: 0 <= k < |xs| ==> |f(ctx, xs[k])| == 1
    ensures |EachIn(ctx, xs, f)| == |xs|
    ensures forall k :: 0 <= k < |xs| ==> EachIn(ctx, xs, f)[k] == f(ctx, xs[k])[0]
    decreases |xs|
  {
    if xs != [] {
      var n := |xs| - 1;
      var init := xs[..n];
      assert forall k :: 0 <= k < n ==> init[k] == xs[k];
      EachInSingles(ctx, init, f);
      var r := EachIn(ctx, xs, f);
      assert r == EachIn(ctx, init, f) + f(ctx, xs[n]);
      forall k | 0 <= k < |xs|
        ensures r[k] == f(ctx, xs[k])[0]
      {
        if k < n {
          assert r[k] == EachIn(ctx, init, f)[k] == f(ctx, init[k])[0];
        }
      }
    }
  }

  /** A sequence is what comes before element `k`, that element, and what comes after it. */
  lemma SplitAt<U>(xs: seq<U>, k: nat)
    requires k < |xs|
    ensures xs == xs[..k] + [xs[k]] + xs[k + 1..]
  {
  }

  /** The outputs of `f` for `0`, `1`, ..., `n - 1`, in that order: a loop over row numbers. */
  function Stack<C, U>(ctx: C, n: nat, f: (C, nat) -> seq<U>): seq<U>
  {
    if n == 0 then [] else Stack(ctx, n - 1, f) + f(ctx, n - 1)
  }

  lemma StackStep<C, U>(h: seq<U>, ctx: C, n: nat, f: (C, nat) -> seq<U>)
    ensures h + Stack(ctx, n + 1, f) == h + Stack(ctx, n, f) + f(ctx, n)
  {
    AppendAssoc(h, Stack(ctx, n, f), f(ctx, n));
  }

  /** The first `k` outputs are the start of the first `n`. */
  lemma {:induction false} StackPrefix<C, U>(ctx: C, k: nat, n: nat, f: (C, nat) -> seq<U>)
    requires k <= n
    ensures |Stack(ctx, k, f)| <= |Stack(ctx, n, f)|
    ensures Stack(ctx, n, f)[..|Stack(ctx, k, f)|] == Stack(ctx, k, f)
    decreases n
  {
    if k < n {
      StackPrefix(ctx, k, n - 1, f);
      PrefixOfAppend(Stack(ctx, n - 1, f), f(ctx, n - 1), |Stack(ctx, k, f)|);
    }
  }

  /** Output `k` of `n` sits right after the outputs before it. */
  lemma StackAt<C, U>(ctx: C, k: nat, n: nat, f: (C, nat) -> seq<U>)
    requires k < n
    ensures |Stack(ctx, k, f)| + |f(ctx, k)| <= |Stack(ctx, n, f)|
    ensures Stack(ctx, n, f)[|Stack(ctx, k, f)|..|Stack(ctx, k, f)| + |f(ctx, k)|] == f(ctx, k)
  {
    StackPrefix(ctx, k + 1, n, f);
    var before := Stack(ctx, k, f);
    var all := Stack(ctx, n, f);
    assert all[..|before| + |f(ctx, k)|] == before + f(ctx, k);
    assert all[|before|..|before| + |f(ctx, k)|] == (before + f(ctx, k))[|before|..];
  }

  /**
   * Appending in two steps is appending the two parts at once. Stated on
   * plain sequences so that a caller need not look inside `b` or `c`.
   */
  lemma AppendAssoc<U>(a: seq<U>, b: seq<U>, c: seq<U>)
    ensures a + b + c == a + (b + c)
  {
  }

  /** The first `i + 1` elements hold what the first `i` hold and element `i`. */
  lemma PrefixGrows<U>(s: seq<U>, i: nat, u: U)
    requires i < |s|
    ensures u in s[..i + 1] <==> u in s[..i] || u == s[i]
  {
    assert s[..i + 1] == s[..i] + [s[i]];
  }

  /** The first `i + 1` elements are the first `i` and then element `i`. */
  lemma PrefixThenNext<U>(s: seq<U>, i: nat)
    requires i < |s|
    ensures s[..i] + [s[i]] == s[..i + 1]
  {
  }

  /** A non-empty sequence is its front followed by its last element. */
  lemma InitLast<U>(s: seq<U>)
    requires s != []
    ensures s[..|s| - 1] + [s[|s| - 1]] == s
  {
  }

  /** The part `x` of `front + (before + x + after)` is found right after `front` and `before`. */
  lemma SliceInMiddle<U>(front: seq<U>, before: seq<U>, x: seq<U>, after: seq<U>)
    ensures var r := front + (before + x + after);
      var at := |front| + |before|;
      at + |x| <= |r| && r[at..at + |x|] == x
  {
    var r := front + (before + x + after);
    assert r == (front + before) + x + after;
  }

  /** Element `i` of `a` keeps its place when `b` is appended. */
  lemma IndexInFront<U>(a: seq<U>, b: seq<U>, i: nat)
    requires i < |a|
    ensures i < |a + b| && (a + b)[i] == a[i]
  {
  }

  /** Element `j` of `b` sits at `|a| + j` once `a` is put in front. */
  lemma IndexInBack<U>(a: seq<U>, b: seq<U>, j: nat)
    requires j < |b|
    ensures |a| + j < |a + b| && (a + b)[|a| + j] == b[j]
  {
  }

  /** A prefix of `a + b` no longer than `a` is a prefix of `a`. */
  lemma PrefixOfAppend<U>(a: seq<U>, b: seq<U>, k: nat)
    requires k <= |a|
    ensures (a + b)[..k] == a[..k]
  {
  }

  /** `parts.joined(separator: sep)` / Python's `sep.join(parts)`. */
  function Join(parts: seq<string>, sep: string): (r: string)
  {
    if |parts| == 0 then []
    else if |parts| == 1 then parts[0]
    else Join(parts[..|parts| - 1], sep) + sep + parts[|parts| - 1]
  }

  /** Joining a list that starts with `a`. */
  lemma {:induction false} JoinCons(a: string, rest: seq<string>, sep: string)
    requires rest != []
    ensures Join([a] + rest, sep) == a + sep + Join(rest, sep)
    decreases |rest|
  {
    var p := [a] + rest;
    if |rest| > 1 {
      var init := rest[..|rest| - 1];
      var last := rest[|rest| - 1];
      assert p[..|p| - 1] == [a] + init;
      JoinCons(a, init, sep);
      calc {
        Join(p, sep);
        Join([a] + init, sep) + sep + last;
        a + sep + Join(init, sep) + sep + last;
        { AppendAssoc(a + sep, Join(init, sep), sep); AppendAssoc(a + sep, Join(init, sep) + sep, last); }
        a + sep + Join(rest, sep);
      }
    } else {
      assert p[..|p| - 1] == [a];
    }
  }

  lemma {:induction false} JoinStartsWithFirst(parts: seq<string>, sep: string)
    requires parts != []
    ensures |Join(parts, sep)| >= |parts[0]|
    decreases |parts|
  {
    if |parts| > 1 {
      JoinStartsWithFirst(parts[..|parts| - 1], sep);
    }
  }

  lemma JoinEndsWithLast(parts: seq<string>, sep: string)
    requires parts != []
    ensures |Join(parts, sep)| >= |parts[|parts| - 1]|
    ensures Join(parts, sep)[|Join(parts, sep)| - |parts[|parts| - 1]|..] == parts[|parts| - 1]
  {
  }

  /** A joined list ends with the last character of its last part. */
  lemma JoinLastChar(parts: seq<string>, sep: string)
    requires parts != [] && parts[|parts| - 1] != []
    ensures Join(parts, sep) != []
    ensures Join(parts, sep)[|Join(parts, sep)| - 1] == parts[|parts| - 1][|parts[|parts| - 1]| - 1]
  {
    JoinEndsWithLast(parts, sep);
    var j := Join(parts, sep);
    var last := parts[|parts| - 1];
    assert j[|j| - |last|..][|last| - 1] == j[|j| - 1];
  }

  /** A joined list starts with its first part. */
  lemma {:induction false} JoinStartsWith(parts: seq<string>, sep: string)
    requires parts != []
    ensures StartsWith(Join(parts, sep), parts[0])
    decreases |parts|
  {
    if |parts| > 1 {
      var init := parts[..|parts| - 1];
      JoinStartsWith(init, sep);
      var j := Join(init, sep);
      assert Join(parts, sep) == j + sep + parts[|parts| - 1];
      assert (j + sep + parts[|parts| - 1])[..|parts[0]|] == j[..|parts[0]|];
    }
  }

  /** `s.hasPrefix(p)` / Python's `s.startswith(p)`. */
  predicate StartsWith(s: string, p: string) {
    |p| <= |s| && s[..|p|] == p
  }

  /** `s.hasSuffix(p)` / Python's `s.endswith(p)`. */
  predicate EndsWith(s: string, p: string) {
    |p| <= |s| && s[|s| - |p|..] == p
  }

  /** `p` occurs in `s` at index `i`. */
  predicate OccursAt(s: string, p: string, i: int) {
    0 <= i && i + |p| <= |s| && s[i..i + |p|] == p
  }

  /** `s.contains(p)` / Python's `p in s`. */
  predicate Contains(s: string, p: string) {
    exists i :: 0 <= i <= |s| - |p| && OccursAt(s, p, i)
  }

  lemma ContainsConcatRight(a: string, b: string, p: string)
    requires Contains(b, p)
    ensures Contains(a + b, p)
  {
    var i :| 0 <= i <= |b| - |p| && OccursAt(b, p, i);
    var j := |a| + i;
    assert (a + b)[j..j + |p|] == b[i..i + |p|];
    assert OccursAt(a + b, p, j);
  }

  lemma ContainsConcatLeft(a: string, b: string, p: string)
    requires Contains(a, p)
    ensures Contains(a + b, p)
  {
    var i :| 0 <= i <= |a| - |p| && OccursAt(a, p, i);
    assert (a + b)[i..i + |p|] == a[i..i + |p|];
    assert OccursAt(a + b, p, i);
  }

  /** A text contains each middle part of a concatenation. */
  lemma ContainsMiddle(a: string, b: string, c: string)
    ensures Contains(a + b + c, b)
  {
    assert (a + b + c)[|a|..|a| + |b|] == b;
    assert OccursAt(a + b + c, b, |a|);
  }

  lemma ContainsSelf(p: string)
    ensures Contains(p, p)
  {
    assert OccursAt(p, p, 0);
  }

  lemma ContainsTrans(a: string, b: string, c: string)
    requires Contains(a, b) && Contains(b, c)
    ensures Contains(a, c)
  {
    var i :| 0 <= i <= |a| - |b| && OccursAt(a, b, i);
    var j :| 0 <= j <= |b| - |c| && OccursAt(b, c, j);
    assert a[i..i + |b|] == b;
    forall k | 0 <= k < |c| ensures a[i + j + k] == c[k] {
      assert a[i + (j + k)] == a[i..i + |b|][j + k] == b[j + k] == b[j..j + |c|][k];
    }
    assert a[i + j..i + j + |c|] == c;
    assert OccursAt(a, c, i + j);
  }

  /** Each element's text occurs in the concatenation of all of them. */
  lemma {:induction false} EachContains<T>(xs: seq<T>, k: nat, f: T -> string)
    requires k < |xs|
    ensures Contains(Each(xs, f), f(xs[k]))
    decreases |xs|
  {
    var init := xs[..|xs| - 1];
    var last := f(xs[|xs| - 1]);
    if k == |xs| - 1 {
      ContainsSelf(last);
      ContainsConcatRight(Each(init, f), last, last);
    } else {
      assert init[k] == xs[k];
      EachContains(init, k, f);
      ContainsConcatLeft(Each(init, f), last, f(xs[k]));
    }
  }

  /** Whether character `c` occurs in `s`. */
  predicate HasChar(s: string, c: char) {
    exists i :: 0 <= i < |s| && s[i] == c
  }

  /** Pieces that all lack `c` concatenate to a text that lacks `c`. */
  lemma {:induction false} EachLacks<T>(xs: seq<T>, f: T -> string, c: char)
    requires forall k :: 0 <= k < |xs| ==> !HasChar(f(xs[k]), c)
    ensures !HasChar(Each(xs, f), c)
    decreases |xs|
  {
    if xs != [] {
      var init := xs[..|xs| - 1];
      assert forall k :: 0 <= k < |init| ==> init[k] == xs[k];
      EachLacks(init, f, c);
      var a := Each(init, f);
      var b := f(xs[|xs| - 1]);
      forall i | 0 <= i < |a + b|
        ensures (a + b)[i] != c
      {
        if i < |a| {
          assert (a + b)[i] == a[i];
        } else {
          assert (a + b)[i] == b[i - |a|];
        }
      }
    }
  }

  // ---------------------------------------------------------------------------
  // Splitting on separator characters, dropping empty pieces
  // (Swift's `split(separator:)` with its default `omittingEmptySubsequences`).
  // ---------------------------------------------------------------------------

  /** Index of the first separator in `s`, or `|s|` if there is none. */
  function FirstSep(s: string, seps: set<char>): (r: nat)
    ensures r <= |s|
    ensures forall j :: 0 <= j < r ==> s[j] !in seps
    ensures r < |s| ==> s[r] in seps
  {
    if s == [] then 0 else if s[0] in seps then 0 else 1 + FirstSep(s[1..], seps)
  }

  /** The maximal non-empty runs of non-separator characters of `s`, in order. */
  function SplitWhere(s: string, seps: set<char>): (r: seq<string>)
    ensures forall k :: 0 <= k < |r| ==> r[k] != []
    ensures forall k, j :: 0 <= k < |r| && 0 <= j < |r[k]| ==> r[k][j] !in seps
    decreases |s|
  {
    var i := FirstSep(s, seps);
    if i == |s| then (if s == [] then [] else [s])
    else (if i == 0 then [] else [s[..i]]) + SplitWhere(s[i + 1..], seps)
  }

  /** A character absent from `s` is absent from every piece of it. */
  lemma {:induction false} SplitKeepsAbsent(s: string, seps: set<char>, c: char)
    requires !HasChar(s, c)
    ensures forall k :: 0 <= k < |SplitWhere(s, seps)| ==> !HasChar(SplitWhere(s, seps)[k], c)
    decreases |s|
  {
    var i := FirstSep(s, seps);
    if i < |s| {
      var t := s[i + 1..];
      assert !HasChar(t, c) by {
        forall j | 0 <= j < |t| ensures t[j] != c {
          assert t[j] == s[i + 1 + j];
        }
      }
      SplitKeepsAbsent(t, seps, c);
    }
  }

  /** A string without separators splits into itself (or nothing, if empty). */
  lemma SplitNoSep(w: string, seps: set<char>)
    requires forall j :: 0 <= j < |w| ==> w[j] !in seps
    ensures SplitWhere(w, seps) == (if w == [] then [] else [w])
  {
  }

  /** A string made of separators only splits into nothing. */
  lemma {:induction false} SplitOnlySeps(w: string, seps: set<char>)
    requires forall j :: 0 <= j < |w| ==> w[j] in seps
    ensures SplitWhere(w, seps) == []
    decreases |w|
  {
    if w != [] {
      SplitOnlySeps(w[1..], seps);
    }
  }

  /** Splitting distributes over a separator character. */
  lemma {:induction false} SplitAround(a: string, c: char, b: string, seps: set<char>)
    requires c in seps
    ensures SplitWhere(a + [c] + b, seps) == SplitWhere(a, seps) + SplitWhere(b, seps)
    decreases |a|
  {
    var s := a + [c] + b;
    var i := FirstSep(a, seps);
    if i == |a| {
      FirstSepAt(s, |a|, seps);
      assert s[..|a|] == a;
      assert s[|a| + 1..] == b;
      SplitNoSep(a, seps);
      assert SplitWhere(s, seps) == (if i == 0 then [] else [a]) + SplitWhere(b, seps);
    } else {
      FirstSepAt(s, i, seps);
      var head := if i == 0 then [] else [a[..i]];
      var rest := a[i + 1..];
      assert s[..i] == a[..i];
      assert s[i + 1..] == rest + [c] + b;
      assert SplitWhere(s, seps) == head + SplitWhere(rest + [c] + b, seps);
      assert SplitWhere(a, seps) == head + SplitWhere(rest, seps);
      SplitAround(rest, c, b, seps);
      AppendAssoc(head, SplitWhere(rest, seps), SplitWhere(b, seps));
    }
  }

  lemma FirstSepAt(s: string, i: nat, seps: set<char>)
    requires i < |s| && s[i] in seps
    requires forall j :: 0 <= j < i ==> s[j] !in seps
    ensures FirstSep(s, seps) == i
  {
  }

  /** Splitting a concatenation whose first part ends in a separator. */
  lemma SplitAroundStr(a: string, sep: string, b: string, seps: set<char>)
    requires |sep| == 1 && sep[0] in seps
    ensures SplitWhere(a + sep + b, seps) == SplitWhere(a, seps) + SplitWhere(b, seps)
  {
    assert sep == [sep[0]];
    SplitAround(a, sep[0], b, seps);
  }

  /** Splitting distributes over a run of separators (an indentation, say). */
  lemma SplitAfterSeps(w: string, b: string, seps: set<char>)
    requires forall j :: 0 <= j < |w| ==> w[j] in seps
    ensures SplitWhere(w + b, seps) == SplitWhere(b, seps)
  {
    if w != [] {
      var w' := w[..|w| - 1];
      assert w + b == w' + [w[|w| - 1]] + b;
      SplitAround(w', w[|w| - 1], b, seps);
      SplitOnlySeps(w', seps);
      assert [] + SplitWhere(b, seps) == SplitWhere(b, seps);
    } else {
      assert w + b == b;
    }
  }

  // ---------------------------------------------------------------------------
  // Python's str.replace(pat, repl): leftmost, non-overlapping occurrences.
  // ---------------------------------------------------------------------------

  function ReplaceAll(s: string, pat: string, repl: string): (r: string)
    requires pat != []
    decreases |s|
  {
    if |s| < |pat| then s
    else if s[..|pat|] == pat then repl + ReplaceAll(s[|pat|..], pat, repl)
    else [s[0]] + ReplaceAll(s[1..], pat, repl)
  }

  /** Replacing a pattern that does not occur changes nothing. */
  lemma {:induction false} ReplaceAbsent(s: string, pat: string, repl: string)
    requires pat != [] && !Contains(s, pat)
    ensures ReplaceAll(s, pat, repl) == s
    decreases |s|
  {
    if |s| >= |pat| {
      if s[..|pat|] == pat {
        assert OccursAt(s, pat, 0);
      }
      if Contains(s[1..], pat) {
        var i :| 0 <= i <= |s[1..]| - |pat| && OccursAt(s[1..], pat, i);
        assert s[1..][i..i + |pat|] == s[i + 1..i + 1 + |pat|];
        assert OccursAt(s, pat, i + 1);
      }
      ReplaceAbsent(s[1..], pat, repl);
    }
  }

  /** The per-character view of replacing a single character. */
  function ReplaceCharEach(s: string, c: char, repl: string): (r: string)
    decreases |s|
  {
    if s == [] then [] else (if s[0] == c then repl else [s[0]]) + ReplaceCharEach(s[1..], c, repl)
  }

  /** Replacing a one-character pattern rewrites each character on its own. */
  lemma {:induction false} ReplaceSingleChar(s: string, c: char, repl: string)
    ensures ReplaceAll(s, [c], repl) == ReplaceCharEach(s, c, repl)
    decreases |s|
  {
    if s != [] {
      ReplaceSingleChar(s[1..], c, repl);
    }
  }

  lemma {:induction false} ReplaceCharEachAppend(a: string, b: string, c: char, repl: string)
    ensures ReplaceCharEach(a + b, c, repl) == ReplaceCharEach(a, c, repl) + ReplaceCharEach(b, c, repl)
    decreases |a|
  {
    if a == [] {
      assert a + b == b;
    } else {
      assert (a + b)[0] == a[0];
      assert (a + b)[1..] == a[1..] + b;
      ReplaceCharEachAppend(a[1..], b, c, repl);
    }
  }

  lemma {:induction false} ReplaceCharEachAbsent(s: string, c: char, repl: string)
    requires !HasChar(s, c)
    ensures ReplaceCharEach(s, c, repl) == s
    decreases |s|
  {
    if s != [] {
      assert s[0] != c;
      ReplaceCharEachAbsent(s[1..], c, repl);
    }
  }

  /** Replacing a character by a single character keeps the length and changes only that character. */
  lemma {:induction false} ReplaceCharEachOne(s: string, c: char, d: char)
    ensures |ReplaceCharEach(s, c, [d])| == |s|
    ensures forall i :: 0 <= i < |s| ==> ReplaceCharEach(s, c, [d])[i] == if s[i] == c then d else s[i]
    decreases |s|
  {
    if s != [] {
      ReplaceCharEachOne(s[1..], c, d);
      var r := ReplaceCharEach(s, c, [d]);
      assert r[1..] == ReplaceCharEach(s[1..], c, [d]);
      forall i | 1 <= i < |s|
        ensures r[i] == if s[i] == c then d else s[i]
      {
        assert r[i] == r[1..][i - 1];
        assert s[1..][i - 1] == s[i];
      }
    }
  }

  /** A text with `p` appended ends with `p`. */
  lemma EndsWithAppend(a: string, p: string)
    ensures EndsWith(a + p, p)
  {
    assert (a + p)[|a|..] == p;
  }

  // ---------------------------------------------------------------------------
  // Python's `s.split(sep)[-1]`: the text after the last separator.
  // ---------------------------------------------------------------------------

  function AfterLast(s: string, sep: char): (r: string)
    ensures !HasChar(r, sep)
    ensures |r| <= |s| && r == s[|s| - |r|..]
    ensures |r| < |s| ==> s[|s| - |r| - 1] == sep
    decreases |s|
  {
    if s == [] then []
    else if s[|s| - 1] == sep then []
    else AfterLast(s[..|s| - 1], sep) + [s[|s| - 1]]
  }

  // ---------------------------------------------------------------------------
  // Decimal text of integers (Swift's "\(n)" and Python's str(n)).
  // ---------------------------------------------------------------------------

  function DigitChar(d: nat): char
    requires d < 10
  {
    "0123456789"[d]
  }

  function NatToString(n: nat): (r: string)
    ensures |r| >= 1
    ensures forall i :: 0 <= i < |r| ==> '0' <= r[i] <= '9'
    decreases n
  {
    if n < 10 then [DigitChar(n)] else NatToString(n / 10) + [DigitChar(n % 10)]
  }

  function IntToString(n: int): (r: string)
    ensures |r| >= 1
  {
    if n < 0 then "-" + NatToString(-n) else NatToString(n)
  }
}
