/**
 * The ordering every skill list of the project is shown in: rating
 * descending, then name ascending. Swift sorts with the comparator
 * `($0.rating, $1.name) > ($1.rating, $0.name)`, Python with the key
 * `(-rating, name)`; both are this order. Names compare code point by code
 * point. `SortBy` is a stable insertion sort over any record type with a
 * key, so equal keys keep their input order.
 */
module SkillOrder {
  import opened ResumeModels

  // ---------------------------------------------------------------------------
  // Lexicographic order on strings
  // ---------------------------------------------------------------------------

  predicate LexLe(a: string, b: string)
    decreases |a|
  {
    a == [] || (b != [] && (a[0] < b[0] || (a[0] == b[0] && LexLe(a[1..], b[1..]))))
  }

  lemma {:induction false} LexLeTotal(a: string, b: string)
    ensures LexLe(a, b) || LexLe(b, a)
    decreases |a|
  {
    if a != [] && b != [] && a[0] == b[0] {
      LexLeTotal(a[1..], b[1..]);
    }
  }

  lemma {:induction false} LexLeTrans(a: string, b: string, c: string)
    requires LexLe(a, b) && LexLe(b, c)
    ensures LexLe(a, c)
    decreases |a|
  {
    if a != [] && a[0] == b[0] && b[0] == c[0] {
      LexLeTrans(a[1..], b[1..], c[1..]);
    }
  }

  lemma {:induction false} LexLeAntisym(a: string, b: string)
    requires LexLe(a, b) && LexLe(b, a)
    ensures a == b
    decreases |a|
  {
    if a != [] {
      LexLeAntisym(a[1..], b[1..]);
      assert a == [a[0]] + a[1..];
      assert b == [b[0]] + b[1..];
    }
  }

  // ---------------------------------------------------------------------------
  // Sort keys: higher rank first, then name ascending
  // ---------------------------------------------------------------------------

  datatype SortKey = SortKey(rank: int, name: string)

  /** `x` may be listed before `y`. */
  predicate KeyLe(x: SortKey, y: SortKey) {
    x.rank > y.rank || (x.rank == y.rank && LexLe(x.name, y.name))
  }

  lemma KeyLeTotal(x: SortKey, y: SortKey)
    ensures KeyLe(x, y) || KeyLe(y, x)
  {
    LexLeTotal(x.name, y.name);
  }

  lemma KeyLeTrans(x: SortKey, y: SortKey, z: SortKey)
    requires KeyLe(x, y) && KeyLe(y, z)
    ensures KeyLe(x, z)
  {
    if x.rank == y.rank == z.rank {
      LexLeTrans(x.name, y.name, z.name);
    }
  }

  ghost predicate SortedBy<T>(s: seq<T>, key: T -> SortKey) {
    forall i, j :: 0 <= i < j < |s| ==> KeyLe(key(s[i]), key(s[j]))
  }

  /** Inserts `x` before the first element it may precede. */
  function Insert<T>(x: T, s: seq<T>, key: T -> SortKey): (r: seq<T>)
    ensures |r| == |s| + 1
    decreases |s|
  {
    if s == [] then [x]
    else if KeyLe(key(x), key(s[0])) then [x] + s
    else [s[0]] + Insert(x, s[1..], key)
  }

  lemma {:induction false} InsertSorted<T>(x: T, s: seq<T>, key: T -> SortKey)
    requires SortedBy(s, key)
    ensures SortedBy(Insert(x, s, key), key)
    ensures multiset(Insert(x, s, key)) == multiset(s) + multiset{x}
    decreases |s|
  {
    if s == [] {
    } else if KeyLe(key(x), key(s[0])) {
      var r := [x] + s;
      forall i, j | 0 <= i < j < |r| ensures KeyLe(key(r[i]), key(r[j])) {
        if i == 0 {
          if j > 1 {
            KeyLeTrans(key(x), key(s[0]), key(s[j - 1]));
          }
        }
      }
    } else {
      KeyLeTotal(key(x), key(s[0]));
      var t := Insert(x, s[1..], key);
      InsertSorted(x, s[1..], key);
      var r := [s[0]] + t;
      assert s == [s[0]] + s[1..];
      forall i, j | 0 <= i < j < |r| ensures KeyLe(key(r[i]), key(r[j])) {
        if i == 0 {
          assert r[j] in multiset(t);
          assert r[j] in multiset(s[1..]) + multiset{x};
          if r[j] in multiset(s[1..]) {
            var k :| 0 <= k < |s[1..]| && s[1..][k] == r[j];
            assert s[k + 1] == r[j];
          }
        }
      }
    }
  }

  /** A stable insertion sort: rank descending, then name ascending. */
  function SortBy<T>(s: seq<T>, key: T -> SortKey): (r: seq<T>)
    ensures |r| == |s|
    decreases |s|
  {
    if s == [] then [] else Insert(s[0], SortBy(s[1..], key), key)
  }

  /** The sorted list is ordered and is a permutation of its input. */
  lemma {:induction false} SortByCorrect<T>(s: seq<T>, key: T -> SortKey)
    ensures SortedBy(SortBy(s, key), key)
    ensures multiset(SortBy(s, key)) == multiset(s)
    ensures |SortBy(s, key)| == |s|
    decreases |s|
  {
    if s != [] {
      SortByCorrect(s[1..], key);
      InsertSorted(s[0], SortBy(s[1..], key), key);
      assert s == [s[0]] + s[1..];
    }
  }

  /**
   * Ratings the viewer can draw: its bars and star strings repeat a glyph
   * `rating` and `5 - rating` times, and `String(repeating:count:)` traps on
   * a negative count.
   */
  predicate RatingsDrawable(skills: seq<Skill>) {
    forall k :: 0 <= k < |skills| ==> 0 <= skills[k].rating <= 5
  }

  // ---------------------------------------------------------------------------
  // The orders of the viewer
  // ---------------------------------------------------------------------------

  /** Key of the Skills tab: rating descending, then name ascending. */
  function SkillKey(s: Skill): SortKey {
    SortKey(s.rating, s.name)
  }

  /** Key of the Overview's top-skill lists: rating only. */
  function RatingKey(s: Skill): SortKey {
    SortKey(s.rating, [])
  }

  /** `skills.sorted { ($0.rating, $1.name) > ($1.rating, $0.name) }`. */
  function SortSkills(skills: seq<Skill>): (r: seq<Skill>)
  {
    SortBy(skills, SkillKey)
  }

  /** The Skills tab order: a permutation, rating descending, ties by name ascending. */
  lemma SortSkillsOrdered(skills: seq<Skill>)
    ensures multiset(SortSkills(skills)) == multiset(skills) && |SortSkills(skills)| == |skills|
    ensures forall i, j :: 0 <= i < j < |skills| ==>
      var a, b := SortSkills(skills)[i], SortSkills(skills)[j];
      a.rating > b.rating || (a.rating == b.rating && LexLe(a.name, b.name))
  {
    SortByCorrect(skills, SkillKey);
  }

  /** `skills.sorted { $0.rating > $1.rating }.prefix(5)`. */
  function TopFive(skills: seq<Skill>): (r: seq<Skill>)
    ensures |r| == if |skills| < 5 then |skills| else 5
  {
    var sorted := SortBy(skills, RatingKey);
    SortByCorrect(skills, RatingKey);
    sorted[..if |sorted| < 5 then |sorted| else 5]
  }

  /**
   * The top-skill list holds skills of the input only, in non-increasing
   * rating order, and no skill left out rates higher than one kept. The
   * source leaves the order of equal ratings unspecified; this model keeps
   * their input order.
   */
  lemma TopFiveSelectsHighest(skills: seq<Skill>)
    ensures multiset(TopFive(skills)) <= multiset(skills)
    ensures forall i, j :: 0 <= i < j < |TopFive(skills)| ==>
      TopFive(skills)[i].rating >= TopFive(skills)[j].rating
    ensures forall x, t :: x in multiset(skills) - multiset(TopFive(skills)) && t in TopFive(skills) ==>
      x.rating <= t.rating
  {
    var sorted := SortBy(skills, RatingKey);
    SortByCorrect(skills, RatingKey);
    var n := if |sorted| < 5 then |sorted| else 5;
    assert TopFive(skills) == sorted[..n];
    RatingPrefix(sorted, n);
  }

  /** A prefix of a list sorted by rating holds its highest ratings, in order. */
  lemma RatingPrefix(sorted: seq<Skill>, n: nat)
    requires SortedBy(sorted, RatingKey) && n <= |sorted|
    ensures multiset(sorted[..n]) <= multiset(sorted)
    ensures forall i, j :: 0 <= i < j < n ==> sorted[..n][i].rating >= sorted[..n][j].rating
    ensures forall x, t :: x in multiset(sorted) - multiset(sorted[..n]) && t in sorted[..n] ==>
      x.rating <= t.rating
  {
    var r := sorted[..n];
    PrefixDominates(sorted, n, RatingKey);
    forall i, j | 0 <= i < j < n ensures r[i].rating >= r[j].rating {
      assert KeyLe(RatingKey(sorted[i]), RatingKey(sorted[j]));
    }
    forall x, t | x in multiset(sorted) - multiset(r) && t in r ensures x.rating <= t.rating {
      assert KeyLe(RatingKey(t), RatingKey(x));
    }
  }

  /** In a sorted list, every element of a prefix may precede every element after it. */
  lemma PrefixDominates<T>(sorted: seq<T>, n: nat, key: T -> SortKey)
    requires SortedBy(sorted, key) && n <= |sorted|
    ensures multiset(sorted[..n]) <= multiset(sorted)
    ensures forall x, t :: x in multiset(sorted) - multiset(sorted[..n]) && t in sorted[..n] ==>
      KeyLe(key(t), key(x))
  {
    var r := sorted[..n];
    assert sorted == r + sorted[n..];
    assert multiset(sorted) == multiset(r) + multiset(sorted[n..]);
    forall x, t | x in multiset(sorted) - multiset(r) && t in r
      ensures KeyLe(key(t), key(x))
    {
      assert x in multiset(sorted[n..]);
      var j :| 0 <= j < |sorted[n..]| && sorted[n..][j] == x;
      var i :| 0 <= i < |r| && r[i] == t;
      var tail := sorted[n..];
      assert tail[j] == sorted[n + j];
      assert sorted[i] == t;
    }
  }
}
