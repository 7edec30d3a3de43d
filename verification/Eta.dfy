/**
 fitEtaSeconds (api/app/static/app.js:83-93): an upper bound on how long a song takes, from the runs that are
 done. Exact arithmetic.
 */
module Eta {
  import opened Prelude

  /** frames and seconds are None where they are not a finite number; a missing mtime is 0. */
  datatype Run = Run(frames: Option<real>, seconds: Option<real>, mtime: real)

  predicate Counts(r: Run) {
    r.seconds.Some? && r.seconds.value > 0.0 && r.frames.Some? && r.frames.value > 0.0
  }

  /** Seconds for one frame. */
  function Rate(r: Run): real {
    if Counts(r) then r.seconds.value / r.frames.value else 0.0
  }

  function Age(r: Run): real {
    -r.mtime
  }

  function Self(x: real): real {
    x
  }

  function Map<T, U>(f: T -> U, s: seq<T>): (m: seq<U>)
    ensures |m| == |s| && forall i :: 0 <= i < |s| ==> m[i] == f(s[i])
  {
    seq(|s|, i requires 0 <= i < |s| => f(s[i]))
  }

  function First<T>(s: seq<T>, n: nat): seq<T> {
    if |s| <= n then s else s[..n]
  }

  function Done(history: seq<Run>): seq<Run> {
    if history == [] then []
    else if Counts(history[0]) then [history[0]] + Done(history[1..])
    else Done(history[1..])
  }

  lemma {:induction false} DoneCounts(history: seq<Run>)
    ensures forall r :: r in Done(history) ==> Counts(r)
  {
    if history != [] {
      DoneCounts(history[1..]);
    }
  }

  // ---- the sort: stable, by a key ----

  function Insert<T>(x: T, s: seq<T>, key: T -> real): (r: seq<T>)
    ensures |r| == |s| + 1
  {
    if s == [] || key(x) <= key(s[0]) then [x] + s else [s[0]] + Insert(x, s[1..], key)
  }

  function Sort<T>(s: seq<T>, key: T -> real): (r: seq<T>)
    ensures |r| == |s|
  {
    if s == [] then [] else Insert(s[0], Sort(s[1..], key), key)
  }

  predicate Ordered<T>(s: seq<T>, key: T -> real) {
    |s| >= 2 ==> key(s[0]) <= key(s[1]) && Ordered(s[1..], key)
  }

  lemma {:induction false} OrderedMeans<T>(s: seq<T>, key: T -> real)
    ensures Ordered(s, key) <==> forall i, j :: 0 <= i < j < |s| ==> key(s[i]) <= key(s[j])
  {
    if |s| >= 2 {
      var t := s[1..];
      OrderedMeans(t, key);
      if Ordered(s, key) {
        forall i, j | 0 <= i < j < |s| ensures key(s[i]) <= key(s[j]) {
          assert s[j] == t[j - 1] && t[0] == s[1];
          if i > 0 {
            assert s[i] == t[i - 1];
          }
        }
      } else if key(s[0]) <= key(s[1]) {
        var i, j :| 0 <= i < j < |t| && key(t[i]) > key(t[j]);
        assert key(s[i + 1]) > key(s[j + 1]);
      }
    }
  }

  lemma {:induction false} InsertAdds<T>(x: T, s: seq<T>, key: T -> real)
    ensures multiset(Insert(x, s, key)) == multiset(s) + multiset{x}
  {
    if s != [] && key(x) > key(s[0]) {
      InsertAdds(x, s[1..], key);
      assert s == [s[0]] + s[1..];
    }
  }

  lemma {:induction false} InsertOrders<T>(x: T, s: seq<T>, key: T -> real)
    requires Ordered(s, key)
    ensures Ordered(Insert(x, s, key), key)
  {
    if s != [] && key(x) > key(s[0]) {
      InsertOrders(x, s[1..], key);
      assert Insert(x, s, key)[1..] == Insert(x, s[1..], key);
    } else if s != [] {
      assert Insert(x, s, key)[1..] == s;
    }
  }

  lemma {:induction false} SortOrders<T>(s: seq<T>, key: T -> real)
    ensures Ordered(Sort(s, key), key) && multiset(Sort(s, key)) == multiset(s)
  {
    if s != [] {
      SortOrders(s[1..], key);
      InsertOrders(s[0], Sort(s[1..], key), key);
      InsertAdds(s[0], Sort(s[1..], key), key);
      assert s == [s[0]] + s[1..];
    }
  }

  /** f keeps the order of the keys. */
  ghost predicate KeepsOrder<T(!new), U>(f: T -> U, key: T -> real, to: U -> real) {
    forall x, y :: key(x) <= key(y) <==> to(f(x)) <= to(f(y))
  }

  lemma {:induction false} InsertMaps<T(!new), U>(x: T, s: seq<T>, f: T -> U, key: T -> real, to: U -> real)
    requires KeepsOrder(f, key, to)
    ensures Insert(f(x), Map(f, s), to) == Map(f, Insert(x, s, key))
  {
    if s != [] && key(x) > key(s[0]) {
      InsertMaps(x, s[1..], f, key, to);
      assert Map(f, s)[1..] == Map(f, s[1..]);
    }
  }

  /** Sorting commutes with a change that keeps the order of the keys. */
  lemma {:induction false} SortMaps<T(!new), U>(s: seq<T>, f: T -> U, key: T -> real, to: U -> real)
    requires KeepsOrder(f, key, to)
    ensures Sort(Map(f, s), to) == Map(f, Sort(s, key))
  {
    if s != [] {
      assert Map(f, s)[1..] == Map(f, s[1..]);
      SortMaps(s[1..], f, key, to);
      InsertMaps(s[0], Sort(s[1..], key), f, key, to);
    }
  }

  lemma HeadLeast<T>(a: seq<T>, x: T, key: T -> real)
    requires Ordered(a, key) && x in multiset(a)
    ensures key(a[0]) <= key(x)
  {
    OrderedMeans(a, key);
  }

  lemma KeyTells<T>(a: seq<T>, x: T, key: T -> real)
    requires forall i, j :: 0 <= i < j < |a| ==> key(a[i]) != key(a[j])
    requires x in multiset(a) && key(x) == key(a[0])
    ensures x == a[0]
  {
  }

  lemma SameRest<T>(x: T, a: seq<T>, b: seq<T>)
    requires multiset([x] + a) == multiset([x] + b)
    ensures multiset(a) == multiset(b)
  {
    assert multiset(a) == multiset([x] + a) - multiset{x};
    assert multiset(b) == multiset([x] + b) - multiset{x};
  }

  lemma HeadsAgree<T>(a: seq<T>, b: seq<T>, key: T -> real)
    requires a != [] && Ordered(a, key) && Ordered(b, key) && multiset(a) == multiset(b)
    requires forall i, j :: 0 <= i < j < |a| ==> key(a[i]) != key(a[j])
    ensures b != [] && a[0] == b[0] && multiset(a[1..]) == multiset(b[1..])
  {
    assert a[0] in multiset(b);
    assert b[0] in multiset(a);
    HeadLeast(a, b[0], key);
    HeadLeast(b, a[0], key);
    KeyTells(a, b[0], key);
    assert a == [a[0]] + a[1..] && b == [a[0]] + b[1..];
    SameRest(a[0], a[1..], b[1..]);
  }

  /** With no two keys alike there is one order. */
  lemma {:induction false} OneOrder<T>(a: seq<T>, b: seq<T>, key: T -> real)
    requires Ordered(a, key) && Ordered(b, key) && multiset(a) == multiset(b)
    requires forall i, j :: 0 <= i < j < |a| ==> key(a[i]) != key(a[j])
    ensures a == b
  {
    if a == [] {
      assert |multiset(b)| == 0;
    } else {
      HeadsAgree(a, b, key);
      OneOrder(a[1..], b[1..], key);
      assert a == [a[0]] + a[1..] && b == [b[0]] + b[1..];
    }
  }

  // ---- the fit ----

  /** The ten newest runs, newest first. */
  function Recent(history: seq<Run>): seq<Run> {
    First(Sort(Done(history), Age), 10)
  }

  function MaxOf(xs: seq<real>): (m: real)
    requires xs != []
    ensures m in xs && forall x :: x in xs ==> x <= m
  {
    if |xs| == 1 then xs[0]
    else
      var rest := MaxOf(xs[1..]);
      assert xs == [xs[0]] + xs[1..];
      if xs[0] <= rest then rest else xs[0]
  }

  /** The rates kept: with five or more, all but the lowest and the highest. */
  function Inliers(rates: seq<real>): (kept: seq<real>)
    ensures |kept| == if |rates| >= 5 then |rates| - 2 else |rates|
  {
    if |rates| >= 5 then Sort(rates, Self)[1..|rates| - 1] else rates
  }

  /** The worst rate kept. */
  function Fitted(rates: seq<real>): real
    requires |rates| >= 3
  {
    MaxOf(Inliers(rates))
  }

  lemma RecentLength(history: seq<Run>)
    ensures |Recent(history)| == if |Done(history)| < 10 then |Done(history)| else 10
    ensures forall r :: r in Recent(history) ==> Counts(r) && Rate(r) > 0.0
  {
    var s := Sort(Done(history), Age);
    SortOrders(Done(history), Age);
    DoneCounts(history);
    forall r | r in Recent(history) ensures Counts(r) && Rate(r) > 0.0 {
      assert r in multiset(s);
      Positive(r);
    }
  }

  lemma Positive(r: Run)
    requires Counts(r)
    ensures Rate(r) > 0.0
  {
    assert Rate(r) * r.frames.value == r.seconds.value;
  }

  function Estimate(rate: real, frames: real): Option<real> {
    var est := rate * frames;
    if est > 0.0 then Some(est) else None
  }

  function FitEtaSeconds(history: seq<Run>, frames: real): Option<real> {
    if |Done(history)| < 3 then None
    else
      RecentLength(history);
      Estimate(Fitted(Map(Rate, Recent(history))), frames)
  }

  // ---- what is fitted ----

  /** x is the largest of ms. */
  ghost predicate Top(ms: multiset<real>, x: real) {
    x in ms && forall y :: y in ms ==> y <= x
  }

  /** r is the largest once a largest element is taken away. */
  ghost predicate SecondLargest(ms: multiset<real>, r: real) {
    exists top :: Top(ms, top) && Top(ms - multiset{top}, r)
  }

  lemma LastIsTop(s: seq<real>)
    requires s != [] && Ordered(s, Self)
    ensures Top(multiset(s), s[|s| - 1])
  {
    OrderedMeans(s, Self);
    forall y | y in multiset(s) ensures y <= s[|s| - 1] {
      var i :| 0 <= i < |s| && s[i] == y;
      assert Self(s[i]) <= Self(s[|s| - 1]);
    }
  }

  lemma MaxIs(xs: seq<real>, m: real)
    requires xs != [] && m in xs && forall i :: 0 <= i < |xs| ==> xs[i] <= m
    ensures MaxOf(xs) == m
  {
  }

  lemma WithoutLast(s: seq<real>)
    requires s != []
    ensures multiset(s) - multiset{s[|s| - 1]} == multiset(s[..|s| - 1])
  {
    assert s == s[..|s| - 1] + [s[|s| - 1]];
  }

  /** Of sorted elements, the last but one is the largest once the last is taken away. */
  lemma LastButOne(s: seq<real>)
    requires |s| >= 2 && Ordered(s, Self)
    ensures SecondLargest(multiset(s), s[|s| - 2])
  {
    var init, top := s[..|s| - 1], s[|s| - 1];
    OrderedMeans(s, Self);
    OrderedMeans(init, Self);
    LastIsTop(s);
    LastIsTop(init);
    WithoutLast(s);
    assert Top(multiset(s), top) && Top(multiset(s) - multiset{top}, init[|init| - 1]);
  }

  lemma MiddleMax(s: seq<real>)
    requires |s| >= 3 && Ordered(s, Self)
    ensures MaxOf(s[1..|s| - 1]) == s[|s| - 2]
  {
    var inliers := s[1..|s| - 1];
    OrderedMeans(s, Self);
    forall i | 0 <= i < |inliers| ensures inliers[i] <= s[|s| - 2] {
      assert Self(s[i + 1]) <= Self(s[|s| - 2]);
    }
    assert inliers[|s| - 3] == s[|s| - 2];
    MaxIs(inliers, s[|s| - 2]);
  }

  lemma LastButOneOf(ms: multiset<real>, s: seq<real>)
    requires |s| >= 2 && Ordered(s, Self) && multiset(s) == ms
    ensures SecondLargest(ms, s[|s| - 2])
  {
    LastButOne(s);
  }

  lemma FittedIsLastButOne(rates: seq<real>, s: seq<real>)
    requires |rates| >= 5 && s == Sort(rates, Self) && Ordered(s, Self)
    ensures Fitted(rates) == s[|rates| - 2]
  {
    assert Inliers(rates) == s[1..|s| - 1];
    MiddleMax(s);
  }

  lemma Sorted(rates: seq<real>) returns (s: seq<real>)
    requires |rates| >= 5
    ensures |s| == |rates| && Ordered(s, Self) && multiset(s) == multiset(rates) && Fitted(rates) == s[|s| - 2]
  {
    s := Sort(rates, Self);
    SortOrders(rates, Self);
    FittedIsLastButOne(rates, s);
  }

  /** The largest of the rates without one of the highest: so it bounds every rate but at most one. */
  lemma FittedIsSecondLargest(rates: seq<real>)
    requires |rates| >= 5
    ensures SecondLargest(multiset(rates), Fitted(rates))
  {
    var s := Sorted(rates);
    LastButOneOf(multiset(rates), s);
  }

  /** With three or four rates it bounds them all. */
  lemma FittedIsLargestOfFew(rates: seq<real>)
    requires 3 <= |rates| < 5
    ensures Top(multiset(rates), Fitted(rates))
  {
    forall y | y in multiset(rates) ensures y <= Fitted(rates) {
      assert y in rates;
    }
  }

  /** A second largest stays under any bound on all the elements but one. */
  lemma SecondUnderTheOthers(others: multiset<real>, x: real, r: real, bound: real)
    requires SecondLargest(others + multiset{x}, r) && forall o :: o in others ==> o <= bound
    ensures r <= bound
  {
    var ms := others + multiset{x};
    var top :| Top(ms, top) && Top(ms - multiset{top}, r);
    if top == x {
      assert ms - multiset{top} == others;
    } else {
      assert top in others && r in ms;
    }
  }

  // ---- which runs, and what of them ----

  /** The runs that count are those with positive finite seconds and frames, each as often as the history has it. */
  lemma {:induction false} DoneAre(history: seq<Run>, r: Run)
    ensures multiset(Done(history))[r] ==
            if r.seconds.Some? && r.seconds.value > 0.0 && r.frames.Some? && r.frames.value > 0.0
            then multiset(history)[r] else 0
  {
    if history != [] {
      DoneAre(history[1..], r);
      assert history == [history[0]] + history[1..];
    }
  }

  /** The beginning of an ordered sequence has the smallest keys. */
  lemma FirstAreSmallest<T>(s: seq<T>, n: nat, key: T -> real, kept: T, left: T)
    requires Ordered(s, key) && kept in First(s, n) && left in multiset(s) - multiset(First(s, n))
    ensures key(kept) <= key(left)
  {
    OrderedMeans(s, key);
    if |s| > n {
      assert s == s[..n] + s[n..];
      assert left in multiset(s[n..]);
      var i :| 0 <= i < n && s[i] == kept;
      var j :| 0 <= j < |s[n..]| && s[n..][j] == left;
      assert s[n + j] == left;
    }
  }

  lemma FirstIsPart<T>(s: seq<T>, n: nat)
    ensures multiset(First(s, n)) <= multiset(s) && |First(s, n)| == if |s| < n then |s| else n
  {
    if |s| > n {
      assert s == s[..n] + s[n..];
    }
  }

  /** Recent has ten of the runs that count, or all if they are fewer, and none left out is newer than one of them. */
  lemma RecentAreNewest(history: seq<Run>)
    ensures multiset(Recent(history)) <= multiset(Done(history))
    ensures |Recent(history)| == if |Done(history)| < 10 then |Done(history)| else 10
    ensures forall kept, left ::
              kept in Recent(history) && left in multiset(Done(history)) - multiset(Recent(history)) ==>
                left.mtime <= kept.mtime
  {
    var s := Sort(Done(history), Age);
    SortOrders(Done(history), Age);
    FirstIsPart(s, 10);
    forall kept, left | kept in Recent(history) && left in multiset(Done(history)) - multiset(Recent(history))
      ensures left.mtime <= kept.mtime
    {
      FirstAreSmallest(s, 10, Age, kept, left);
    }
  }

  /** The seconds per frame of runs. */
  predicate RatesOf(runs: seq<Run>, rates: seq<real>) {
    && |rates| == |runs|
    && forall i :: 0 <= i < |runs| ==>
         && runs[i].seconds.Some? && runs[i].frames.Some? && runs[i].frames.value != 0.0
         && rates[i] == runs[i].seconds.value / runs[i].frames.value
  }

  lemma MappedRates(runs: seq<Run>)
    requires forall r :: r in runs ==> Counts(r)
    ensures RatesOf(runs, Map(Rate, runs))
    ensures forall i :: 0 <= i < |runs| ==> Map(Rate, runs)[i] > 0.0
  {
    forall i | 0 <= i < |runs| ensures Counts(runs[i]) && Map(Rate, runs)[i] > 0.0 {
      assert runs[i] in runs;
      Positive(runs[i]);
    }
  }

  /** What is fitted to rates, and that it is a bound on all of them but one. */
  ghost predicate Fits(rates: seq<real>, rate: real) {
    if |rates| >= 5 then SecondLargest(multiset(rates), rate) else Top(multiset(rates), rate)
  }

  lemma FittedFits(rates: seq<real>)
    requires |rates| >= 3
    ensures Fits(rates, Fitted(rates))
  {
    if |rates| >= 5 {
      FittedIsSecondLargest(rates);
    } else {
      FittedIsLargestOfFew(rates);
    }
  }

  lemma EstimateOf(rate: real, frames: real)
    requires rate > 0.0
    ensures Estimate(rate, frames) == if frames > 0.0 then Some(rate * frames) else None
  {
    Positives(rate, frames);
  }

  /**
   The estimate is the requested frames times the second largest seconds per frame of the newest runs, or the largest
   if they are three or four; there is none for fewer, or for no frames.
   */
  lemma EstimateIs(history: seq<Run>, frames: real) returns (rates: seq<real>, rate: real)
    requires |Done(history)| >= 3
    ensures RatesOf(Recent(history), rates) && Fits(rates, rate)
    ensures FitEtaSeconds(history, frames) == if frames > 0.0 then Some(rate * frames) else None
  {
    RecentLength(history);
    MappedRates(Recent(history));
    rates := Map(Rate, Recent(history));
    rate := Fitted(rates);
    FittedFits(rates);
    FittedPositive(rates);
    EstimateOf(rate, frames);
  }

  // ---- permutation ----

  lemma {:induction false} DoneJoins(a: seq<Run>, b: seq<Run>)
    ensures Done(a + b) == Done(a) + Done(b)
  {
    if a == [] {
      assert a + b == b;
    } else {
      assert (a + b)[1..] == a[1..] + b;
      DoneJoins(a[1..], b);
    }
  }

  lemma WithoutOne<T>(before: seq<T>, x: T, after: seq<T>, rest: seq<T>)
    requires multiset([x] + rest) == multiset(before + [x] + after)
    ensures multiset(rest) == multiset(before + after)
  {
    assert multiset(rest) == multiset([x] + rest) - multiset{x};
    assert multiset(before + after) == multiset(before + [x] + after) - multiset{x};
  }

  lemma DoneAround(before: seq<Run>, r: Run, after: seq<Run>)
    ensures Done(before + [r] + after) == Done(before) + (if Counts(r) then [r] else []) + Done(after)
  {
    DoneJoins(before + [r], after);
    DoneJoins(before, [r]);
  }

  lemma {:induction false} DonePermutes(a: seq<Run>, b: seq<Run>)
    requires multiset(a) == multiset(b)
    ensures multiset(Done(a)) == multiset(Done(b))
    decreases |a|
  {
    if a == [] {
      assert |multiset(b)| == 0;
    } else {
      var k := Position(b, a[0], a);
      var before, after := b[..k], b[k + 1..];
      DonePermutes(a[1..], before + after);
      DoneJoins(before, after);
      DoneAround(before, a[0], after);
    }
  }

  lemma Position(b: seq<Run>, r: Run, a: seq<Run>) returns (k: nat)
    requires a != [] && a[0] == r && multiset(a) == multiset(b)
    ensures k < |b| && b == b[..k] + [r] + b[k + 1..]
    ensures multiset(a[1..]) == multiset(b[..k] + b[k + 1..])
  {
    assert r in multiset(b);
    k :| 0 <= k < |b| && b[k] == r;
    assert a == [r] + a[1..];
    assert b == b[..k] + [r] + b[k + 1..];
    WithoutOne(b[..k], r, b[k + 1..], a[1..]);
  }

  ghost predicate DistinctTimes(runs: seq<Run>) {
    forall i, j :: 0 <= i < j < |runs| ==> runs[i].mtime != runs[j].mtime
  }

  lemma {:induction false} SortKeepsDistinct(s: seq<Run>)
    requires DistinctTimes(s)
    ensures DistinctTimes(Sort(s, Age))
  {
    var t := Sort(s, Age);
    SortOrders(s, Age);
    forall i, j | 0 <= i < j < |t| ensures t[i].mtime != t[j].mtime {
      if t[i].mtime == t[j].mtime {
        TwoOfThem(t, i, j);
        assert t[i] in multiset(s) && t[j] in multiset(s);
        var a :| 0 <= a < |s| && s[a] == t[i];
        var b :| 0 <= b < |s| && s[b] == t[j];
        if a == b {
          OneOfThem(s, a);
        }
      }
    }
  }

  lemma TwoOfThem<T>(t: seq<T>, i: nat, j: nat)
    requires i < j < |t|
    ensures t[i] == t[j] ==> multiset(t)[t[i]] >= 2
  {
    assert t == t[..i] + [t[i]] + t[i + 1..j] + [t[j]] + t[j + 1..];
  }

  lemma OneOfThem(s: seq<Run>, a: nat)
    requires a < |s| && DistinctTimes(s)
    ensures multiset(s)[s[a]] == 1
  {
    assert s == s[..a] + [s[a]] + s[a + 1..];
    assert s[a] !in s[..a] && s[a] !in s[a + 1..];
  }

  lemma SameRecent(a: seq<Run>, b: seq<Run>)
    requires multiset(Done(a)) == multiset(Done(b)) && DistinctTimes(Done(a))
    ensures Recent(a) == Recent(b)
  {
    SortOrders(Done(a), Age);
    SortOrders(Done(b), Age);
    SortKeepsDistinct(Done(a));
    OneOrder(Sort(Done(a), Age), Sort(Done(b), Age), Age);
  }

  /** The order in which the history comes does not matter when no two runs have one mtime. */
  lemma OrderDoesNotMatter(a: seq<Run>, b: seq<Run>, frames: real)
    requires multiset(a) == multiset(b) && DistinctTimes(Done(a))
    ensures FitEtaSeconds(a, frames) == FitEtaSeconds(b, frames)
  {
    DonePermutes(a, b);
    assert |Done(a)| == |multiset(Done(a))| == |multiset(Done(b))| == |Done(b)|;
    SameRecent(a, b);
  }

  // ---- changes to the seconds ----

  /** A change that leaves mtimes alone and makes no run count or stop counting. */
  ghost predicate Retimes(f: Run -> Run) {
    forall r :: f(r).mtime == r.mtime && (Counts(r) <==> Counts(f(r)))
  }

  lemma {:induction false} DoneMaps(history: seq<Run>, f: Run -> Run)
    requires Retimes(f)
    ensures Done(Map(f, history)) == Map(f, Done(history))
  {
    if history != [] {
      assert Map(f, history)[1..] == Map(f, history[1..]);
      DoneMaps(history[1..], f);
    }
  }

  lemma RecentMaps(history: seq<Run>, f: Run -> Run)
    requires Retimes(f)
    ensures Recent(Map(f, history)) == Map(f, Recent(history))
  {
    DoneMaps(history, f);
    assert KeepsOrder(f, Age, Age);
    SortMaps(Done(history), f, Age, Age);
  }

  function Slower(c: real): Run -> Run {
    (r: Run) => if r.seconds.Some? then r.(seconds := Some(c * r.seconds.value)) else r
  }

  function Times(c: real): real -> real {
    (x: real) => c * x
  }

  lemma SlowerRate(r: Run, c: real)
    requires c > 0.0
    ensures Rate(Slower(c)(r)) == c * Rate(r) && (Counts(r) <==> Counts(Slower(c)(r)))
  {
    if r.seconds.Some? {
      var s := r.seconds.value;
      assert s > 0.0 ==> c * s > 0.0;
      assert s <= 0.0 ==> c * s <= 0.0;
    }
  }

  lemma ProductsOrdered(c: real, x: real, y: real)
    requires c > 0.0
    ensures x <= y <==> c * x <= c * y
  {
    assert c * y - c * x == c * (y - x);
    if x <= y {
      assert c * (y - x) >= 0.0;
    } else {
      assert c * (y - x) < 0.0;
    }
  }

  lemma Increasing(f: real -> real)
    requires forall x: real, y: real :: x <= y <==> f(x) <= f(y)
    ensures KeepsOrder(f, Self, Self)
  {
  }

  lemma TimesKeepsOrder(c: real)
    requires c > 0.0
    ensures KeepsOrder(Times(c), Self, Self)
  {
    forall x: real, y: real ensures x <= y <==> Times(c)(x) <= Times(c)(y) {
      TimesOrders(c, x, y);
    }
    Increasing(Times(c));
  }

  lemma TimesOrders(c: real, x: real, y: real)
    requires c > 0.0
    ensures x <= y <==> Times(c)(x) <= Times(c)(y)
  {
    ProductsOrdered(c, x, y);
  }

  lemma MaxScales(xs: seq<real>, c: real)
    requires xs != [] && c > 0.0
    ensures MaxOf(Map(Times(c), xs)) == Times(c)(MaxOf(xs))
  {
    var m, ys := MaxOf(xs), Map(Times(c), xs);
    var i :| 0 <= i < |xs| && xs[i] == m;
    assert ys[i] == Times(c)(m);
    forall j | 0 <= j < |ys| ensures ys[j] <= Times(c)(m) {
      assert xs[j] in xs;
      TimesOrders(c, xs[j], m);
    }
    MaxIs(ys, Times(c)(m));
  }

  lemma InliersScale(rates: seq<real>, c: real)
    requires c > 0.0
    ensures Inliers(Map(Times(c), rates)) == Map(Times(c), Inliers(rates))
  {
    TimesKeepsOrder(c);
    SortMaps(rates, Times(c), Self, Self);
    SortOrders(rates, Self);
  }

  lemma FittedScales(rates: seq<real>, c: real)
    requires |rates| >= 3 && c > 0.0
    ensures Fitted(Map(Times(c), rates)) == Times(c)(Fitted(rates))
  {
    InliersScale(rates, c);
    MaxScales(Inliers(rates), c);
  }

  lemma RatesSlow(runs: seq<Run>, c: real)
    requires c > 0.0
    ensures Map(Rate, Map(Slower(c), runs)) == Map(Times(c), Map(Rate, runs))
  {
    forall i | 0 <= i < |runs| ensures Rate(Slower(c)(runs[i])) == Times(c)(Rate(runs[i])) {
      SlowerRate(runs[i], c);
    }
  }

  function Scaled(e: Option<real>, c: real): Option<real> {
    match e case None => None case Some(x) => Some(c * x)
  }

  lemma EstimateScales(r: real, frames: real, c: real)
    requires c > 0.0
    ensures Estimate(Times(c)(r), frames) == Scaled(Estimate(r, frames), c)
  {
    var e := r * frames;
    Positives(c, e);
    assert Times(c)(r) * frames == c * e;
    if e > 0.0 {
      assert Estimate(Times(c)(r), frames).value == c * e;
      assert Scaled(Estimate(r, frames), c).value == c * e;
    }
  }

  lemma Positives(c: real, e: real)
    requires c > 0.0
    ensures c * e > 0.0 <==> e > 0.0
  {
    ProductsOrdered(c, e, 0.0);
  }

  /** Runs c times as slow make the estimate c times as long. */
  lemma ScalesWithSeconds(history: seq<Run>, frames: real, c: real)
    requires c > 0.0
    ensures FitEtaSeconds(Map(Slower(c), history), frames) == Scaled(FitEtaSeconds(history, frames), c)
  {
    forall r ensures Slower(c)(r).mtime == r.mtime && (Counts(r) <==> Counts(Slower(c)(r))) {
      SlowerRate(r, c);
    }
    DoneMaps(history, Slower(c));
    RecentMaps(history, Slower(c));
    RecentLength(history);
    RatesSlow(Recent(history), c);
    if |Done(history)| >= 3 {
      var rates := Map(Rate, Recent(history));
      FittedScales(rates, c);
      EstimateScales(Fitted(rates), frames, c);
    }
  }

  lemma EstimateGrows(r: real, frames: real)
    requires r > 0.0
    ensures Estimate(r, frames).Some? <==> frames > 0.0
    ensures frames > 0.0 ==> Estimate(r, frames) == Scaled(Estimate(r, 1.0), frames)
  {
    Positives(r, frames);
    if frames > 0.0 {
      assert Estimate(r, frames).value == frames * r;
      assert Scaled(Estimate(r, 1.0), frames).value == frames * r;
    }
  }

  /** There is an estimate exactly for at least three runs and a positive length, and it grows with the length. */
  lemma ScalesWithFrames(history: seq<Run>, frames: real)
    ensures FitEtaSeconds(history, frames).Some? <==> |Done(history)| >= 3 && frames > 0.0
    ensures frames > 0.0 ==> FitEtaSeconds(history, frames) == Scaled(FitEtaSeconds(history, 1.0), frames)
  {
    if |Done(history)| >= 3 {
      RecentLength(history);
      var rates := Map(Rate, Recent(history));
      FittedPositive(rates);
      var r := Fitted(rates);
      EstimateGrows(r, frames);
    }
  }

  lemma FittedPositive(rates: seq<real>)
    requires |rates| >= 3 && forall i :: 0 <= i < |rates| ==> rates[i] > 0.0
    ensures Fitted(rates) > 0.0 && Fitted(rates) in rates
  {
    SortOrders(rates, Self);
    assert Fitted(rates) in Inliers(rates);
    assert Fitted(rates) in multiset(rates);
  }

  // ---- one weird run ----

  /** b is a, but for position k, where it may have y in place of x. */
  predicate Differ(a: seq<Run>, b: seq<Run>, k: int, x: Run, y: Run) {
    && |a| == |b|
    && forall j :: 0 <= j < |a| ==> a[j] == b[j] || (j == k && a[j] == x && b[j] == y)
  }

  lemma {:induction false} DoneDiffer(a: seq<Run>, b: seq<Run>, k: int, x: Run, y: Run) returns (p: int)
    requires Differ(a, b, k, x, y) && Counts(x) && Counts(y)
    ensures Differ(Done(a), Done(b), p, x, y)
  {
    p := 0;
    if a != [] {
      p := DoneDiffer(a[1..], b[1..], k - 1, x, y);
      if a[0] != b[0] {
        assert a[1..] == b[1..];
        p := 0;
      } else if Counts(a[0]) {
        p := p + 1;
      }
    }
  }

  lemma {:induction false} InsertDiffer(v: Run, a: seq<Run>, b: seq<Run>, k: int, x: Run, y: Run) returns (p: int)
    requires Differ(a, b, k, x, y) && Age(x) == Age(y)
    ensures Differ(Insert(v, a, Age), Insert(v, b, Age), p, x, y)
  {
    if a == [] || Age(v) <= Age(a[0]) {
      p := k + 1;
    } else {
      p := InsertDiffer(v, a[1..], b[1..], k - 1, x, y);
      p := if a[0] == b[0] then p + 1 else 0;
      if a[0] != b[0] {
        assert a[1..] == b[1..];
      }
    }
  }

  lemma {:induction false} InsertOther(s: seq<Run>, x: Run, y: Run) returns (p: int)
    requires Age(x) == Age(y)
    ensures Differ(Insert(x, s, Age), Insert(y, s, Age), p, x, y)
  {
    if s == [] || Age(x) <= Age(s[0]) {
      p := 0;
    } else {
      p := InsertOther(s[1..], x, y);
      p := p + 1;
    }
  }

  lemma {:induction false} SortDiffer(a: seq<Run>, b: seq<Run>, k: int, x: Run, y: Run) returns (p: int)
    requires Differ(a, b, k, x, y) && Age(x) == Age(y)
    ensures Differ(Sort(a, Age), Sort(b, Age), p, x, y)
  {
    if a == [] {
      p := 0;
    } else if a[0] == b[0] {
      p := SortDiffer(a[1..], b[1..], k - 1, x, y);
      p := InsertDiffer(a[0], Sort(a[1..], Age), Sort(b[1..], Age), p, x, y);
    } else {
      assert a[1..] == b[1..];
      p := InsertOther(Sort(a[1..], Age), x, y);
    }
  }

  /** The rates of all recent runs but the one at k are at most bound. */
  predicate OthersUnder(recent: seq<Run>, k: int, bound: real) {
    forall j :: 0 <= j < |recent| && j != k ==> Rate(recent[j]) <= bound
  }

  lemma OthersBelow(rates: seq<real>, k: int, r: real, bound: real)
    requires 0 <= k < |rates| && SecondLargest(multiset(rates), r)
    requires forall j :: 0 <= j < |rates| && j != k ==> rates[j] <= bound
    ensures r <= bound
  {
    var others := rates[..k] + rates[k + 1..];
    assert rates == rates[..k] + [rates[k]] + rates[k + 1..];
    assert multiset(rates) == multiset(others) + multiset{rates[k]};
    SecondUnderTheOthers(multiset(others), rates[k], r, bound);
  }

  lemma FittedUnderOthers(recent: seq<Run>, k: int, bound: real)
    requires |recent| >= 5 && 0 <= k < |recent| && OthersUnder(recent, k, bound)
    ensures Fitted(Map(Rate, recent)) <= bound
  {
    var rates := Map(Rate, recent);
    FittedIsSecondLargest(rates);
    OthersBelow(rates, k, Fitted(rates), bound);
  }

  /**
   With five or more recent runs, giving one run other seconds changes at most the recent run at k, and whatever
   those seconds are the fitted rate stays under any bound on the rates of the other recent runs.
   */
  lemma OneWeirdRun(history: seq<Run>, i: nat, seconds: real) returns (k: nat)
    requires i < |history| && Counts(history[i]) && seconds > 0.0 && |Recent(history)| >= 5
    ensures var weird := history[i := history[i].(seconds := Some(seconds))];
            && k < |Recent(history)|
            && Differ(Recent(history), Recent(weird), k, history[i], weird[i])
            && forall bound :: OthersUnder(Recent(history), k, bound) ==> Fitted(Map(Rate, Recent(weird))) <= bound
  {
    var weird := history[i := history[i].(seconds := Some(seconds))];
    var p := DoneDiffer(history, weird, i, history[i], weird[i]);
    p := SortDiffer(Done(history), Done(weird), p, history[i], weird[i]);
    k := if 0 <= p < |Recent(history)| then p else 0;
    forall bound | OthersUnder(Recent(history), k, bound) ensures Fitted(Map(Rate, Recent(weird))) <= bound {
      FittedUnderOthers(Recent(weird), k, bound);
    }
  }
}
