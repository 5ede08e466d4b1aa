/**
 * Backup retention: the newest archive of each day, week and month, so many of each. Pruning after every
 * backup must leave what pruning once at the end would have left.
 */
module Retention {

  /** When the archive was made, and the file holding it. */
  datatype Archive = Archive(stamp: int, path: string)

  type Period = string

  /** One generation per period: the period a time falls in, and how many periods are kept. */
  datatype Bucket = Bucket(period: int -> Period, limit: nat)

  const KEEP_DAILY: nat := 14
  const KEEP_WEEKLY: nat := 8
  const KEEP_MONTHLY: nat := 6

  predicate Sane(buckets: seq<Bucket>) {
    forall i :: 0 <= i < |buckets| ==> buckets[i].limit > 0
  }

  /** The periods the archives fall in. */
  function Periods(b: Bucket, list: seq<Archive>): set<Period>
    decreases |list|
  {
    if list == [] then {} else Periods(b, list[..|list| - 1]) + {b.period(list[|list| - 1].stamp)}
  }

  /** `x`, older than everything in `newer`, is the newest of its period and the period is among the newest. */
  predicate NewestOfPeriod(b: Bucket, newer: seq<Archive>, x: Archive) {
    b.period(x.stamp) !in Periods(b, newer) && |Periods(b, newer)| < b.limit
  }

  predicate SomeBucketKeeps(buckets: seq<Bucket>, newer: seq<Archive>, x: Archive) {
    exists i :: 0 <= i < |buckets| && NewestOfPeriod(buckets[i], newer, x)
  }

  /** What is kept of a newest-first list. The newest is kept whatever its periods. */
  function Keep(buckets: seq<Bucket>, list: seq<Archive>): set<Archive>
    decreases |list|
  {
    if list == [] then {}
    else
      var newer, x := list[..|list| - 1], list[|list| - 1];
      if newer == [] || SomeBucketKeeps(buckets, newer, x) then Keep(buckets, newer) + {x} else Keep(buckets, newer)
  }

  function Filter(list: seq<Archive>, kept: set<Archive>): seq<Archive>
    decreases |list|
  {
    if list == [] then []
    else
      var front, last := Filter(list[..|list| - 1], kept), list[|list| - 1];
      if last in kept then front + [last] else front
  }

  /* ------------------------------------------------------------------- set sizes */

  lemma {:induction false} SubsetIsSmaller<T>(a: set<T>, b: set<T>)
    requires a <= b
    ensures |a| <= |b|
    decreases |a|
  {
    if a != {} {
      var x :| x in a;
      SubsetIsSmaller(a - {x}, b - {x});
    }
  }

  lemma UnionWithCommon<T>(a: set<T>, b: set<T>, x: T)
    requires x in a && x in b
    ensures |a + b| <= |a| + |b| - 1
  {
    SubsetIsSmaller({x}, a * b);
    assert |a + b| == |a| + |b| - |a * b|;
  }

  /* ------------------------------------------------- what survives a pruning is enough */

  lemma AppendPeriods(b: Bucket, list: seq<Archive>, x: Archive)
    ensures Periods(b, list + [x]) == Periods(b, list) + {b.period(x.stamp)}
  {
    assert (list + [x])[..|list|] == list;
  }

  lemma {:induction false} PeriodsOfBoth(b: Bucket, first: seq<Archive>, second: seq<Archive>)
    ensures Periods(b, first + second) == Periods(b, first) + Periods(b, second)
    decreases |second|
  {
    if second == [] {
      assert first + second == first;
    } else {
      var front, last := second[..|second| - 1], second[|second| - 1];
      PeriodsOfBoth(b, first, front);
      assert first + second == (first + front) + [last];
      AppendPeriods(b, first + front, last);
    }
  }

  /**
   * Keeping at least what retention keeps, either every period is still there, or as many as the bucket holds:
   * nothing older can come to be kept for want of what was dropped.
   */
  lemma {:induction false} PeriodsSurvive(buckets: seq<Bucket>, i: nat, list: seq<Archive>, kept: set<Archive>)
    requires i < |buckets| && Keep(buckets, list) <= kept
    ensures Survive(buckets[i], Periods(buckets[i], list), Periods(buckets[i], Filter(list, kept)))
    decreases |list|
  {
    if list != [] {
      var b, front, last := buckets[i], list[..|list| - 1], list[|list| - 1];
      PeriodsSurvive(buckets, i, front, kept);
      AppendPeriods(b, Filter(front, kept), last);
      if NewestOfPeriod(b, front, last) {
        assert SomeBucketKeeps(buckets, front, last);
      }
      OneMorePeriod(b, Periods(b, front), Periods(b, Filter(front, kept)), b.period(last.stamp), last in kept);
    }
  }

  /** The periods before and after pruning: the same, or on both sides as many as the bucket holds. */
  ghost predicate Survive(b: Bucket, all: set<Period>, left: set<Period>) {
    left <= all && (|all| <= b.limit ==> left == all) && (|all| >= b.limit ==> |left| >= b.limit)
  }

  lemma OneMorePeriod(b: Bucket, all: set<Period>, left: set<Period>, p: Period, stays: bool)
    requires Survive(b, all, left) && (p !in all && |all| < b.limit ==> stays)
    ensures Survive(b, all + {p}, if stays then left + {p} else left)
  {
    SubsetIsSmaller(left, left + {p});
    if p in all {
      assert all + {p} == all;
      if |all| <= b.limit {
        assert left + {p} == left;
      }
    }
  }

  /** One bucket judges an archive the same whether or not the archives before it were pruned. */
  lemma SameJudgement(buckets: seq<Bucket>, i: nat, newest: seq<Archive>, list: seq<Archive>, kept: set<Archive>, x: Archive)
    requires i < |buckets| && Keep(buckets, list) <= kept
    ensures NewestOfPeriod(buckets[i], newest + Filter(list, kept), x) <==> NewestOfPeriod(buckets[i], newest + list, x)
    ensures NewestOfPeriod(buckets[i], newest + list, x) ==> NewestOfPeriod(buckets[i], list, x)
  {
    var b := buckets[i];
    PeriodsSurvive(buckets, i, list, kept);
    PeriodsOfBoth(b, newest, list);
    PeriodsOfBoth(b, newest, Filter(list, kept));
    SubsetIsSmaller(Periods(b, list), Periods(b, newest) + Periods(b, list));
    SubsetIsSmaller(Periods(b, Filter(list, kept)), Periods(b, newest) + Periods(b, Filter(list, kept)));
  }

  lemma SameVerdict(buckets: seq<Bucket>, newest: seq<Archive>, list: seq<Archive>, kept: set<Archive>, x: Archive)
    requires Keep(buckets, list) <= kept
    ensures SomeBucketKeeps(buckets, newest + Filter(list, kept), x) <==> SomeBucketKeeps(buckets, newest + list, x)
    ensures SomeBucketKeeps(buckets, newest + list, x) ==> SomeBucketKeeps(buckets, list, x)
  {
    forall i | 0 <= i < |buckets|
      ensures NewestOfPeriod(buckets[i], newest + Filter(list, kept), x) <==> NewestOfPeriod(buckets[i], newest + list, x)
      ensures NewestOfPeriod(buckets[i], newest + list, x) ==> NewestOfPeriod(buckets[i], list, x)
    {
      SameJudgement(buckets, i, newest, list, kept, x);
    }
  }

  lemma {:induction false} NewestSurvives(buckets: seq<Bucket>, list: seq<Archive>, kept: set<Archive>)
    requires list != [] && Keep(buckets, list) <= kept
    ensures list[0] in Keep(buckets, list) && Filter(list, kept) != [] && Filter(list, kept)[0] == list[0]
    decreases |list|
  {
    if |list| > 1 {
      NewestSurvives(buckets, list[..|list| - 1], kept);
    }
  }

  lemma AppendKeep(buckets: seq<Bucket>, list: seq<Archive>, x: Archive)
    ensures Keep(buckets, list + [x]) ==
            if list == [] || SomeBucketKeeps(buckets, list, x) then Keep(buckets, list) + {x} else Keep(buckets, list)
  {
    assert (list + [x])[..|list|] == list;
  }

  /**
   * Pruning early never matters: put any newer archives before a list of which at least the kept part has
   * survived, and retention keeps what it would have kept had nothing been dropped.
   */
  lemma {:induction false} PruningEarlyIsHarmless(buckets: seq<Bucket>, newest: seq<Archive>, list: seq<Archive>, kept: set<Archive>)
    requires Keep(buckets, list) <= kept
    ensures Keep(buckets, newest + Filter(list, kept)) == Keep(buckets, newest + list)
    decreases |list|
  {
    if list == [] {
      assert newest + Filter(list, kept) == newest + list;
    } else {
      var front, x := list[..|list| - 1], list[|list| - 1];
      PruningEarlyIsHarmless(buckets, newest, front, kept);
      SameVerdict(buckets, newest, front, kept, x);
      assert newest + list == (newest + front) + [x];
      AppendKeep(buckets, newest + front, x);
      if front != [] {
        NewestSurvives(buckets, front, kept);
      }
      if x in kept {
        assert newest + Filter(list, kept) == (newest + Filter(front, kept)) + [x];
        AppendKeep(buckets, newest + Filter(front, kept), x);
      } else {
        assert Filter(list, kept) == Filter(front, kept);
      }
    }
  }

  /** Running retention again on what it left removes nothing more. */
  lemma RetentionIsIdempotent(buckets: seq<Bucket>, list: seq<Archive>)
    ensures Keep(buckets, Filter(list, Keep(buckets, list))) == Keep(buckets, list)
  {
    PruningEarlyIsHarmless(buckets, [], list, Keep(buckets, list));
    assert [] + list == list && [] + Filter(list, Keep(buckets, list)) == Filter(list, Keep(buckets, list));
  }

  /** A newer archive never brings one back: what is kept afterwards is the newcomer and archives kept before. */
  lemma {:induction false} NewcomersOnlyDisplace(buckets: seq<Bucket>, newest: seq<Archive>, list: seq<Archive>)
    ensures Keep(buckets, newest + list) <= Keep(buckets, newest) + Keep(buckets, list)
    decreases |list|
  {
    if list == [] {
      assert newest + list == newest;
    } else {
      var front, x := list[..|list| - 1], list[|list| - 1];
      NewcomersOnlyDisplace(buckets, newest, front);
      SameVerdict(buckets, newest, front, Keep(buckets, front), x);
      assert newest + list == (newest + front) + [x];
      AppendKeep(buckets, newest + front, x);
    }
  }

  /* ---------------------------------------------------------------------- whole runs */

  /** Every archive ever made, newest first, from the order they were made in. */
  function NewestFirst(made: seq<Archive>): seq<Archive>
    decreases |made|
  {
    if made == [] then [] else [made[|made| - 1]] + NewestFirst(made[..|made| - 1])
  }

  /** What is on disk when retention runs after every backup. */
  function PrunedEachTime(buckets: seq<Bucket>, made: seq<Archive>): seq<Archive>
    decreases |made|
  {
    if made == [] then []
    else
      var list := [made[|made| - 1]] + PrunedEachTime(buckets, made[..|made| - 1]);
      Filter(list, Keep(buckets, list))
  }

  ghost predicate NoneTwice(made: seq<Archive>) {
    forall i, j :: 0 <= i < j < |made| ==> made[i] != made[j]
  }

  lemma {:induction false} FilterTwice(list: seq<Archive>, first: set<Archive>, second: set<Archive>)
    requires forall x :: x in list && x in second ==> x in first
    ensures Filter(Filter(list, first), second) == Filter(list, second)
    decreases |list|
  {
    if list != [] {
      var front, last := list[..|list| - 1], list[|list| - 1];
      assert last in list;
      FilterTwice(front, first, second);
      if last in first {
        assert (Filter(front, first) + [last])[..|Filter(front, first)|] == Filter(front, first);
      }
    }
  }

  lemma {:induction false} FilterCons(x: Archive, list: seq<Archive>, kept: set<Archive>)
    requires x in kept
    ensures Filter([x] + list, kept) == [x] + Filter(list, kept)
    decreases |list|
  {
    if list == [] {
      assert [x] + list == [x];
      assert [x][..0] == [];
    } else {
      FilterCons(x, list[..|list| - 1], kept);
      assert ([x] + list)[..|list|] == [x] + list[..|list| - 1];
    }
  }

  lemma {:induction false} MadeMembers(made: seq<Archive>)
    ensures forall x :: x in NewestFirst(made) <==> x in made
    decreases |made|
  {
    if made != [] {
      MadeMembers(made[..|made| - 1]);
      assert forall x :: x in made <==> x == made[|made| - 1] || x in made[..|made| - 1];
    }
  }

  /** Pruning after every backup leaves exactly what pruning once, after the last of them, would leave. */
  lemma {:induction false} PruningEachTimeIsPruningOnce(buckets: seq<Bucket>, made: seq<Archive>)
    requires NoneTwice(made)
    ensures PrunedEachTime(buckets, made) == Filter(NewestFirst(made), Keep(buckets, NewestFirst(made)))
    decreases |made|
  {
    if made != [] {
      var before, n := made[..|made| - 1], made[|made| - 1];
      var list := NewestFirst(before);
      var kept := Keep(buckets, list);
      PruningEachTimeIsPruningOnce(buckets, before);
      PruningEarlyIsHarmless(buckets, [n], list, kept);
      NewcomersOnlyDisplace(buckets, [n], list);
      OneIsKept(buckets, n);
      var after := Keep(buckets, [n] + list);
      MadeMembers(before);
      NewestSurvives(buckets, [n] + list, after);
      FilterTwice(list, kept, after);
      FilterCons(n, Filter(list, kept), after);
      FilterCons(n, list, after);
    }
  }

  lemma OneIsKept(buckets: seq<Bucket>, n: Archive)
    ensures Keep(buckets, [n]) == {n}
  {
    assert [n][..0] == [];
    assert Keep(buckets, []) == {};
  }

  /* ---------------------------------------------------------------- how many are kept */

  /** What one bucket keeps. */
  function KeptBy(b: Bucket, list: seq<Archive>): set<Archive>
    decreases |list|
  {
    if list == [] then {}
    else
      var newer, x := list[..|list| - 1], list[|list| - 1];
      if NewestOfPeriod(b, newer, x) then KeptBy(b, newer) + {x} else KeptBy(b, newer)
  }

  lemma {:induction false} BucketBound(b: Bucket, list: seq<Archive>)
    ensures |KeptBy(b, list)| <= |Periods(b, list)| && |KeptBy(b, list)| <= b.limit
    decreases |list|
  {
    if list != [] {
      var newer := list[..|list| - 1];
      BucketBound(b, newer);
      SubsetIsSmaller(Periods(b, newer), Periods(b, list));
    }
  }

  lemma {:induction false} BucketKeepsNewest(b: Bucket, list: seq<Archive>)
    requires list != [] && b.limit > 0
    ensures list[0] in KeptBy(b, list)
    decreases |list|
  {
    if |list| > 1 {
      BucketKeepsNewest(b, list[..|list| - 1]);
    } else {
      assert list[..0] == [];
    }
  }

  /** What the first `n` buckets keep between them. */
  function KeptByFirst(buckets: seq<Bucket>, n: nat, list: seq<Archive>): set<Archive>
    requires n <= |buckets|
    decreases n
  {
    if n == 0 then {} else KeptByFirst(buckets, n - 1, list) + KeptBy(buckets[n - 1], list)
  }

  predicate AmongFirst(buckets: seq<Bucket>, n: nat, newer: seq<Archive>, x: Archive)
    requires n <= |buckets|
  {
    exists i :: 0 <= i < n && NewestOfPeriod(buckets[i], newer, x)
  }

  lemma OneBucketMore(buckets: seq<Bucket>, n: nat, newer: seq<Archive>, x: Archive)
    requires 0 < n <= |buckets|
    ensures AmongFirst(buckets, n, newer, x) <==> AmongFirst(buckets, n - 1, newer, x) || NewestOfPeriod(buckets[n - 1], newer, x)
  {
  }

  lemma {:induction false} OlderOne(buckets: seq<Bucket>, n: nat, list: seq<Archive>)
    requires n <= |buckets| && list != []
    ensures var newer, x := list[..|list| - 1], list[|list| - 1];
            KeptByFirst(buckets, n, list) == KeptByFirst(buckets, n, newer) + if AmongFirst(buckets, n, newer, x) then {x} else {}
    decreases n
  {
    if n > 0 {
      OlderOne(buckets, n - 1, list);
      OneBucketMore(buckets, n, list[..|list| - 1], list[|list| - 1]);
    }
  }

  /** Retention keeps the newest archive and what each of the buckets keeps, and nothing else. */
  lemma {:induction false} KeepIsUnion(buckets: seq<Bucket>, list: seq<Archive>)
    requires list != []
    ensures Keep(buckets, list) == {list[0]} + KeptByFirst(buckets, |buckets|, list)
    decreases |list|
  {
    var newer := list[..|list| - 1];
    OlderOne(buckets, |buckets|, list);
    assert AmongFirst(buckets, |buckets|, newer, list[|list| - 1]) <==> SomeBucketKeeps(buckets, newer, list[|list| - 1]);
    if newer == [] {
      NothingKept(buckets, |buckets|);
    } else {
      KeepIsUnion(buckets, newer);
    }
  }

  lemma {:induction false} NothingKept(buckets: seq<Bucket>, n: nat)
    requires n <= |buckets|
    ensures KeptByFirst(buckets, n, []) == {}
    decreases n
  {
    if n > 0 {
      NothingKept(buckets, n - 1);
    }
  }

  function Buckets(day: int -> Period, week: int -> Period, month: int -> Period): seq<Bucket> {
    [Bucket(day, KEEP_DAILY), Bucket(week, KEEP_WEEKLY), Bucket(month, KEEP_MONTHLY)]
  }

  /** The newest archive counts in all three, so at most 26 are ever kept: two fewer than the limits add up to. */
  lemma AtMostTwentySix(day: int -> Period, week: int -> Period, month: int -> Period, list: seq<Archive>)
    ensures |Keep(Buckets(day, week, month), list)| <= 26
    ensures list != [] ==> list[0] in Keep(Buckets(day, week, month), list)
  {
    if list != [] {
      KeptByAllThree(day, week, month, list);
      ThreeBuckets(Bucket(day, KEEP_DAILY), Bucket(week, KEEP_WEEKLY), Bucket(month, KEEP_MONTHLY), list);
    }
  }

  lemma KeptByAllThree(day: int -> Period, week: int -> Period, month: int -> Period, list: seq<Archive>)
    requires list != []
    ensures Keep(Buckets(day, week, month), list) ==
            KeptBy(Bucket(day, KEEP_DAILY), list) + KeptBy(Bucket(week, KEEP_WEEKLY), list) + KeptBy(Bucket(month, KEEP_MONTHLY), list)
  {
    var buckets := Buckets(day, week, month);
    KeepIsUnion(buckets, list);
    BucketKeepsNewest(buckets[0], list);
    assert KeptByFirst(buckets, 3, list) == KeptByFirst(buckets, 2, list) + KeptBy(buckets[2], list);
    assert KeptByFirst(buckets, 2, list) == KeptByFirst(buckets, 1, list) + KeptBy(buckets[1], list);
    assert KeptByFirst(buckets, 1, list) == KeptByFirst(buckets, 0, list) + KeptBy(buckets[0], list);
  }

  /* ---------------------------------------------------------------- a week has seven days */

  /** The days on which archives of this week were made. */
  function DaysWithin(day: int -> Period, week: int -> Period, list: seq<Archive>, w: Period): set<Period>
    decreases |list|
  {
    if list == [] then {}
    else
      var front, x := DaysWithin(day, week, list[..|list| - 1], w), list[|list| - 1];
      if week(x.stamp) == w then front + {day(x.stamp)} else front
  }

  /** As far as these archives go, a day lies in one week and a week has at most seven days. */
  ghost predicate SevenDayWeeks(day: int -> Period, week: int -> Period, list: seq<Archive>) {
    && (forall x, y :: x in list && y in list && day(x.stamp) == day(y.stamp) ==> week(x.stamp) == week(y.stamp))
    && (forall w :: |DaysWithin(day, week, list, w)| <= 7)
  }

  lemma NewerWeeksToo(day: int -> Period, week: int -> Period, list: seq<Archive>)
    requires list != [] && SevenDayWeeks(day, week, list)
    ensures SevenDayWeeks(day, week, list[..|list| - 1])
  {
    var front := list[..|list| - 1];
    forall w
      ensures |DaysWithin(day, week, front, w)| <= 7
    {
      SubsetIsSmaller(DaysWithin(day, week, front, w), DaysWithin(day, week, list, w));
    }
  }

  lemma {:induction false} PeriodMembers(b: Bucket, list: seq<Archive>, p: Period)
    ensures p in Periods(b, list) <==> exists x :: x in list && b.period(x.stamp) == p
    decreases |list|
  {
    if list != [] {
      PeriodMembers(b, list[..|list| - 1], p);
      assert forall x :: x in list <==> x == list[|list| - 1] || x in list[..|list| - 1];
    }
  }

  /** While a bucket has room it keeps exactly one archive for each period. */
  lemma {:induction false} OneForEachPeriod(b: Bucket, list: seq<Archive>)
    ensures forall x :: x in KeptBy(b, list) ==> b.period(x.stamp) in Periods(b, list)
    ensures |Periods(b, list)| <= b.limit ==> |KeptBy(b, list)| == |Periods(b, list)|
    decreases |list|
  {
    if list != [] {
      OneForEachPeriod(b, list[..|list| - 1]);
      SubsetIsSmaller(Periods(b, list[..|list| - 1]), Periods(b, list));
    }
  }

  lemma {:induction false} OneWeekOfDays(day: Bucket, week: Bucket, list: seq<Archive>, w: Period)
    requires Periods(week, list) <= {w}
    ensures Periods(day, list) == DaysWithin(day.period, week.period, list, w)
    decreases |list|
  {
    if list != [] {
      OneWeekOfDays(day, week, list[..|list| - 1], w);
    }
  }

  /** The first archive of a second week comes after at most seven days, so a bucket for more days than that keeps it too. */
  lemma {:induction false} SecondWeekIsDaily(day: Bucket, week: Bucket, list: seq<Archive>) returns (y: Archive)
    requires SevenDayWeeks(day.period, week.period, list) && day.limit > 7 && |KeptBy(week, list)| >= 2
    ensures y in KeptBy(day, list) && y in KeptBy(week, list) && y != list[0]
    decreases |list|
  {
    var front, last := list[..|list| - 1], list[|list| - 1];
    NewerWeeksToo(day.period, week.period, list);
    if |KeptBy(week, front)| >= 2 {
      y := SecondWeekIsDaily(day, week, front);
    } else {
      assert NewestOfPeriod(week, front, last);
      OneForEachPeriod(week, front);
      y := last;
      PeriodMembers(week, front, week.period(list[0].stamp));
      assert front[0] == list[0];
      var w := week.period(list[0].stamp);
      OnlyPeriod(Periods(week, front), w);
      OneWeekOfDays(day, week, front, w);
      PeriodMembers(day, front, day.period(last.stamp));
      if x :| x in front && day.period(x.stamp) == day.period(last.stamp) {
        assert x in list && last in list;
        PeriodMembers(week, front, week.period(x.stamp));
        assert false;
      }
      assert NewestOfPeriod(day, front, last);
    }
  }

  lemma OnlyPeriod(periods: set<Period>, p: Period)
    requires p in periods && |periods| <= 1
    ensures periods <= {p}
  {
    SubsetIsSmaller({p}, periods);
    assert periods == {p} by {
      if q :| q in periods && q != p {
        SubsetIsSmaller({p, q}, periods);
      }
    }
  }

  /**
   * On a calendar the newest archives of the two newest weeks are daily ones as well, so at most 25 are kept:
   * three fewer than the limits add up to.
   */
  lemma AtMostTwentyFive(day: int -> Period, week: int -> Period, month: int -> Period, list: seq<Archive>)
    requires SevenDayWeeks(day, week, list)
    ensures |Keep(Buckets(day, week, month), list)| <= 25
  {
    if list != [] {
      var d, w, m := Bucket(day, KEEP_DAILY), Bucket(week, KEEP_WEEKLY), Bucket(month, KEEP_MONTHLY);
      KeptByAllThree(day, week, month, list);
      BucketBound(w, list);
      if |KeptBy(w, list)| >= 2 {
        BucketBound(d, list);
        BucketBound(m, list);
        BucketKeepsNewest(d, list);
        BucketKeepsNewest(w, list);
        BucketKeepsNewest(m, list);
        var y := SecondWeekIsDaily(d, w, list);
        UnionWithTwoCommon(KeptBy(d, list), KeptBy(w, list), list[0], y);
        UnionWithCommon(KeptBy(d, list) + KeptBy(w, list), KeptBy(m, list), list[0]);
      } else {
        ThreeSets(d, w, m, list);
      }
    }
  }

  lemma UnionWithTwoCommon<T>(a: set<T>, b: set<T>, x: T, y: T)
    requires x in a && x in b && y in a && y in b && x != y
    ensures |a + b| <= |a| + |b| - 2
  {
    SubsetIsSmaller({x, y}, a * b);
    assert |a + b| == |a| + |b| - |a * b|;
  }

  lemma ThreeSets(d: Bucket, w: Bucket, m: Bucket, list: seq<Archive>)
    requires list != [] && d.limit > 0 && w.limit > 0 && m.limit > 0
    ensures |KeptBy(d, list) + KeptBy(w, list) + KeptBy(m, list)| <= d.limit + |KeptBy(w, list)| + m.limit - 2
  {
    BucketBound(d, list);
    BucketBound(m, list);
    BucketKeepsNewest(d, list);
    BucketKeepsNewest(w, list);
    BucketKeepsNewest(m, list);
    UnionWithCommon(KeptBy(d, list), KeptBy(w, list), list[0]);
    UnionWithCommon(KeptBy(d, list) + KeptBy(w, list), KeptBy(m, list), list[0]);
  }

  lemma ThreeBuckets(d: Bucket, w: Bucket, m: Bucket, list: seq<Archive>)
    requires list != [] && d.limit > 0 && w.limit > 0 && m.limit > 0
    ensures list[0] in KeptBy(d, list)
    ensures |KeptBy(d, list) + KeptBy(w, list) + KeptBy(m, list)| <= d.limit + w.limit + m.limit - 2
  {
    BucketBound(w, list);
    BucketKeepsNewest(d, list);
    ThreeSets(d, w, m, list);
  }

  /* --------------------------------------------------------------------- the algorithm */

  /** Once a bucket is full nothing older gets into it. */
  lemma {:induction false} FullBucket(b: Bucket, list: seq<Archive>, n: nat)
    requires n <= |list| && |Periods(b, list[..n])| >= b.limit
    ensures KeptBy(b, list) == KeptBy(b, list[..n]) && |Periods(b, list)| >= b.limit
    decreases |list|
  {
    if n < |list| {
      var front := list[..|list| - 1];
      assert front[..n] == list[..n];
      FullBucket(b, front, n);
      SubsetIsSmaller(Periods(b, front), Periods(b, list));
    } else {
      assert list[..n] == list;
    }
  }

  lemma NewValue(seen: map<Period, Archive>, p: Period, x: Archive)
    requires p !in seen
    ensures seen[p := x].Values == seen.Values + {x}
  {
    var more := seen[p := x];
    assert p in more && more[p] == x;
    forall v | v in seen.Values
      ensures v in more.Values
    {
      var k :| k in seen && seen[k] == v;
      assert more[k] == v;
    }
  }

  /** The periods seen so far, each with its newest archive. */
  ghost predicate Sees(b: Bucket, seen: map<Period, Archive>, list: seq<Archive>) {
    seen.Keys == Periods(b, list) && seen.Values == KeptBy(b, list)
  }

  lemma SeeOne(b: Bucket, seen: map<Period, Archive>, list: seq<Archive>, x: Archive)
    requires Sees(b, seen, list) && |seen.Keys| < b.limit
    ensures var p := b.period(x.stamp); Sees(b, if p in seen then seen else seen[p := x], list + [x])
  {
    assert (list + [x])[..|list|] == list;
    var p := b.period(x.stamp);
    if p !in seen {
      NewValue(seen, p, x);
    }
  }

  /** The newest archive of each period, stopping as soon as the bucket is full. */
  method FillBucket(b: Bucket, archives: seq<Archive>) returns (kept: set<Archive>)
    requires b.limit > 0
    ensures kept == KeptBy(b, archives)
  {
    var seen: map<Period, Archive> := map[];
    for j := 0 to |archives|
      invariant Sees(b, seen, archives[..j]) && |seen.Keys| < b.limit
    {
      var x := archives[j];
      assert archives[..j + 1] == archives[..j] + [x];
      SeeOne(b, seen, archives[..j], x);
      var p := b.period(x.stamp);
      if p !in seen {
        seen := seen[p := x];
      }
      if |seen.Keys| >= b.limit {
        FullBucket(b, archives, j + 1);
        return seen.Values;
      }
    }
    assert archives[..|archives|] == archives;
    return seen.Values;
  }

  method RetentionKeep(buckets: seq<Bucket>, archives: seq<Archive>) returns (keep: set<Archive>)
    requires Sane(buckets)
    ensures keep == Keep(buckets, archives)
  {
    if |archives| == 0 {
      return {};
    }
    keep := {archives[0]};
    for i := 0 to |buckets|
      invariant keep == {archives[0]} + KeptByFirst(buckets, i, archives)
    {
      var filled := FillBucket(buckets[i], archives);
      keep := keep + filled;
    }
    KeepIsUnion(buckets, archives);
  }

  /** The archives in a backup directory, newest first, and whether each has its checksum beside it. */
  class BackupDirectory {
    var archives: seq<Archive>
    var sidecars: set<Archive>

    constructor ()
      ensures archives == [] && sidecars == {}
    {
      archives, sidecars := [], {};
    }

    /** A new backup is the newest archive. */
    method Store(a: Archive)
      modifies this
      ensures archives == [a] + old(archives) && sidecars == old(sidecars) + {a}
    {
      archives := [a] + archives;
      sidecars := sidecars + {a};
    }

    method ApplyRetention(buckets: seq<Bucket>, dryRun: bool) returns (removed: seq<Archive>)
      requires Sane(buckets)
      modifies this
      ensures var keep := Keep(buckets, old(archives));
              && (forall x :: x in removed <==> x in old(archives) && x !in keep)
              && archives == (if dryRun then old(archives) else Filter(old(archives), keep))
              && sidecars == (if dryRun then old(sidecars) else set x | x in old(sidecars) && (x in old(archives) ==> x in keep))
    {
      var listed := archives;
      var keep := RetentionKeep(buckets, listed);
      removed := [];
      var remaining: seq<Archive>, checksums := [], sidecars;
      for i := 0 to |listed|
        invariant remaining == Filter(listed[..i], keep)
        invariant forall x :: x in removed <==> x in listed[..i] && x !in keep
        invariant checksums == set x | x in sidecars && (x in listed[..i] ==> x in keep)
      {
        var x := listed[i];
        assert listed[..i + 1] == listed[..i] + [x] && listed[..i + 1][..i] == listed[..i];
        if x in keep {
          remaining := remaining + [x];
        } else {
          removed := removed + [x];
          checksums := checksums - {x};
        }
      }
      assert listed[..|listed|] == listed;
      if !dryRun {
        archives, sidecars := remaining, checksums;
      }
    }
  }

  /** A run of backups, each followed by retention: the directory ends as if retention had run once. */
  method RunBackups(made: seq<Archive>, buckets: seq<Bucket>) returns (d: BackupDirectory)
    requires Sane(buckets) && NoneTwice(made)
    ensures d.archives == Filter(NewestFirst(made), Keep(buckets, NewestFirst(made)))
  {
    d := new BackupDirectory();
    for i := 0 to |made|
      invariant fresh(d)
      invariant d.archives == PrunedEachTime(buckets, made[..i])
    {
      assert made[..i + 1][..i] == made[..i];
      d.Store(made[i]);
      var _ := d.ApplyRetention(buckets, false);
    }
    assert made[..|made|] == made;
    PruningEachTimeIsPruningOnce(buckets, made);
  }
}
