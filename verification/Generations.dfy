/** What retention keeps, archive by archive: the newest of each of so many newest days, weeks and months, and no other. */
module Generations {
  import opened Retention

  /** The periods that the archives before this one fall in. */
  ghost function PeriodsBefore(period: int -> Period, list: seq<Archive>, k: nat): set<Period>
    requires k <= |list|
  {
    set j | 0 <= j < k :: period(list[j].stamp)
  }

  /** The newest of its period, which is one of the `n` newest there are archives of. */
  ghost predicate NewestOfOneOf(n: nat, period: int -> Period, list: seq<Archive>, k: nat)
    requires k < |list|
  {
    && (forall j :: 0 <= j < k ==> period(list[j].stamp) != period(list[k].stamp))
    && |PeriodsBefore(period, list, k)| < n
  }

  /** The newest of all, or of one of the fourteen newest days, the eight newest weeks or the six newest months. */
  ghost predicate Stays(day: int -> Period, week: int -> Period, month: int -> Period, list: seq<Archive>, k: nat)
    requires k < |list|
  {
    k == 0 || NewestOfOneOf(14, day, list, k) || NewestOfOneOf(8, week, list, k) || NewestOfOneOf(6, month, list, k)
  }

  lemma {:induction false} PeriodsAreBefore(b: Bucket, list: seq<Archive>, k: nat)
    requires k <= |list|
    ensures Periods(b, list[..k]) == PeriodsBefore(b.period, list, k)
    decreases k
  {
    if k > 0 {
      PeriodsAreBefore(b, list, k - 1);
      assert list[..k][..k - 1] == list[..k - 1];
      assert PeriodsBefore(b.period, list, k) == PeriodsBefore(b.period, list, k - 1) + {b.period(list[k - 1].stamp)};
    }
  }

  lemma NewestIsNewest(b: Bucket, list: seq<Archive>, k: nat)
    requires k < |list|
    ensures NewestOfPeriod(b, list[..k], list[k]) <==> NewestOfOneOf(b.limit, b.period, list, k)
  {
    PeriodsAreBefore(b, list, k);
  }

  lemma JudgedByAllThree(day: int -> Period, week: int -> Period, month: int -> Period, list: seq<Archive>, k: nat)
    requires k < |list|
    ensures k == 0 || SomeBucketKeeps(Buckets(day, week, month), list[..k], list[k]) <==> Stays(day, week, month, list, k)
  {
    var buckets := Buckets(day, week, month);
    NewestIsNewest(buckets[0], list, k);
    NewestIsNewest(buckets[1], list, k);
    NewestIsNewest(buckets[2], list, k);
  }

  lemma {:induction false} KeptOfTheFirst(day: int -> Period, week: int -> Period, month: int -> Period, list: seq<Archive>, n: nat, x: Archive)
    requires n <= |list|
    ensures x in Keep(Buckets(day, week, month), list[..n]) <==> exists k :: 0 <= k < n && list[k] == x && Stays(day, week, month, list, k)
    decreases n
  {
    if n > 0 {
      assert list[..n][..n - 1] == list[..n - 1];
      KeptOfTheFirst(day, week, month, list, n - 1, x);
      JudgedByAllThree(day, week, month, list, n - 1);
    }
  }

  /** An archive is kept exactly if it is the newest of all, or of one of those days, weeks or months. */
  lemma KeptExactly(day: int -> Period, week: int -> Period, month: int -> Period, list: seq<Archive>, x: Archive)
    ensures x in Keep(Buckets(day, week, month), list) <==> exists k :: 0 <= k < |list| && list[k] == x && Stays(day, week, month, list, k)
  {
    assert list[..|list|] == list;
    KeptOfTheFirst(day, week, month, list, |list|, x);
  }

  /** What is kept stays as often as it was there, and in its order; the rest is gone. */
  lemma {:induction false} FilteringKeeps(list: seq<Archive>, kept: set<Archive>) returns (from: seq<nat>)
    ensures |from| == |Filter(list, kept)|
    ensures forall i :: 0 <= i < |from| ==> from[i] < |list| && Filter(list, kept)[i] == list[from[i]] && list[from[i]] in kept
    ensures forall i, j :: 0 <= i < j < |from| ==> from[i] < from[j]
    ensures forall k: nat :: k < |list| && list[k] in kept ==> k in from
    decreases |list|
  {
    from := [];
    if list != [] {
      from := FilteringKeeps(list[..|list| - 1], kept);
      if list[|list| - 1] in kept {
        from := from + [|list| - 1];
      }
    }
  }
}
