/**
 * The sliding-window rate limiter. It forgets attempts as they leave the window and drops idle keys when it
 * holds too many, and still answers as if it had kept every grant ever made. Clocks never run backwards.
 */
module RateLimiter {

  type Key = string

  const PRUNE_ABOVE: nat := 5000

  /** The times after `cutoff`. */
  function Since(times: seq<int>, cutoff: int): seq<int>
    decreases |times|
  {
    if times == [] then []
    else
      var front := Since(times[..|times| - 1], cutoff);
      var last := times[|times| - 1];
      if last > cutoff then front + [last] else front
  }

  function TimesOf(book: map<Key, seq<int>>, key: Key): seq<int> {
    if key in book then book[key] else []
  }

  /** The answer computed from every grant ever made to this key. */
  predicate MayGrant(log: map<Key, seq<int>>, key: Key, now: int, limit: nat, windowMs: nat) {
    |Since(TimesOf(log, key), now - windowMs)| < limit
  }

  ghost predicate Ordered(times: seq<int>) {
    forall i, j :: 0 <= i < j < |times| ==> times[i] <= times[j]
  }

  /** Any limit + 1 successive grants span at least the window. */
  ghost predicate Spread(times: seq<int>, limit: nat, windowMs: nat) {
    forall i, j :: 0 <= i && i + limit <= j < |times| ==> times[i] + windowMs <= times[j]
  }

  lemma {:induction false} SinceTwice(times: seq<int>, early: int, late: int)
    requires early <= late
    ensures Since(Since(times, early), late) == Since(times, late)
    ensures |Since(times, late)| <= |Since(times, early)|
    decreases |times|
  {
    if times != [] {
      SinceTwice(times[..|times| - 1], early, late);
      var front, last := Since(times[..|times| - 1], early), times[|times| - 1];
      if last > early {
        assert (front + [last])[..|front|] == front;
      }
    }
  }

  /** Which of the times are after the cutoff. */
  ghost function After(times: seq<int>, cutoff: int): set<nat> {
    set i: nat | i < |times| && times[i] > cutoff
  }

  lemma {:induction false} SinceCountsAll(times: seq<int>, cutoff: int)
    ensures |Since(times, cutoff)| == |After(times, cutoff)|
    decreases |times|
  {
    if times != [] {
      var n := |times| - 1;
      SinceCountsAll(times[..n], cutoff);
      assert After(times, cutoff) == After(times[..n], cutoff) + if times[n] > cutoff then {n} else {};
    }
  }

  /** A grant is refused only while as many as the limit lie in the window that ends now, and never given then. */
  lemma GrantedWhileThereIsRoom(log: map<Key, seq<int>>, key: Key, now: int, limit: nat, windowMs: nat)
    ensures MayGrant(log, key, now, limit, windowMs) <==>
            if key in log then |After(log[key], now - windowMs)| < limit else limit > 0
  {
    if key in log {
      SinceCountsAll(log[key], now - windowMs);
    }
  }

  lemma {:induction false} SinceKeepsSome(times: seq<int>, cutoff: int)
    ensures (exists i :: 0 <= i < |times| && times[i] > cutoff) <==> Since(times, cutoff) != []
    decreases |times|
  {
    if times != [] {
      SinceKeepsSome(times[..|times| - 1], cutoff);
    }
  }

  lemma {:induction false} SinceCounts(times: seq<int>, cutoff: int, i: nat)
    requires Ordered(times) && i < |times| && times[i] > cutoff
    ensures |Since(times, cutoff)| >= |times| - i
    decreases |times|
  {
    if i < |times| - 1 {
      SinceCounts(times[..|times| - 1], cutoff, i);
    }
  }

  lemma GrantKeepsSpread(times: seq<int>, now: int, limit: nat, windowMs: nat)
    requires Ordered(times) && Spread(times, limit, windowMs) && (times != [] ==> times[|times| - 1] <= now)
    requires |Since(times, now - windowMs)| < limit
    ensures Ordered(times + [now]) && Spread(times + [now], limit, windowMs)
  {
    var all := times + [now];
    forall i, j | 0 <= i && i + limit <= j < |all|
      ensures all[i] + windowMs <= all[j]
    {
      if j == |times| && times[i] > now - windowMs {
        SinceCounts(times, now - windowMs, i);
        assert false;
      }
    }
  }

  function CountIn(times: seq<int>, after: int, until: int): nat
    decreases |times|
  {
    if times == [] then 0
    else CountIn(times[..|times| - 1], after, until) + if after < times[|times| - 1] <= until then 1 else 0
  }

  /** No window as long as the limiter's, wherever it starts, holds more grants than the limit. */
  lemma {:induction false} NoWindowHoldsMore(times: seq<int>, after: int, limit: nat, windowMs: nat)
    requires Ordered(times) && Spread(times, limit, windowMs)
    ensures CountIn(times, after, after + windowMs) <= limit
    decreases |times|
  {
    if times != [] {
      var n, last := |times| - 1, times[|times| - 1];
      NoWindowHoldsMore(times[..n], after, limit, windowMs);
      if after < last <= after + windowMs && CountIn(times[..n], after, after + windowMs) == limit {
        var i := FirstOf(times[..n], after, after + windowMs);
        assert false;
      }
    }
  }

  /** In order, the times counted are among the last; the first of them stands far enough from the end. */
  lemma {:induction false} FirstOf(times: seq<int>, after: int, until: int) returns (i: nat)
    ensures i <= |times| && i + CountIn(times, after, until) <= |times|
    ensures CountIn(times, after, until) > 0 ==> i < |times| && after < times[i]
    decreases |times|
  {
    if times == [] {
      i := 0;
    } else {
      i := FirstOf(times[..|times| - 1], after, until);
      if CountIn(times[..|times| - 1], after, until) == 0 && after < times[|times| - 1] <= until {
        i := |times| - 1;
      }
    }
  }

  method SinceCutoff(times: seq<int>, cutoff: int) returns (recent: seq<int>)
    ensures recent == Since(times, cutoff)
  {
    recent := [];
    for i := 0 to |times|
      invariant recent == Since(times[..i], cutoff)
    {
      assert times[..i + 1][..i] == times[..i];
      if times[i] > cutoff {
        recent := recent + [times[i]];
      }
    }
    assert times[..|times|] == times;
  }

  type Book = map<Key, seq<int>>

  /** What is remembered agrees with the log on everything after the cutoff. */
  ghost predicate Agrees(book: Book, log: Book, cutoff: int) {
    forall key :: AgreesOn(book, log, key, cutoff)
  }

  ghost predicate AgreesOn(book: Book, log: Book, key: Key, cutoff: int) {
    Since(TimesOf(book, key), cutoff) == Since(TimesOf(log, key), cutoff)
  }

  ghost predicate SoundTimes(times: seq<int>, limit: nat, windowMs: nat, latest: int) {
    Ordered(times) && Spread(times, limit, windowMs) && forall i :: 0 <= i < |times| ==> times[i] <= latest
  }

  ghost predicate SoundKey(log: Book, key: Key, limit: nat, windowMs: nat, latest: int) {
    SoundTimes(TimesOf(log, key), limit, windowMs, latest)
  }

  ghost predicate SoundLog(log: Book, limit: nat, windowMs: nat, latest: int) {
    forall key :: SoundKey(log, key, limit, windowMs, latest)
  }

  lemma AgreesLater(book: Book, log: Book, early: int, late: int)
    requires Agrees(book, log, early) && early <= late
    ensures Agrees(book, log, late)
  {
    forall key
      ensures AgreesOn(book, log, key, late)
    {
      assert AgreesOn(book, log, key, early);
      SinceTwice(TimesOf(book, key), early, late);
      SinceTwice(TimesOf(log, key), early, late);
    }
  }

  lemma SoundLater(log: Book, limit: nat, windowMs: nat, early: int, late: int)
    requires SoundLog(log, limit, windowMs, early) && early <= late
    ensures SoundLog(log, limit, windowMs, late)
  {
    forall key
      ensures SoundKey(log, key, limit, windowMs, late)
    {
      assert SoundKey(log, key, limit, windowMs, early);
    }
  }

  /** Keeping only the times after the cutoff loses nothing the cutoff still sees. */
  lemma TrimAgrees(book: Book, log: Book, key: Key, cutoff: int)
    requires Agrees(book, log, cutoff)
    ensures Agrees(book[key := Since(TimesOf(book, key), cutoff)], log, cutoff)
  {
    SinceTwice(TimesOf(book, key), cutoff, cutoff);
    var book' := book[key := Since(TimesOf(book, key), cutoff)];
    forall k
      ensures AgreesOn(book', log, k, cutoff)
    {
      assert AgreesOn(book, log, k, cutoff);
    }
  }

  lemma SinceAppended(times: seq<int>, now: int, cutoff: int)
    ensures Since(times + [now], cutoff) == if now > cutoff then Since(times, cutoff) + [now] else Since(times, cutoff)
  {
    assert (times + [now])[..|times|] == times;
  }

  lemma AppendedAgrees(times: seq<int>, past: seq<int>, now: int, cutoff: int)
    requires Since(times, cutoff) == Since(past, cutoff)
    ensures Since(Since(times, cutoff) + [now], cutoff) == Since(past + [now], cutoff)
  {
    SinceTwice(times, cutoff, cutoff);
    SinceAppended(Since(times, cutoff), now, cutoff);
    SinceAppended(past, now, cutoff);
  }

  lemma PutAgrees(book: Book, log: Book, key: Key, times: seq<int>, past: seq<int>, cutoff: int)
    requires Agrees(book, log, cutoff) && Since(times, cutoff) == Since(past, cutoff)
    ensures Agrees(book[key := times], log[key := past], cutoff)
  {
    var book', log' := book[key := times], log[key := past];
    forall k
      ensures AgreesOn(book', log', k, cutoff)
    {
      assert AgreesOn(book, log, k, cutoff);
    }
  }

  /** Recording a grant on both sides, what is remembered trimmed first. */
  lemma RecordAgrees(book: Book, log: Book, key: Key, now: int, cutoff: int)
    requires Agrees(book, log, cutoff)
    ensures Agrees(book[key := Since(TimesOf(book, key), cutoff) + [now]], log[key := TimesOf(log, key) + [now]], cutoff)
  {
    assert AgreesOn(book, log, key, cutoff);
    AppendedAgrees(TimesOf(book, key), TimesOf(log, key), now, cutoff);
    PutAgrees(book, log, key, Since(TimesOf(book, key), cutoff) + [now], TimesOf(log, key) + [now], cutoff);
  }

  lemma RecordIsSound(log: Book, key: Key, now: int, limit: nat, windowMs: nat)
    requires SoundLog(log, limit, windowMs, now) && MayGrant(log, key, now, limit, windowMs)
    ensures SoundLog(log[key := TimesOf(log, key) + [now]], limit, windowMs, now)
  {
    var times := TimesOf(log, key);
    var log' := log[key := times + [now]];
    assert SoundKey(log, key, limit, windowMs, now);
    GrantKeepsSpread(times, now, limit, windowMs);
    forall k
      ensures SoundKey(log', k, limit, windowMs, now)
    {
      assert SoundKey(log, k, limit, windowMs, now);
    }
  }

  /** The keys not yet looked at, and those with something left after the cutoff. */
  function LiveBut(book: Book, cutoff: int, rest: set<Key>): Book {
    map key | key in book && (key in rest || Since(book[key], cutoff) != []) :: book[key]
  }

  function Live(book: Book, cutoff: int): Book {
    LiveBut(book, cutoff, {})
  }

  /** Dropping keys the cutoff sees nothing of. */
  lemma DropAgrees(book: Book, book': Book, log: Book, cutoff: int)
    requires Agrees(book, log, cutoff)
    requires book' == Live(book, cutoff)
    ensures Agrees(book', log, cutoff)
  {
    forall key
      ensures AgreesOn(book', log, key, cutoff)
    {
      assert AgreesOn(book, log, key, cutoff);
    }
  }

  /** The trimmed memory gives the full log's answer. */
  lemma SameAnswer(book: Book, log: Book, key: Key, now: int, limit: nat, windowMs: nat)
    requires Agrees(book, log, now - windowMs)
    ensures MayGrant(log, key, now, limit, windowMs) <==> |Since(TimesOf(book, key), now - windowMs)| < limit
  {
    assert AgreesOn(book, log, key, now - windowMs);
  }

  /** What is still in the window: enough to answer from, and to go on remembering, whichever the answer. */
  method Recent(book: Book, ghost log: Book, key: Key, now: int, limit: nat, windowMs: nat) returns (recent: seq<int>)
    requires Agrees(book, log, now - windowMs)
    ensures |recent| < limit <==> MayGrant(log, key, now, limit, windowMs)
    ensures Agrees(book[key := recent], log, now - windowMs)
    ensures Agrees(book[key := recent + [now]], log[key := TimesOf(log, key) + [now]], now - windowMs)
  {
    SameAnswer(book, log, key, now, limit, windowMs);
    TrimAgrees(book, log, key, now - windowMs);
    RecordAgrees(book, log, key, now, now - windowMs);
    recent := SinceCutoff(TimesOf(book, key), now - windowMs);
  }

  class SlidingWindowRateLimiter {
    const limit: nat
    const windowMs: nat
    var attempts: Book
    /** Every grant ever made, per key, and the latest clock seen. */
    ghost var log: Book
    ghost var latest: int

    constructor (limit: nat, windowMs: nat)
      ensures this.limit == limit && this.windowMs == windowMs && log == map[] && Valid()
    {
      this.limit, this.windowMs := limit, windowMs;
      attempts, log, latest := map[], map[], 0;
    }

    ghost predicate Valid()
      reads this
    {
      Agrees(attempts, log, latest - windowMs) && SoundLog(log, limit, windowMs, latest)
    }

    /** Grants exactly when the full log allows it, and forgets nothing the log still holds against any key. */
    method Allow(key: Key, now: int) returns (granted: bool)
      requires Valid() && latest <= now
      modifies this
      ensures Valid() && latest == now
      ensures granted <==> MayGrant(old(log), key, now, limit, windowMs)
      ensures log == if granted then old(log)[key := TimesOf(old(log), key) + [now]] else old(log)
    {
      var cutoff := now - windowMs;
      AgreesLater(attempts, log, latest - windowMs, cutoff);
      SoundLater(log, limit, windowMs, latest, now);
      var recent := Recent(attempts, log, key, now, limit, windowMs);
      granted := |recent| < limit;
      if !granted {
        attempts, latest := attempts[key := recent], now;
        return;
      }
      RecordIsSound(log, key, now, limit, windowMs);
      attempts, log, latest := attempts[key := recent + [now]], log[key := TimesOf(log, key) + [now]], now;
      if |attempts| > PRUNE_ABOVE {
        Prune(now);
      }
    }

    /** Whether `Allow` would grant right now; nothing is recorded. */
    method WouldAllow(key: Key, now: int) returns (may: bool)
      requires Valid() && latest <= now
      ensures may <==> MayGrant(log, key, now, limit, windowMs)
    {
      AgreesLater(attempts, log, latest - windowMs, now - windowMs);
      SameAnswer(attempts, log, key, now, limit, windowMs);
      var recent := SinceCutoff(TimesOf(attempts, key), now - windowMs);
      may := |recent| < limit;
    }

    /** Drops exactly the keys with nothing left in the window. */
    method Prune(now: int)
      requires Valid() && latest == now
      modifies this`attempts
      ensures Valid() && attempts == Live(old(attempts), now - windowMs)
    {
      var cutoff := now - windowMs;
      var kept := attempts;
      var rest := attempts.Keys;
      while rest != {}
        invariant attempts == old(attempts) && rest <= kept.Keys
        invariant kept == LiveBut(attempts, cutoff, rest)
        decreases |rest|
      {
        var key :| key in rest;
        rest := rest - {key};
        SinceKeepsSome(attempts[key], cutoff);
        if !(exists i :: 0 <= i < |attempts[key]| && attempts[key][i] > cutoff) {
          kept := kept - {key};
        }
      }
      DropAgrees(attempts, kept, log, cutoff);
      attempts := kept;
    }
  }

  /** The log a limiter reaches never shows more than the limit in any window, for any key. */
  lemma LimitHolds(limiter: SlidingWindowRateLimiter, key: Key, after: int)
    requires limiter.Valid()
    ensures CountIn(TimesOf(limiter.log, key), after, after + limiter.windowMs) <= limiter.limit
  {
    assert SoundKey(limiter.log, key, limiter.limit, limiter.windowMs, limiter.latest);
    NoWindowHoldsMore(TimesOf(limiter.log, key), after, limiter.limit, limiter.windowMs);
  }

  datatype Spent = Both | CredentialLimit | OwnerLimit

  /** Creating a board as an agent costs one of each budget: both are charged or neither is. */
  method Spend(credentials: SlidingWindowRateLimiter, owners: SlidingWindowRateLimiter, credential: Key, owner: Key, clock: seq<int>)
    returns (spent: Spent)
    requires credentials != owners && credentials.Valid() && owners.Valid()
    requires |clock| == 4 && Ordered(clock) && credentials.latest <= clock[0] && owners.latest <= clock[0]
    modifies credentials, owners
    ensures credentials.Valid() && owners.Valid()
    ensures spent.Both? ==>
              && credentials.log == old(credentials.log)[credential := TimesOf(old(credentials.log), credential) + [clock[2]]]
              && owners.log == old(owners.log)[owner := TimesOf(old(owners.log), owner) + [clock[3]]]
    ensures !spent.Both? ==> credentials.log == old(credentials.log) && owners.log == old(owners.log)
    ensures spent == if !MayGrant(old(credentials.log), credential, clock[0], credentials.limit, credentials.windowMs) then CredentialLimit
                     else if !MayGrant(old(owners.log), owner, clock[1], owners.limit, owners.windowMs) then OwnerLimit
                     else Both
  {
    var creditable := credentials.WouldAllow(credential, clock[0]);
    if !creditable {
      return CredentialLimit;
    }
    var ownable := owners.WouldAllow(owner, clock[1]);
    if !ownable {
      return OwnerLimit;
    }
    SinceTwice(TimesOf(credentials.log, credential), clock[0] - credentials.windowMs, clock[2] - credentials.windowMs);
    SinceTwice(TimesOf(owners.log, owner), clock[1] - owners.windowMs, clock[3] - owners.windowMs);
    var first := credentials.Allow(credential, clock[2]);
    var second := owners.Allow(owner, clock[3]);
    return Both;
  }
}
