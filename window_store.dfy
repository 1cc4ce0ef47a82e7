/** The in-process window store of middleware/rateLimiter.js: a table from a
    key to its hit count and the instant (in milliseconds) its window ends.
    The clock is an explicit `now` argument. */
module WindowStore {

  /** One key's window: hits seen so far and the instant the window ends. */
  datatype WindowRecord = WindowRecord(count: int, resetTime: int)

  type Table = map<string, WindowRecord>

  /** What `get` answers: the stored record, or a zero record whose reset
      time is the current instant. */
  function Lookup(m: Table, key: string, now: int): WindowRecord {
    if key in m then m[key] else WindowRecord(0, now)
  }

  /** The record `increment` writes back for `key` at instant `now`. The
      window test is strict, and an absent key is read as a zero record that
      ends at `now`, so its first hit keeps `resetTime == now`. */
  function Hit(m: Table, key: string, now: int, windowMs: int): WindowRecord {
    var rec := Lookup(m, key, now);
    if now > rec.resetTime then WindowRecord(1, now + windowMs)
    else WindowRecord(rec.count + 1, rec.resetTime)
  }

  /** The table after one `increment`. */
  function Bump(m: Table, key: string, now: int, windowMs: int): Table {
    m[key := Hit(m, key, now, windowMs)]
  }

  /** The records `cleanup` keeps: those whose window has not strictly passed. */
  function Live(m: Table, now: int): Table {
    map k | k in m && !(now > m[k].resetTime) :: m[k]
  }

  /** Every stored record has seen at least one hit. */
  ghost predicate WellFormed(m: Table) {
    forall k :: k in m ==> m[k].count >= 1
  }

  /** The counts returned by successive `increment(key, windowMs)` calls at the
      instants `times`, starting from table `m`. */
  function Counts(m: Table, key: string, times: seq<int>, windowMs: int): seq<int>
    decreases |times|
  {
    if times == [] then []
    else [Hit(m, key, times[0], windowMs).count]
         + Counts(Bump(m, key, times[0], windowMs), key, times[1..], windowMs)
  }

  class MemoryStore {
    var store: Table

    /** A store starts empty; the periodic cleanup timer is not modelled. */
    constructor ()
      ensures store == map[]
    {
      store := map[];
    }

    /** `get`: reads a record without changing the table. */
    method Get(key: string, now: int) returns (r: WindowRecord)
      ensures key in store ==> r == store[key]
      ensures key !in store ==> r == WindowRecord(0, now)
    {
      if key in store {
        r := store[key];
      } else {
        r := WindowRecord(0, now);
      }
    }

    /** `increment`: restarts an expired window or adds one hit, writes the
        record back and returns the stored count. */
    method Increment(key: string, windowMs: int, now: int) returns (count: int)
      modifies this
      ensures store == Bump(old(store), key, now, windowMs)
      ensures count == store[key].count
      ensures WellFormed(old(store)) ==> WellFormed(store)
    {
      var rec := Get(key, now);
      if now > rec.resetTime {
        store := store[key := WindowRecord(1, now + windowMs)];
        return 1;
      }
      var updated := WindowRecord(rec.count + 1, rec.resetTime);
      store := store[key := updated];
      count := updated.count;
    }

    /** `cleanup`: walks the entries and deletes every expired one. */
    method Cleanup(now: int)
      modifies this
      ensures store == Live(old(store), now)
      ensures WellFormed(old(store)) ==> WellFormed(store)
    {
      ghost var before := store;
      var pending := store.Keys;
      while pending != {}
        invariant pending <= before.Keys
        invariant forall k :: k in store <==> k in before && (k in pending || !(now > before[k].resetTime))
        invariant forall k :: k in store ==> store[k] == before[k]
        decreases pending
      {
        var k :| k in pending;
        if now > store[k].resetTime {
          store := store - {k};
        }
        pending := pending - {k};
      }
      assert store.Keys == Live(before, now).Keys;
    }
  }

  // ---------------------------------------------------------------------
  // Properties of `increment` and `cleanup`

  /** Past the reset time the window restarts: count 1, ending `windowMs` later. */
  lemma HitAfterExpiry(m: Table, key: string, now: int, windowMs: int)
    requires key in m && now > m[key].resetTime
    ensures Hit(m, key, now, windowMs) == WindowRecord(1, now + windowMs)
  {
  }

  /** Up to and including the reset instant the window is live: one more hit,
      same reset time. */
  lemma HitWithinWindow(m: Table, key: string, now: int, windowMs: int)
    requires key in m && now <= m[key].resetTime
    ensures Hit(m, key, now, windowMs) == WindowRecord(m[key].count + 1, m[key].resetTime)
  {
  }

  /** A key's first hit stores count 1 with the window ending at `now`. */
  lemma HitOnAbsentKey(m: Table, key: string, now: int, windowMs: int)
    requires key !in m
    ensures Hit(m, key, now, windowMs) == WindowRecord(1, now)
  {
  }

  /** `increment` stores a record for its key and leaves every other key alone. */
  lemma BumpTouchesOnlyItsKey(m: Table, key: string, now: int, windowMs: int)
    ensures key in Bump(m, key, now, windowMs)
    ensures forall k :: k != key ==>
      (k in Bump(m, key, now, windowMs) <==> k in m) &&
      (k in m ==> Bump(m, key, now, windowMs)[k] == m[k])
  {
  }

  /** A stored window never ends before the hit that stored it, for a
      non-negative window length. */
  lemma HitEndsNoEarlierThanNow(m: Table, key: string, now: int, windowMs: int)
    requires windowMs >= 0
    ensures Hit(m, key, now, windowMs).resetTime >= now
  {
  }

  /** `cleanup` removes exactly the expired records and keeps the others as they were. */
  lemma LiveKeepsExactlyUnexpired(m: Table, now: int)
    ensures forall k :: k in Live(m, now) <==> k in m && m[k].resetTime >= now
    ensures forall k :: k in Live(m, now) ==> Live(m, now)[k] == m[k]
  {
  }

  /** Cleaning up twice, the second time no earlier, is one cleanup at the later instant. */
  lemma LiveAtLaterInstant(m: Table, t1: int, t2: int)
    requires t1 <= t2
    ensures Live(Live(m, t1), t2) == Live(m, t2)
  {
  }

  /** A cleanup at `t` does not change the count the next `increment`
      returns. */
  lemma CleanupKeepsCounts(m: Table, t: int, key: string, now: int, windowMs: int)
    requires t <= now
    ensures Hit(Live(m, t), key, now, windowMs).count == Hit(m, key, now, windowMs).count
  {
  }

  /** It can change the reset time, though: an expired record that cleanup
      deleted comes back as a fresh key whose window ends at `now`, where the
      uncleaned table would have opened a full window. */
  lemma CleanupShortensReopenedWindow(m: Table, key: string, t: int, now: int, windowMs: int)
    requires key in m && m[key].resetTime < t <= now
    ensures Hit(m, key, now, windowMs) == WindowRecord(1, now + windowMs)
    ensures Hit(Live(m, t), key, now, windowMs) == WindowRecord(1, now)
  {
  }

  /** So the counts after the next one can differ: a record expired at 0 and
      hit at 1 and 2 counts 1, 2 as it stands, but 1, 1 once a cleanup at 1
      has deleted it (with `max` 1, a denial becomes an allow). */
  lemma CleanupCanChangeLaterCounts()
    ensures var m := map["k" := WindowRecord(1, 0)];
      Counts(m, "k", [1, 2], 1000) == [1, 2] &&
      Counts(Live(m, 1), "k", [1, 2], 1000) == [1, 1]
  {
    var m := map["k" := WindowRecord(1, 0)];
    var c := Live(m, 1);
    assert "k" !in c;
    assert Bump(m, "k", 1, 1000)["k"] == WindowRecord(1, 1001);
    assert Bump(c, "k", 1, 1000)["k"] == WindowRecord(1, 1);
    assert [1, 2][1..] == [2];
  }

  /** Hits that all land no later than the window's end count up one by one. */
  lemma {:induction false} CountsWithinWindow(m: Table, key: string, times: seq<int>, windowMs: int)
    requires key in m
    requires forall i :: 0 <= i < |times| ==> times[i] <= m[key].resetTime
    ensures |Counts(m, key, times, windowMs)| == |times|
    ensures forall i :: 0 <= i < |times| ==> Counts(m, key, times, windowMs)[i] == m[key].count + i + 1
    decreases |times|
  {
    if times != [] {
      var m' := Bump(m, key, times[0], windowMs);
      assert m'[key] == WindowRecord(m[key].count + 1, m[key].resetTime);
      CountsWithinWindow(m', key, times[1..], windowMs);
    }
  }

  /** For a fresh key, `n` hits in the very millisecond of the first (or
      earlier) return 1, 2, ..., n. */
  lemma {:induction false} CountsFromFreshKey(m: Table, key: string, times: seq<int>, windowMs: int)
    requires key !in m && times != []
    requires forall i :: 0 <= i < |times| ==> times[i] <= times[0]
    ensures |Counts(m, key, times, windowMs)| == |times|
    ensures forall i :: 0 <= i < |times| ==> Counts(m, key, times, windowMs)[i] == i + 1
  {
    var m' := Bump(m, key, times[0], windowMs);
    assert m'[key] == WindowRecord(1, times[0]);
    CountsWithinWindow(m', key, times[1..], windowMs);
  }

  /** But a fresh key hit in three successive milliseconds counts 1, 1, 2:
      its first window ends at the instant of the first hit. */
  lemma FreshKeySuccessiveMilliseconds(t: int, windowMs: int)
    requires windowMs >= 1
    ensures Counts(map[], "ip", [t, t + 1, t + 2], windowMs) == [1, 1, 2]
  {
    var m1 := Bump(map[], "ip", t, windowMs);
    assert m1["ip"] == WindowRecord(1, t);
    var m2 := Bump(m1, "ip", t + 1, windowMs);
    assert m2["ip"] == WindowRecord(1, t + 1 + windowMs);
    assert Counts(m2, "ip", [t + 2], windowMs) == [2];
    assert [t, t + 1, t + 2][1..] == [t + 1, t + 2];
    assert [t + 1, t + 2][1..] == [t + 2];
  }
}
