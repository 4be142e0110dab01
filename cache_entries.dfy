/**
 * What both cache backends store per key, the strict expiry rule they share,
 * and the minimum and maximum their statistics report.
 */
module CacheEntries {
  import opened Wrappers

  /** The lifetime `set` uses when the caller passes none. */
  const DefaultTtlHours := 24

  /** `ttlHours * 60 * 60 * 1000`. */
  function TtlMillis(ttlHours: int): int {
    ttlHours * 60 * 60 * 1000
  }

  /**
   * A cache entry: the stored report, when it was written (milliseconds),
   * its lifetime in milliseconds and how often it was read back.
   */
  datatype Entry = Entry(data: string, timestamp: int, ttl: int, hits: nat)

  /** The entry `set` writes at time `now`; `ttlHours` None is the omitted argument. */
  function NewEntry(data: string, ttlHours: Option<int>, now: int): Entry {
    Entry(data, now, TtlMillis(ttlHours.GetOr(DefaultTtlHours)), 0)
  }

  /** `Date.now() - entry.timestamp > entry.ttl`: strictly older than its lifetime. */
  predicate Expired(e: Entry, now: int) {
    now - e.timestamp > e.ttl
  }

  /** The entry after a read: `entry.hits += 1`. */
  function Hit(e: Entry): Entry {
    e.(hits := e.hits + 1)
  }

  /**
   * A fresh entry survives exactly while its age is at most its lifetime: an
   * entry read back exactly `ttl` milliseconds later is still a hit.
   */
  lemma NewEntryLifetime(data: string, ttlHours: Option<int>, written: int, now: int)
    ensures var e := NewEntry(data, ttlHours, written);
      && e.data == data && e.hits == 0 && e.timestamp == written
      && (Expired(e, now) <==> now - written > TtlMillis(ttlHours.GetOr(DefaultTtlHours)))
  {
  }

  /** A read counts one hit and changes nothing else. */
  lemma HitKeepsEntry(e: Entry, now: int)
    ensures Hit(e).hits == e.hits + 1 && Hit(e).data == e.data
    ensures Hit(e).timestamp == e.timestamp && Hit(e).ttl == e.ttl
    ensures Expired(Hit(e), now) == Expired(e, now)
  {
  }

  /** A left-to-right running minimum started at `init` (`Math.min` in a loop). */
  function Low(init: int, s: seq<int>): (m: int)
    ensures m <= init
  {
    if s == [] then init else var m := Low(init, s[..|s| - 1]); if s[|s| - 1] < m then s[|s| - 1] else m
  }

  /** A left-to-right running maximum started at `init` (`Math.max` in a loop). */
  function High(init: int, s: seq<int>): (m: int)
    ensures m >= init
  {
    if s == [] then init else var m := High(init, s[..|s| - 1]); if s[|s| - 1] > m then s[|s| - 1] else m
  }

  /** The running minimum is at most every value. */
  lemma {:induction false} LowIsLowerBound(init: int, s: seq<int>)
    ensures forall j :: 0 <= j < |s| ==> Low(init, s) <= s[j]
  {
    if s != [] {
      LowIsLowerBound(init, s[..|s| - 1]);
      assert forall j :: 0 <= j < |s| - 1 ==> s[..|s| - 1][j] == s[j];
    }
  }

  /** The running maximum is at least every value. */
  lemma {:induction false} HighIsUpperBound(init: int, s: seq<int>)
    ensures forall j :: 0 <= j < |s| ==> High(init, s) >= s[j]
  {
    if s != [] {
      HighIsUpperBound(init, s[..|s| - 1]);
      assert forall j :: 0 <= j < |s| - 1 ==> s[..|s| - 1][j] == s[j];
    }
  }

  /** The running minimum is attained: it is the start value or one of the values. */
  lemma {:induction false} LowAttained(init: int, s: seq<int>)
    ensures Low(init, s) == init || exists j :: 0 <= j < |s| && Low(init, s) == s[j]
  {
    if s != [] {
      LowAttained(init, s[..|s| - 1]);
      if Low(init, s) != s[|s| - 1] && Low(init, s) != init {
        var j :| 0 <= j < |s| - 1 && Low(init, s[..|s| - 1]) == s[..|s| - 1][j];
        assert Low(init, s) == s[j];
      }
    }
  }

  /** The running maximum is attained: it is the start value or one of the values. */
  lemma {:induction false} HighAttained(init: int, s: seq<int>)
    ensures High(init, s) == init || exists j :: 0 <= j < |s| && High(init, s) == s[j]
  {
    if s != [] {
      HighAttained(init, s[..|s| - 1]);
      if High(init, s) != s[|s| - 1] && High(init, s) != init {
        var j :| 0 <= j < |s| - 1 && High(init, s[..|s| - 1]) == s[..|s| - 1][j];
        assert High(init, s) == s[j];
      }
    }
  }

  /** A minimum never exceeds a maximum over the same non-empty values. */
  lemma LowBelowHigh(a: int, b: int, s: seq<int>)
    requires |s| > 0
    ensures Low(a, s) <= High(b, s)
  {
    LowIsLowerBound(a, s);
    HighIsUpperBound(b, s);
  }

  /** `Math.min(...s)` for non-empty `s`. */
  function MinOf(s: seq<int>): int
    requires |s| > 0
  {
    Low(s[0], s)
  }

  /** `Math.max(...s)` for non-empty `s`. */
  function MaxOf(s: seq<int>): int
    requires |s| > 0
  {
    High(s[0], s)
  }

  lemma MinOfIsMinimum(s: seq<int>)
    requires |s| > 0
    ensures forall j :: 0 <= j < |s| ==> MinOf(s) <= s[j]
    ensures exists i :: 0 <= i < |s| && s[i] == MinOf(s)
  {
    LowIsLowerBound(s[0], s);
    LowAttained(s[0], s);
  }

  lemma MaxOfIsMaximum(s: seq<int>)
    requires |s| > 0
    ensures forall j :: 0 <= j < |s| ==> MaxOf(s) >= s[j]
    ensures exists i :: 0 <= i < |s| && s[i] == MaxOf(s)
  {
    HighIsUpperBound(s[0], s);
    HighAttained(s[0], s);
  }
}
