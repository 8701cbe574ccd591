/**
 * The sliding-window rate limiter (src/utils/rateLimiter.js).  Each user
 * key `user_<id>` holds the timestamps of that user's admitted requests;
 * a check first drops the timestamps that have left the window, then
 * either denies (the window is full) or records the new request.  The
 * clock is the `now` parameter; the periodic sweep is the `Cleanup` method.
 */
module Limiter {
  import opened Text
  import opened Collections

  /** The record kept per user key. */
  datatype UserWindow = UserWindow(requests: seq<int>, firstRequest: int)

  /** What `checkLimit` returns. */
  datatype LimitResult = LimitResult(allowed: bool, limit: int, remaining: int, resetTime: int, retryAfter: int)

  const DefaultWindowMs := 60000
  const DefaultMaxRequests := 10

  /** `user_${userId}`. */
  function UserKey(userId: string): (k: string)
    ensures |k| == 5 + |userId| && k[5..] == userId
  {
    "user_" + userId
  }

  lemma UserKeysDistinct(a: string, b: string)
    requires a != b
    ensures UserKey(a) != UserKey(b)
  {
    assert UserKey(a)[5..] == a;
  }

  /** `requests.filter(t => now - t < windowMs)`. */
  function Live(requests: seq<int>, now: int, windowMs: int): (r: seq<int>)
    ensures |r| <= |requests|
    ensures forall t :: t in r <==> t in requests && now - t < windowMs
  {
    if requests == [] then []
    else (if now - requests[0] < windowMs then [requests[0]] else []) + Live(requests[1..], now, windowMs)
  }

  /** A timestamp that has left the window makes the filtered list strictly shorter. */
  lemma {:induction false} LiveDropsStale(requests: seq<int>, now: int, windowMs: int, i: int)
    requires 0 <= i < |requests| && now - requests[i] >= windowMs
    ensures |Live(requests, now, windowMs)| < |requests|
  {
    if i > 0 {
      LiveDropsStale(requests[1..], now, windowMs, i - 1);
    }
  }

  /** `Math.min(...s)` on a non-empty list. */
  function Min(s: seq<int>): (m: int)
    requires s != []
    ensures m in s && forall t | t in s :: m <= t
  {
    if |s| == 1 then s[0]
    else
      var rest := Min(s[1..]);
      assert forall t | t in s :: t == s[0] || t in s[1..];
      if s[0] <= rest then s[0] else rest
  }

  /** The window with its stale timestamps dropped. */
  function Purge(w: UserWindow, now: int, windowMs: int): UserWindow
  {
    w.(requests := Live(w.requests, now, windowMs))
  }

  /** The record a first check creates. */
  function Fresh(now: int): UserWindow
  {
    UserWindow([], now)
  }

  /** The body of `checkLimit` on one user's record: the new record and the answer. */
  function Decide(w: UserWindow, now: int, windowMs: int, maxRequests: int): (r: (UserWindow, LimitResult))
    requires maxRequests >= 1
    ensures var live := Live(w.requests, now, windowMs);
      && r.0.firstRequest == w.firstRequest
      && r.1.limit == maxRequests
      && (r.1.allowed <==> |live| < maxRequests)
      && (r.1.allowed ==> r.0.requests == live + [now] && r.1.remaining == maxRequests - |live| - 1 >= 0 && r.1.retryAfter == 0
                            && r.1.resetTime == r.0.requests[0] + windowMs)
      && (!r.1.allowed ==> r.0.requests == live && r.1.remaining == 0 && r.1.retryAfter >= 1
                             && r.1.resetTime == Min(live) + windowMs
                             && 1000 * (r.1.retryAfter - 1) < r.1.resetTime - now <= 1000 * r.1.retryAfter)
  {
    var p := Purge(w, now, windowMs);
    if |p.requests| >= maxRequests then
      var resetTime := Min(p.requests) + windowMs;
      (p, LimitResult(false, maxRequests, 0, resetTime, CeilDiv(resetTime - now, 1000)))
    else
      var q := p.(requests := p.requests + [now]);
      (q, LimitResult(true, maxRequests, maxRequests - |q.requests|, q.requests[0] + windowMs, 0))
  }

  /** A user never holds more than `maxRequests` timestamps. */
  lemma DecideKeepsBound(w: UserWindow, now: int, windowMs: int, maxRequests: int)
    requires maxRequests >= 1 && |w.requests| <= maxRequests
    ensures |Decide(w, now, windowMs, maxRequests).0.requests| <= maxRequests
  {
  }

  /**
   * Waiting the advertised `retryAfter` seconds is enough: by then the
   * oldest timestamp has left the window, so the next check is admitted.
   */
  lemma RetryAfterIsEnough(w: UserWindow, now: int, later: int, windowMs: int, maxRequests: int)
    requires maxRequests >= 1 && |w.requests| <= maxRequests
    requires !Decide(w, now, windowMs, maxRequests).1.allowed
    requires later >= now + 1000 * Decide(w, now, windowMs, maxRequests).1.retryAfter
    ensures Decide(Decide(w, now, windowMs, maxRequests).0, later, windowMs, maxRequests).1.allowed
  {
    var live := Live(w.requests, now, windowMs);
    var oldest := Min(live);
    var i :| 0 <= i < |live| && live[i] == oldest;
    LiveDropsStale(live, later, windowMs, i);
  }

  /** A user with no record (new, or just reset) is always admitted. */
  lemma FreshIsAdmitted(now: int, windowMs: int, maxRequests: int)
    requires maxRequests >= 1
    ensures Decide(Fresh(now), now, windowMs, maxRequests).1.allowed
    ensures Decide(Fresh(now), now, windowMs, maxRequests).0.requests == [now]
  {
  }

  /** `_cleanup` drops a user whose purged list is empty and who was created over two windows ago. */
  predicate Stale(w: UserWindow, now: int, windowMs: int) {
    |w.requests| == 0 && now - w.firstRequest > windowMs * 2
  }

  /** The users map after a sweep at `now`. */
  function Swept(users: map<string, UserWindow>, now: int, windowMs: int): (r: map<string, UserWindow>)
    ensures forall k :: k in r <==> k in users && !Stale(Purge(users[k], now, windowMs), now, windowMs)
    ensures forall k | k in r :: r[k] == Purge(users[k], now, windowMs)
  {
    map k | k in users && !Stale(Purge(users[k], now, windowMs), now, windowMs) :: Purge(users[k], now, windowMs)
  }

  /** Purging every user and then deleting the stale ones gives the sweep. */
  lemma SweptAfterPurge(users: map<string, UserWindow>, purged: map<string, UserWindow>, toDelete: set<string>, now: int, windowMs: int)
    requires purged.Keys == users.Keys
    requires forall k | k in purged :: purged[k] == Purge(users[k], now, windowMs)
    requires toDelete == set k | k in purged && Stale(purged[k], now, windowMs)
    ensures purged - toDelete == Swept(users, now, windowMs)
  {
  }

  /** Number of timestamps of user `k` still inside the window. */
  function ActiveRequests(users: map<string, UserWindow>, now: int, windowMs: int): string -> int
  {
    k => if k in users then |Live(users[k].requests, now, windowMs)| else 0
  }

  /** 1 for a user with at least one timestamp inside the window. */
  function ActiveUser(users: map<string, UserWindow>, now: int, windowMs: int): string -> int
  {
    k => if k in users && |Live(users[k].requests, now, windowMs)| > 0 then 1 else 0
  }

  /** The counts `getStats` reports. */
  datatype Stats = Stats(windowMs: int, maxRequests: int, totalUsers: int, activeUsers: int, totalActiveRequests: int)

  /** `createLimitMessage`'s minutes and seconds as written: `ceil(r / 60)` and `r % 60`. */
  function WaitPartsAsWritten(retryAfter: nat): (p: (int, int))
    ensures 60 * p.0 + p.1 == retryAfter + (if retryAfter % 60 == 0 then 0 else 60)
  {
    (CeilDiv(retryAfter, 60), retryAfter % 60)
  }

  /** Minutes and seconds that add back up to the wait: `floor(r / 60)` and `r % 60`. */
  function WaitParts(retryAfter: nat): (p: (int, int))
    ensures 60 * p.0 + p.1 == retryAfter && 0 <= p.1 < 60
  {
    (retryAfter / 60, retryAfter % 60)
  }

  /** `${m} דקות`, with ` ו-${s} שניות` when s > 0; `${s} שניות` when there are no minutes. */
  function TimeMessage(minutes: int, seconds: int): (t: string)
  {
    if minutes > 0 then
      IntToString(minutes) + " דקות" + (if seconds > 0 then " ו-" + IntToString(seconds) + " שניות" else "")
    else IntToString(seconds) + " שניות"
  }

  function LimitText(timeMessage: string, limit: int): string
  {
    "⏳ יותר מדי בקשות!\n\nאנא המתינו " + timeMessage + " לפני הבקשה הבאה.\n\n💡 מגבלה: " + IntToString(limit) + " בקשות לדקה"
  }

  /**
   * `createLimitMessage` as written, with the minutes rounded up: the text
   * states a full minute more than the wait unless the wait is whole minutes.
   */
  function CreateLimitMessageAsWritten(r: LimitResult): (msg: string)
    requires r.retryAfter >= 0
    ensures exists m: nat, s: nat | 60 * m + s == r.retryAfter + (if r.retryAfter % 60 == 0 then 0 else 60) && s < 60
      :: msg == LimitText(TimeMessage(m, s), r.limit)
  {
    var p := WaitPartsAsWritten(r.retryAfter);
    LimitText(TimeMessage(p.0, p.1), r.limit)
  }

  /** `createLimitMessage` with whole minutes, so the text states exactly `retryAfter` seconds. */
  function CreateLimitMessage(r: LimitResult): (msg: string)
    requires r.retryAfter >= 0
    ensures exists m: nat, s: nat | 60 * m + s == r.retryAfter && s < 60 :: msg == LimitText(TimeMessage(m, s), r.limit)
  {
    var p := WaitParts(r.retryAfter);
    LimitText(TimeMessage(p.0, p.1), r.limit)
  }

  /** As written, a 30-second wait is shown as one minute and 30 seconds. */
  lemma AsWrittenOverstatesThirtySeconds(limit: int)
    ensures WaitPartsAsWritten(30) == (1, 30)
    ensures CreateLimitMessageAsWritten(LimitResult(false, limit, 0, 0, 30))
         == LimitText(TimeMessage(1, 30), limit)
    ensures 60 * 1 + 30 != 30
  {
  }

  /** With whole minutes the same wait reads `30 שניות`, and 90 seconds reads one minute and 30 seconds. */
  lemma CorrectedWaits()
    ensures WaitParts(30) == (0, 30) && WaitParts(90) == (1, 30) && WaitParts(120) == (2, 0)
  {
  }

  class RateLimiter {
    const windowMs: int
    const maxRequests: int
    var users: map<string, UserWindow>
    /** Whether the `setInterval` sweep is still scheduled. */
    var sweepScheduled: bool

    ghost predicate Valid()
      reads this
    {
      && windowMs >= 1 && maxRequests >= 1
      && forall k | k in users :: |users[k].requests| <= maxRequests
    }

    /** `options.windowMs || 60000` and `options.maxRequests || 10`; 0 stands for an absent option. */
    constructor(windowOption: nat, maxOption: nat)
      ensures Valid()
      ensures windowMs == (if windowOption != 0 then windowOption else DefaultWindowMs)
      ensures maxRequests == (if maxOption != 0 then maxOption else DefaultMaxRequests)
      ensures users == map[] && sweepScheduled
    {
      windowMs := if windowOption != 0 then windowOption else DefaultWindowMs;
      maxRequests := if maxOption != 0 then maxOption else DefaultMaxRequests;
      users := map[];
      sweepScheduled := true;
    }

    /** The record `checkLimit` starts from for `key`. */
    function Current(key: string, now: int): UserWindow
      reads this
    {
      if key in users then users[key] else Fresh(now)
    }

    /** `checkLimit`: touches only the caller's key. */
    method CheckLimit(userId: string, now: int) returns (result: LimitResult)
      requires Valid()
      modifies this
      ensures Valid()
      ensures var key := UserKey(userId);
        var d := Decide(old(Current(key, now)), now, windowMs, maxRequests);
        users == old(users)[key := d.0] && result == d.1
      ensures sweepScheduled == old(sweepScheduled)
    {
      var key := UserKey(userId);
      var data: UserWindow;
      if key in users {
        data := users[key];
      } else {
        data := Fresh(now);
        users := users[key := data];
      }
      data := data.(requests := Live(data.requests, now, windowMs));
      users := users[key := data];
      if |data.requests| >= maxRequests {
        var resetTime := Min(data.requests) + windowMs;
        return LimitResult(false, maxRequests, 0, resetTime, CeilDiv(resetTime - now, 1000));
      }
      data := data.(requests := data.requests + [now]);
      users := users[key := data];
      result := LimitResult(true, maxRequests, maxRequests - |data.requests|, data.requests[0] + windowMs, 0);
    }

    /** `resetUser`: deletes that user's record only. */
    method ResetUser(userId: string)
      requires Valid()
      modifies this
      ensures Valid()
      ensures users == old(users) - {UserKey(userId)}
      ensures sweepScheduled == old(sweepScheduled)
    {
      users := users - {UserKey(userId)};
    }

    /** `getStats`, without the rounded average. */
    method GetStats(now: int) returns (stats: Stats)
      ensures stats.windowMs == windowMs && stats.maxRequests == maxRequests
      ensures stats.totalUsers == |users|
      ensures stats.activeUsers == SumOver(users.Keys, ActiveUser(users, now, windowMs))
      ensures stats.totalActiveRequests == SumOver(users.Keys, ActiveRequests(users, now, windowMs))
      ensures 0 <= stats.activeUsers <= stats.totalUsers
    {
      var active := 0;
      var total := 0;
      var pending := users.Keys;
      ghost var count := ActiveUser(users, now, windowMs);
      ghost var sum := ActiveRequests(users, now, windowMs);
      while pending != {}
        invariant pending <= users.Keys
        invariant active + SumOver(pending, count) == SumOver(users.Keys, count)
        invariant total + SumOver(pending, sum) == SumOver(users.Keys, sum)
        invariant 0 <= active <= |users.Keys| - |pending|
        decreases pending
      {
        var k :| k in pending;
        SumOverRemove(pending, count, k);
        SumOverRemove(pending, sum, k);
        var live := Live(users[k].requests, now, windowMs);
        if |live| > 0 {
          active := active + 1;
          total := total + |live|;
        }
        pending := pending - {k};
      }
      assert |users.Keys| == |users|;
      stats := Stats(windowMs, maxRequests, |users|, active, total);
    }

    /** `_cleanup`: purge every user, then delete the stale ones. */
    method Cleanup(now: int)
      requires Valid()
      modifies this
      ensures Valid()
      ensures users == Swept(old(users), now, windowMs)
      ensures sweepScheduled == old(sweepScheduled)
    {
      var pending := users.Keys;
      var toDelete: set<string> := {};
      while pending != {}
        invariant Valid() && sweepScheduled == old(sweepScheduled)
        invariant pending <= users.Keys && users.Keys == old(users).Keys
        invariant forall k | k in pending :: users[k] == old(users)[k]
        invariant forall k | k in users && k !in pending :: users[k] == Purge(old(users)[k], now, windowMs)
        invariant toDelete == set k | k in users && k !in pending && Stale(users[k], now, windowMs)
        decreases pending
      {
        var k :| k in pending;
        var data := users[k];
        data := data.(requests := Live(data.requests, now, windowMs));
        users := users[k := data];
        if Stale(data, now, windowMs) {
          toDelete := toDelete + {k};
        }
        pending := pending - {k};
      }
      SweptAfterPurge(old(users), users, toDelete, now, windowMs);
      users := users - toDelete;
    }

    /** `destroy`: stop the sweep and forget every user. */
    method Destroy()
      requires Valid()
      modifies this
      ensures Valid()
      ensures users == map[] && !sweepScheduled
    {
      sweepScheduled := false;
      users := map[];
    }
  }
}
