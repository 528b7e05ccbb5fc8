/** The per-user sliding-window rate limiter. Time is an explicit integer clock in
    seconds, and the administrator ids are passed to each call. */
module RateLimiting {

  /** The reply `get_remaining` gives an administrator. */
  const AdminRemaining := 999

  /** The timestamps of `window` that are less than `period` seconds older than `now`,
      in their original order. */
  function Prune(window: seq<int>, now: int, period: int): (kept: seq<int>)
    ensures |kept| <= |window|
    ensures forall t :: t in kept <==> t in window && now - t < period
  {
    if window == [] then []
    else (if now - window[0] < period then [window[0]] else []) + Prune(window[1..], now, period)
  }

  /** Pruning works piece by piece, so it keeps the order of what it keeps. */
  lemma {:induction false} PruneAppend(a: seq<int>, b: seq<int>, now: int, period: int)
    ensures Prune(a + b, now, period) == Prune(a, now, period) + Prune(b, now, period)
    decreases |a|
  {
    if a != [] {
      var head := if now - a[0] < period then [a[0]] else [];
      assert (a + b)[0] == a[0] && (a + b)[1..] == a[1..] + b;
      calc {
        Prune(a + b, now, period);
        head + Prune(a[1..] + b, now, period);
        { PruneAppend(a[1..], b, now, period); }
        head + (Prune(a[1..], now, period) + Prune(b, now, period));
        (head + Prune(a[1..], now, period)) + Prune(b, now, period);
      }
    } else {
      assert a + b == b;
    }
  }

  /** Pruning twice at the same moment removes nothing more. */
  lemma {:induction false} PruneIdempotent(window: seq<int>, now: int, period: int)
    ensures Prune(Prune(window, now, period), now, period) == Prune(window, now, period)
    decreases |window|
  {
    if window != [] {
      var head := if now - window[0] < period then [window[0]] else [];
      PruneIdempotent(window[1..], now, period);
      PruneAppend(head, Prune(window[1..], now, period), now, period);
      assert Prune(head, now, period) == head;
    }
  }

  /** A window already inside the period loses nothing to pruning. */
  lemma {:induction false} PruneKeepsRecent(window: seq<int>, now: int, period: int)
    requires forall t :: t in window ==> now - t < period
    ensures Prune(window, now, period) == window
    decreases |window|
  {
    if window != [] {
      forall t | t in window[1..] ensures now - t < period {
        assert t in window;
      }
      PruneKeepsRecent(window[1..], now, period);
      assert window[0] in window;
      assert window == [window[0]] + window[1..];
    }
  }

  /** The earliest timestamp of a non-empty window. */
  function Min(window: seq<int>): (m: int)
    requires window != []
    ensures m in window
    ensures forall t :: t in window ==> m <= t
  {
    if |window| == 1 then window[0]
    else
      var rest := Min(window[1..]);
      assert window == [window[0]] + window[1..];
      if window[0] <= rest then window[0] else rest
  }

  /** What a non-administrator's request gets: whether it is let through, how many seconds
      to wait otherwise, and the user's window afterwards. */
  datatype Admission = Admission(allowed: bool, wait: int, window: seq<int>)

  /** The decision `is_allowed` makes for a non-administrator: prune the window; a full
      window refuses and names the wait until its oldest entry leaves the period; any
      other window records `now` and lets the request through. */
  function Admit(window: seq<int>, now: int, maxRequests: int, period: int): (a: Admission)
    requires maxRequests >= 1
    ensures |a.window| <= |window| + 1
  {
    var kept := Prune(window, now, period);
    if |kept| >= maxRequests then Admission(false, period - (now - Min(kept)), kept)
    else Admission(true, 0, kept + [now])
  }

  /** What `get_remaining` reports for a non-administrator. */
  function Remaining(window: seq<int>, now: int, maxRequests: int, period: int): (n: int)
    ensures n >= 0
    ensures n <= maxRequests || maxRequests < 0
  {
    var kept := Prune(window, now, period);
    if maxRequests - |kept| > 0 then maxRequests - |kept| else 0
  }

  /** A request is let through exactly when the window has room: the window then grows by
      one entry, `now`, after the pruned ones; otherwise it is only pruned, and the wait is
      at least one second. */
  lemma AdmitOutcome(window: seq<int>, now: int, maxRequests: int, period: int)
    requires maxRequests >= 1
    ensures var a := Admit(window, now, maxRequests, period);
      && (a.allowed <==> |Prune(window, now, period)| < maxRequests)
      && (a.allowed ==> a.wait == 0 && a.window == Prune(window, now, period) + [now])
      && (!a.allowed ==> a.wait >= 1 && a.window == Prune(window, now, period))
  {
    var kept := Prune(window, now, period);
    if |kept| >= maxRequests {
      assert Min(kept) in kept;
    }
  }

  /** With a clock that never runs backwards, a refusal's wait is at most one period. */
  lemma WaitWithinPeriod(window: seq<int>, now: int, maxRequests: int, period: int)
    requires maxRequests >= 1
    requires forall t :: t in window ==> t <= now
    ensures var a := Admit(window, now, maxRequests, period);
      !a.allowed ==> 1 <= a.wait <= period
  {
    var kept := Prune(window, now, period);
    if |kept| >= maxRequests {
      assert Min(kept) in kept;
    }
  }

  /** A window within the limit stays within it. */
  lemma AdmitKeepsBound(window: seq<int>, now: int, maxRequests: int, period: int)
    requires maxRequests >= 1 && |window| <= maxRequests
    ensures |Admit(window, now, maxRequests, period).window| <= maxRequests
  {
  }

  /** `get_remaining` is positive exactly when `is_allowed` at the same moment would let
      the request through. */
  lemma RemainingAgreesWithAdmit(window: seq<int>, now: int, maxRequests: int, period: int)
    requires maxRequests >= 1
    ensures Remaining(window, now, maxRequests, period) > 0
        <==> Admit(window, now, maxRequests, period).allowed
  {
  }

  /** After `reset` the user starts from an empty window, whose first request passes. */
  lemma FreshWindowAdmits(now: int, maxRequests: int, period: int)
    requires maxRequests >= 1
    ensures Admit([], now, maxRequests, period) == Admission(true, 0, [now])
  {
  }

  /** A user's list of timestamps; a user never seen has the empty list. */
  function Window(requests: map<int, seq<int>>, userId: int): seq<int> {
    if userId in requests then requests[userId] else []
  }

  /** `RateLimiter`: the request timestamps of each user, and the limit of `maxRequests`
      requests per `period` seconds. */
  class RateLimiter {
    var requests: map<int, seq<int>>
    const maxRequests: int
    const period: int

    /** No user's window holds more than `maxRequests` timestamps. */
    ghost predicate Valid()
      reads this
    {
      && maxRequests >= 1
      && forall u | u in requests :: |requests[u]| <= maxRequests
    }

    constructor (maxRequests: int, period: int)
      requires maxRequests >= 1
      ensures Valid()
      ensures requests == map[]
      ensures this.maxRequests == maxRequests && this.period == period
    {
      this.maxRequests := maxRequests;
      this.period := period;
      requests := map[];
    }

    /** `is_allowed`: administrators pass and nothing changes; any other user's window is
        pruned and, when it has room, gains `now`. No other user's window changes. */
    method IsAllowed(userId: int, admins: set<int>, now: int) returns (allowed: bool, wait: int)
      requires Valid()
      modifies this
      ensures Valid()
      ensures userId in admins ==> allowed && wait == 0 && requests == old(requests)
      ensures userId !in admins ==>
        var a := Admit(Window(old(requests), userId), now, maxRequests, period);
        && allowed == a.allowed && wait == a.wait
        && requests == old(requests)[userId := a.window]
    {
      if userId in admins {
        return true, 0;
      }
      var userRequests := Window(requests, userId);
      userRequests := Prune(userRequests, now, period);
      requests := requests[userId := userRequests];
      if |userRequests| >= maxRequests {
        var oldest := Min(userRequests);
        return false, period - (now - oldest);
      }
      userRequests := userRequests + [now];
      requests := requests[userId := userRequests];
      return true, 0;
    }

    /** `reset`: forgets the user's window and nothing else. */
    method Reset(userId: int)
      requires Valid()
      modifies this
      ensures Valid()
      ensures requests == old(requests) - {userId}
    {
      if userId in requests {
        requests := requests - {userId};
      }
    }

    /** `get_remaining`: administrators get 999; any other user's window is pruned, never
        extended, and the room left in it is returned. */
    method GetRemaining(userId: int, admins: set<int>, now: int) returns (remaining: int)
      requires Valid()
      modifies this
      ensures Valid()
      ensures userId in admins ==> remaining == AdminRemaining && requests == old(requests)
      ensures userId !in admins ==>
        && remaining == Remaining(Window(old(requests), userId), now, maxRequests, period)
        && requests == old(requests)[userId := Prune(Window(old(requests), userId), now, period)]
    {
      if userId in admins {
        return AdminRemaining;
      }
      var userRequests := Prune(Window(requests, userId), now, period);
      requests := requests[userId := userRequests];
      remaining := if maxRequests - |userRequests| > 0 then maxRequests - |userRequests| else 0;
    }
  }
}
