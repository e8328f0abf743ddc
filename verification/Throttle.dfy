/** The login throttle: failures are counted in windows, and a lockout follows once there are too many. */
module Throttles {
  import opened Common

  type Time = int

  datatype Settings = Settings(maxAttempts: int, window: int, lockout: int) {
    predicate Valid() { maxAttempts >= 1 && window > 0 && lockout > 0 }
  }

  datatype Throttle = Throttle(failures: int, windowStartedAt: Time, blockedUntil: Option<Time>)

  predicate Blocked(throttle: Option<Throttle>, now: Time) {
    throttle.Some? && throttle.value.blockedUntil.Some? && throttle.value.blockedUntil.value > now
  }

  function Counted(throttle: Option<Throttle>, now: Time, s: Settings): Throttle {
    match throttle
    case None => Throttle(1, now, None)
    case Some(t) =>
      if now - t.windowStartedAt >= s.window then Throttle(1, now, None) else t.(failures := t.failures + 1)
  }

  /** The throttle row after a failed login that was not turned away. */
  function RecordFailure(throttle: Option<Throttle>, now: Time, s: Settings): Throttle {
    var t := Counted(throttle, now, s);
    if t.failures >= s.maxAttempts then t.(blockedUntil := Some(now + s.lockout)) else t
  }

  class ThrottleTable {
    var row: Option<Throttle>

    constructor ()
      ensures row == None
    {
      row := None;
    }

    /** One attempt with a wrong password: turned away while blocked, recorded otherwise. */
    method FailedLogin(now: Time, s: Settings) returns (error: Error)
      modifies this
      ensures error == if Blocked(old(row), now) then AuthRateLimited else InvalidCredentials
      ensures row == if Blocked(old(row), now) then old(row) else Some(RecordFailure(old(row), now, s))
    {
      if Blocked(row, now) {
        return AuthRateLimited;
      }
      var throttle: Throttle;
      if row.None? {
        throttle := Throttle(1, now, None);
      } else if now - row.value.windowStartedAt >= s.window {
        throttle := row.value.(failures := 1);
        throttle := throttle.(windowStartedAt := now);
        throttle := throttle.(blockedUntil := None);
      } else {
        throttle := row.value.(failures := row.value.failures + 1);
      }
      if throttle.failures >= s.maxAttempts {
        throttle := throttle.(blockedUntil := Some(now + s.lockout));
      }
      row := Some(throttle);
      error := InvalidCredentials;
    }

    /** One attempt with the right password: turned away while blocked like any other, and otherwise it clears
        the row. */
    method RightPassword(now: Time) returns (r: Result<Unit>)
      modifies this
      ensures r == if Blocked(old(row), now) then Err(AuthRateLimited) else Ok(Unit)
      ensures row == if Blocked(old(row), now) then old(row) else None
    {
      if Blocked(row, now) {
        return Err(AuthRateLimited);
      }
      row := None;
      r := Ok(Unit);
    }
  }

  /** While the row is blocked no attempt is looked at, whatever its password, and the block ends a lockout after the
      failure that caused it, unless the row is cleared. */
  lemma BlockedForALockout(throttle: Option<Throttle>, now: Time, later: Time, s: Settings)
    requires s.Valid() && !Blocked(throttle, now)
    requires throttle.Some? && throttle.value.blockedUntil.Some? ==> throttle.value.failures >= s.maxAttempts
    requires throttle.Some? ==> throttle.value.failures >= 1
    ensures var t := RecordFailure(throttle, now, s);
      && t.failures >= 1
      && (t.failures >= s.maxAttempts ==> (Blocked(Some(t), later) <==> later < now + s.lockout))
      && (t.failures < s.maxAttempts ==> !Blocked(Some(t), later))
      && (throttle.None? || now - throttle.value.windowStartedAt >= s.window ==>
           t.failures == 1 && t.windowStartedAt == now)
      && (throttle.Some? && now - throttle.value.windowStartedAt < s.window ==>
           t.failures == throttle.value.failures + 1 && t.windowStartedAt == throttle.value.windowStartedAt)
  {
  }

  // ---- Any sequence of failed attempts ----

  /** The row and, for every failure that was recorded, the start of the window that it was recorded in. */
  datatype History = History(row: Option<Throttle>, windows: seq<Time>)

  function Attempt(h: History, now: Time, s: Settings): History {
    if Blocked(h.row, now) then h else
    var t := RecordFailure(h.row, now, s);
    History(Some(t), h.windows + [t.windowStartedAt])
  }

  function Attempts(times: seq<Time>, s: Settings): History {
    if |times| == 0 then History(None, []) else Attempt(Attempts(times[..|times| - 1], s), times[|times| - 1], s)
  }

  predicate Ordered(times: seq<Time>) { forall i, j :: 0 <= i <= j < |times| ==> times[i] <= times[j] }

  function FailuresIn(windows: seq<Time>, start: Time): nat {
    if |windows| == 0 then 0
    else FailuresIn(windows[..|windows| - 1], start) + if windows[|windows| - 1] == start then 1 else 0
  }

  /** The smallest whole number that is not below the quotient. */
  function Ceiling(n: int, d: int): (c: int)
    requires n > 0 && d > 0
    ensures c >= 1
  {
    (n + d - 1) / d
  }

  function Bound(s: Settings): int
    requires s.Valid()
  {
    s.maxAttempts + Ceiling(s.window, s.lockout) - 1
  }

  /** Once the limit is reached every further failure comes a lockout later, and the last one was still inside the
      window. */
  ghost predicate Spread(t: Throttle, s: Settings) {
    && t.failures >= 1
    && (t.failures >= s.maxAttempts ==>
         && t.blockedUntil.Some?
         && (t.failures - s.maxAttempts) * s.lockout <= t.blockedUntil.value - s.lockout - t.windowStartedAt < s.window)
    && (t.failures < s.maxAttempts ==> t.blockedUntil.None?)
  }

  lemma FailureSpreads(row: Option<Throttle>, now: Time, s: Settings)
    requires s.Valid() && !Blocked(row, now)
    requires row.Some? ==> Spread(row.value, s) && row.value.windowStartedAt <= now
    ensures Spread(RecordFailure(row, now, s), s)
  {
  }

  /** Multiples of the lockout that fit strictly inside the window are fewer than the ceiling of the quotient. */
  lemma FewerThanCeiling(k: int, window: int, lockout: int)
    requires window > 0 && lockout > 0 && k * lockout < window
    ensures k <= Ceiling(window, lockout) - 1
  {
  }

  lemma SpreadIsBounded(t: Throttle, s: Settings)
    requires s.Valid() && Spread(t, s)
    ensures t.failures <= Bound(s)
  {
    if t.failures >= s.maxAttempts {
      FewerThanCeiling(t.failures - s.maxAttempts, s.window, s.lockout);
    }
  }

  ghost predicate Accounted(h: History, s: Settings) {
    && (h.row.None? ==> h.windows == [])
    && (h.row.Some? ==>
         && Spread(h.row.value, s)
         && FailuresIn(h.windows, h.row.value.windowStartedAt) == h.row.value.failures
         && forall i :: 0 <= i < |h.windows| ==> h.windows[i] <= h.row.value.windowStartedAt)
  }

  lemma {:induction false} NoneAfter(windows: seq<Time>, start: Time)
    requires forall i :: 0 <= i < |windows| ==> windows[i] < start
    ensures FailuresIn(windows, start) == 0
  {
    if |windows| > 0 {
      NoneAfter(windows[..|windows| - 1], start);
    }
  }

  /** One recorded failure keeps the account: it opens a new window or is the next of the current one. */
  lemma FailureIsAccounted(h: History, now: Time, s: Settings)
    requires s.Valid() && Accounted(h, s) && !Blocked(h.row, now)
    requires h.row.Some? ==> h.row.value.windowStartedAt <= now
    ensures Accounted(Attempt(h, now, s), s) && Attempt(h, now, s).row.value.windowStartedAt <= now
  {
    var h' := Attempt(h, now, s);
    var start := h'.row.value.windowStartedAt;
    FailureSpreads(h.row, now, s);
    assert h'.windows[..|h'.windows| - 1] == h.windows;
    if h.row.None? || start != h.row.value.windowStartedAt {
      NoneAfter(h.windows, start);
    }
  }

  lemma {:induction false} AttemptsAreAccounted(times: seq<Time>, s: Settings)
    requires s.Valid() && Ordered(times)
    ensures Accounted(Attempts(times, s), s)
    ensures Attempts(times, s).row.Some? ==>
      |times| > 0 && Attempts(times, s).row.value.windowStartedAt <= times[|times| - 1]
  {
    if |times| > 0 {
      var front, now := times[..|times| - 1], times[|times| - 1];
      AttemptsAreAccounted(front, s);
      if !Blocked(Attempts(front, s).row, now) {
        FailureIsAccounted(Attempts(front, s), now, s);
      }
    }
  }

  /** Whenever the attempts come, no window ever records more than the bound. */
  lemma {:induction false} WindowsAreBounded(times: seq<Time>, s: Settings, start: Time)
    requires s.Valid() && Ordered(times)
    ensures FailuresIn(Attempts(times, s).windows, start) <= Bound(s)
  {
    if |times| > 0 {
      var front, now := times[..|times| - 1], times[|times| - 1];
      WindowsAreBounded(front, s, start);
      AttemptsAreAccounted(times, s);
      var h, h' := Attempts(front, s), Attempts(times, s);
      if !Blocked(h.row, now) {
        assert h'.windows[..|h'.windows| - 1] == h.windows;
        if h'.row.value.windowStartedAt == start {
          SpreadIsBounded(h'.row.value, s);
        }
      }
    }
  }

  // ---- The bound is reached ----

  /** As many attempts at once as are allowed, then one after each lockout. */
  function Persistent(start: Time, s: Settings, extra: nat): seq<Time>
    requires s.Valid()
  {
    seq(s.maxAttempts + extra, i requires 0 <= i < s.maxAttempts + extra =>
      if i < s.maxAttempts then start else start + (i - s.maxAttempts + 1) * s.lockout)
  }

  lemma {:induction false} FirstAttempts(start: Time, s: Settings, n: nat)
    requires s.Valid() && 1 <= n <= s.maxAttempts
    ensures Attempts(Persistent(start, s, 0)[..n], s).row
         == Some(Throttle(n, start, if n == s.maxAttempts then Some(start + s.lockout) else None))
  {
    var times := Persistent(start, s, 0)[..n];
    assert times[..n - 1] == Persistent(start, s, 0)[..n - 1];
    if n > 1 {
      FirstAttempts(start, s, n - 1);
    }
  }

  lemma {:induction false} PersistentAttempts(start: Time, s: Settings, extra: nat)
    requires s.Valid() && extra * s.lockout < s.window
    ensures Attempts(Persistent(start, s, extra), s).row
         == Some(Throttle(s.maxAttempts + extra, start, Some(start + (extra + 1) * s.lockout)))
  {
    var times := Persistent(start, s, extra);
    if extra == 0 {
      FirstAttempts(start, s, s.maxAttempts);
      assert times[..s.maxAttempts] == times;
    } else {
      assert (extra - 1) * s.lockout == extra * s.lockout - s.lockout;
      PersistentAttempts(start, s, extra - 1);
      assert times[..|times| - 1] == Persistent(start, s, extra - 1);
      assert times[|times| - 1] == start + extra * s.lockout;
      assert (extra + 1) * s.lockout == extra * s.lockout + s.lockout;
    }
  }

  /** The bound is exact: an attacker who waits out every lockout gets that many failures into one window. */
  lemma BoundIsReached(start: Time, s: Settings)
    requires s.Valid()
    ensures exists times :: Ordered(times) && FailuresIn(Attempts(times, s).windows, start) == Bound(s)
  {
    var extra := Ceiling(s.window, s.lockout) - 1;
    assert extra * s.lockout < s.window by {
      var n := s.window + s.lockout - 1;
      assert n == (n / s.lockout) * s.lockout + n % s.lockout;
      assert extra * s.lockout == (n / s.lockout) * s.lockout - s.lockout;
    }
    var times := Persistent(start, s, extra);
    PersistentIsOrdered(start, s, extra);
    PersistentAttempts(start, s, extra);
    AttemptsAreAccounted(times, s);
    assert FailuresIn(Attempts(times, s).windows, start) == Bound(s);
  }

  lemma PersistentIsOrdered(start: Time, s: Settings, extra: nat)
    requires s.Valid()
    ensures Ordered(Persistent(start, s, extra))
  {
    var times := Persistent(start, s, extra);
    forall i, j | 0 <= i <= j < |times| ensures times[i] <= times[j] {
      if i >= s.maxAttempts {
        LockoutsGrow(i - s.maxAttempts + 1, j - s.maxAttempts + 1, s.lockout);
      } else if j >= s.maxAttempts {
        LockoutsGrow(0, j - s.maxAttempts + 1, s.lockout);
      }
    }
  }

  lemma LockoutsGrow(m: nat, n: nat, lockout: int)
    requires m <= n && lockout >= 0
    ensures m * lockout <= n * lockout
  {
  }
}
