/** The administrator step-up limiter: a fixed window of failed password
    verifications kept on the session row. */
module StepUp {
  import opened Records

  const LIMIT: nat := 5
  const WINDOW: int := 900

  datatype Counter = Counter(attempts: nat, started: Option<Time>, elevatedAt: Option<Time>)

  datatype Outcome = Revoked | SessionExpired | TooMany | WrongPassword | Elevated

  predicate WindowOver(c: Counter, now: Time) { c.started.None? || now - c.started.value >= WINDOW }

  function Opened(c: Counter, now: Time): Counter {
    if WindowOver(c, now) then c.(attempts := 0, started := Some(now)) else c
  }

  /** One step-up request on a valid session; a refusal is rolled back. */
  function Tried(c: Counter, now: Time, correct: bool): (Counter, Outcome) {
    var open := Opened(c, now);
    if open.attempts >= LIMIT then (c, TooMany)
    else if !correct then (open.(attempts := open.attempts + 1), WrongPassword)
    else (Counter(0, None, Some(now)), Elevated)
  }

  /** A request is turned away exactly if five passwords were verified in a window
      of 900 seconds that still runs; the right password elevates and clears the
      count, a wrong one is counted in a window that it may have opened. */
  lemma TriedOutcome(c: Counter, now: Time, correct: bool)
    ensures var (c', outcome) := Tried(c, now, correct);
            var full := c.attempts >= 5 && c.started.Some? && now - c.started.value < 900;
            && (outcome == TooMany <==> full) && (outcome == Elevated <==> !full && correct)
            && (outcome == WrongPassword <==> !full && !correct)
            && (outcome == TooMany ==> c' == c)
            && (outcome == Elevated ==> c'.elevatedAt == Some(now) && c'.attempts == 0 && c'.started == None)
            && (outcome == WrongPassword ==>
                  && c'.elevatedAt == c.elevatedAt
                  && (if c.started.Some? && now - c.started.value < 900
                      then c'.attempts == c.attempts + 1 && c'.started == c.started
                      else c'.attempts == 1 && c'.started == Some(now)))
  {
  }

  class Session {
    var attempts: nat
    var windowStartedAt: Option<Time>
    var elevatedAt: Option<Time>

    constructor ()
      ensures View() == Counter(0, None, None)
    {
      attempts, windowStartedAt, elevatedAt := 0, None, None;
    }

    function View(): Counter
      reads this
    {
      Counter(attempts, windowStartedAt, elevatedAt)
    }

    /** enabledAdmin and own: the account and session rows as re-read under
        their locks; correct: the verdict of the password verification. */
    method StepUp(enabledAdmin: bool, own: bool, now: Time, correct: bool) returns (outcome: Outcome)
      modifies this
      ensures !enabledAdmin ==> outcome == Revoked && View() == old(View())
      ensures enabledAdmin && !own ==> outcome == SessionExpired && View() == old(View())
      ensures enabledAdmin && own ==> (View(), outcome) == Tried(old(View()), now, correct)
      ensures outcome == Elevated <==>
                && enabledAdmin && own && correct
                && !(old(attempts) >= 5 && old(windowStartedAt).Some? && now - old(windowStartedAt).value < 900)
      ensures outcome == Elevated ==> elevatedAt == Some(now) && attempts == 0 && windowStartedAt == None
      ensures outcome != Elevated ==> elevatedAt == old(elevatedAt)
    {
      if !enabledAdmin { return Revoked; }
      if !own { return SessionExpired; }
      if windowStartedAt.None? || now - windowStartedAt.value >= WINDOW {
        attempts := 0;
        windowStartedAt := Some(now);
      }
      if attempts >= LIMIT { return TooMany; }
      attempts := attempts + 1;
      if !correct { return WrongPassword; }
      attempts := 0;
      windowStartedAt := None;
      elevatedAt := Some(now);
      return Elevated;
    }
  }

  // ----- bounds on guessing -----

  /** Requests are listed in the order in which they get the row locks. Their
      stamps were read before, so a later one may lag earlier ones, by at most d. */
  predicate LagsAtMost(times: seq<Time>, d: nat) { forall i, j | 0 <= i < j < |times| :: times[i] - d <= times[j] }

  /** The counter after requests at the given times, all with a wrong password. */
  function AfterWrong(c: Counter, times: seq<Time>): Counter {
    if times == [] then c
    else
      var before := AfterWrong(c, times[..|times| - 1]);
      Tried(before, times[|times| - 1], false).0
  }

  /** The times at which a password was actually verified. */
  function Verified(c: Counter, times: seq<Time>): seq<Time> {
    if times == [] then []
    else
      var n := |times| - 1;
      Verified(c, times[..n]) +
      (if Tried(AfterWrong(c, times[..n]), times[n], false).1.WrongPassword? then [times[n]] else [])
  }

  const CLEAN := Counter(0, None, None)

  /** The windows of the verifications made so far: starts are the positions
      at which a window begins, and End is where it stops. */
  function End(v: seq<Time>, starts: seq<nat>, m: nat): nat
    requires m < |starts|
  {
    if m == |starts| - 1 then |v| else starts[m + 1]
  }

  predicate WindowSound(v: seq<Time>, starts: seq<nat>, m: nat)
    requires m < |starts|
  {
    && starts[m] < End(v, starts, m) <= starts[m] + LIMIT && End(v, starts, m) <= |v|
    && (forall k | starts[m] <= k < End(v, starts, m) :: v[k] - v[starts[m]] < WINDOW)
    && (m + 1 < |starts| ==> starts[m + 1] < |v| && v[starts[m + 1]] - v[starts[m]] >= WINDOW)
  }

  predicate Windows(v: seq<Time>, starts: seq<nat>) {
    && (v == [] <==> starts == []) && (starts != [] ==> starts[0] == 0)
    && (forall m | 0 <= m < |starts| :: WindowSound(v, starts, m))
  }

  predicate Tracks(c: Counter, v: seq<Time>, starts: seq<nat>) {
    && Windows(v, starts)
    && (if starts == [] then c.started.None? && c.attempts == 0
        else
          var last := starts[|starts| - 1];
          last < |v| && c.started == Some(v[last]) && c.attempts == |v| - last)
  }

  lemma WindowOpens(v: seq<Time>, starts: seq<nat>, now: Time)
    requires Windows(v, starts)
    requires starts != [] ==> starts[|starts| - 1] < |v| && now - v[starts[|starts| - 1]] >= WINDOW
    ensures Windows(v + [now], starts + [|v|])
  {
    var v', starts' := v + [now], starts + [|v|];
    forall m | 0 <= m < |starts'| ensures WindowSound(v', starts', m) {
      if m < |starts| {
        assert WindowSound(v, starts, m);
        assert End(v', starts', m) == End(v, starts, m);
      }
    }
  }

  lemma WindowGrows(v: seq<Time>, starts: seq<nat>, now: Time)
    requires Windows(v, starts) && starts != []
    requires starts[|starts| - 1] < |v| < starts[|starts| - 1] + LIMIT && now - v[starts[|starts| - 1]] < WINDOW
    ensures Windows(v + [now], starts)
  {
    var v' := v + [now];
    forall m | 0 <= m < |starts| ensures WindowSound(v', starts, m) {
      assert WindowSound(v, starts, m);
    }
  }

  lemma GuessOne(times: seq<Time>, t: Time)
    ensures var c := AfterWrong(CLEAN, times);
            && AfterWrong(CLEAN, times + [t]) == Tried(c, t, false).0
            && Verified(CLEAN, times + [t]) ==
               Verified(CLEAN, times) + (if Tried(c, t, false).1.WrongPassword? then [t] else [])
  {
  }

  lemma {:induction false} WindowsOf(times: seq<Time>) returns (starts: seq<nat>)
    ensures Tracks(AfterWrong(CLEAN, times), Verified(CLEAN, times), starts)
  {
    if times == [] {
      starts := [];
    } else {
      var n := |times| - 1;
      starts := WindowsOf(times[..n]);
      var c, v, now := AfterWrong(CLEAN, times[..n]), Verified(CLEAN, times[..n]), times[n];
      GuessOne(times[..n], now);
      assert times[..n] + [now] == times;
      if WindowOver(c, now) {
        WindowOpens(v, starts, now);
        starts := starts + [|v|];
      } else if c.attempts < LIMIT {
        WindowGrows(v, starts, now);
      } else {
        assert v + [] == v;
      }
    }
  }

  lemma {:induction false} VerifiedAmong(c: Counter, times: seq<Time>, t: Time)
    requires t in Verified(c, times)
    ensures t in times
  {
    var n := |times| - 1;
    if t in Verified(c, times[..n]) { VerifiedAmong(c, times[..n], t); }
  }

  lemma {:induction false} VerifiedLags(c: Counter, times: seq<Time>, d: nat)
    requires LagsAtMost(times, d)
    ensures LagsAtMost(Verified(c, times), d)
  {
    if times != [] {
      var n := |times| - 1;
      var before := Verified(c, times[..n]);
      VerifiedLags(c, times[..n], d);
      forall i | 0 <= i < |before| ensures before[i] - d <= times[n] {
        VerifiedAmong(c, times[..n], before[i]);
      }
    }
  }

  /** The window that holds a position, searched from the given window down. */
  lemma {:induction false} WindowAt(v: seq<Time>, starts: seq<nat>, i: nat, last: nat) returns (m: nat)
    requires Windows(v, starts) && last < |starts| && i < End(v, starts, last)
    ensures m <= last && starts[m] <= i < End(v, starts, m)
    decreases last
  {
    if i >= starts[last] {
      m := last;
    } else {
      m := WindowAt(v, starts, i, last - 1);
    }
  }

  /** k windows on: at most 5k positions later, at least k lengths later. */
  lemma {:induction false} WindowsAhead(v: seq<Time>, starts: seq<nat>, m: nat, k: nat)
    requires Windows(v, starts) && m < |starts| && starts[m] + LIMIT * k < |v|
    ensures m + k < |starts| && starts[m + k] < |v| && starts[m + k] <= starts[m] + LIMIT * k
    ensures v[starts[m + k]] - v[starts[m]] >= WINDOW * k
  {
    if k > 0 {
      WindowsAhead(v, starts, m, k - 1);
      assert WindowSound(v, starts, m + k - 1);
    } else {
      assert WindowSound(v, starts, m);
    }
  }

  /** From the start of window m, 5n - 1 positions on. */
  lemma SpacedFromStart(v: seq<Time>, starts: seq<nat>, d: nat, n: nat, m: nat, j: nat)
    requires Windows(v, starts) && LagsAtMost(v, d) && n > 0 && m < |starts| && j < |v|
    requires starts[m] + LIMIT * (n - 1) < j
    ensures v[j] - v[starts[m]] >= WINDOW * (n - 1) - d
  {
    WindowsAhead(v, starts, m, n - 1);
    assert v[starts[m + (n - 1)]] - d <= v[j];
  }

  /** From inside window m, past n full windows. */
  lemma SpacedFromInside(v: seq<Time>, starts: seq<nat>, d: nat, n: nat, m: nat, i: nat, j: nat)
    requires Windows(v, starts) && LagsAtMost(v, d) && n > 0 && m < |starts| && j < |v|
    requires starts[m] <= i < End(v, starts, m) && starts[m] + LIMIT * n <= j && i < |v|
    ensures v[j] - v[i] > WINDOW * (n - 1) - d
  {
    assert WindowSound(v, starts, m);
    WindowsAhead(v, starts, m, n);
    SpreadFrom(v, starts, m + 1, n - 1);
    assert v[i] < v[starts[m + 1]];
    assert starts[m + n] == j || v[starts[m + n]] - d <= v[j];
  }

  /** With no success in between and stamps that lag by at most d, 5n
      verifications span at least n - 1 window lengths less d, and one more
      verification spans more than that. */
  lemma GuessesAreSpaced(times: seq<Time>, d: nat, n: nat, i: nat, j: nat)
    requires LagsAtMost(times, d) && n > 0 && i <= j < |Verified(CLEAN, times)|
    ensures j - i >= LIMIT * n - 1 ==> Verified(CLEAN, times)[j] - Verified(CLEAN, times)[i] >= WINDOW * (n - 1) - d
    ensures j - i >= LIMIT * n ==> Verified(CLEAN, times)[j] - Verified(CLEAN, times)[i] > WINDOW * (n - 1) - d
  {
    var v := Verified(CLEAN, times);
    VerifiedLags(CLEAN, times, d);
    var starts := WindowsOf(times);
    if j - i >= LIMIT * n - 1 {
      var m := WindowAt(v, starts, i, |starts| - 1);
      if starts[m] + LIMIT * n <= j { SpacedFromInside(v, starts, d, n, m, i, j); }
      else { SpacedFromStart(v, starts, d, n, m, j); }
    }
  }

  lemma {:induction false} SpreadFrom(v: seq<Time>, starts: seq<nat>, m: nat, k: nat)
    requires Windows(v, starts) && m + k < |starts|
    ensures starts[m] < |v| && starts[m + k] < |v| && v[starts[m + k]] - v[starts[m]] >= WINDOW * k
  {
    assert WindowSound(v, starts, m);
    if k > 0 {
      SpreadFrom(v, starts, m, k - 1);
      assert WindowSound(v, starts, m + k - 1);
    }
  }

  /** At most 5n verifications from the first to the last one in an interval of
      n - 1 window lengths less d, and at most 5n - 1 if it is any shorter. For
      stamps in order (d = 0) and one window length that is 10, and 9 if the
      interval is half open. */
  lemma GuessesAreBounded(times: seq<Time>, d: nat, n: nat, from: Time, length: nat, i: nat, j: nat)
    requires LagsAtMost(times, d) && n > 0 && i <= j < |Verified(CLEAN, times)|
    requires from <= Verified(CLEAN, times)[i] && Verified(CLEAN, times)[j] <= from + length
    ensures length <= WINDOW * (n - 1) - d ==> j - i + 1 <= LIMIT * n
    ensures length < WINDOW * (n - 1) - d ==> j - i + 1 <= LIMIT * n - 1
  {
    GuessesAreSpaced(times, d, n, i, j);
  }

  /** n guesses at one instant. */
  function Burst(n: nat, t: Time): seq<Time> { seq(n, _ => t) }

  lemma {:induction false} BurstVerified(times: seq<Time>, t: Time, n: nat)
    requires 1 <= n <= LIMIT && WindowOver(AfterWrong(CLEAN, times), t)
    ensures Verified(CLEAN, times + Burst(n, t)) == Verified(CLEAN, times) + Burst(n, t)
    ensures AfterWrong(CLEAN, times + Burst(n, t)).attempts == n
    ensures AfterWrong(CLEAN, times + Burst(n, t)).started == Some(t)
  {
    var earlier, all := Burst(n - 1, t), Burst(n, t);
    assert all == earlier + [t];
    assert times + all == (times + earlier) + [t];
    GuessOne(times + earlier, t);
    if n == 1 {
      assert times + earlier == times;
    } else {
      BurstVerified(times, t, n - 1);
      assert Verified(CLEAN, times + earlier) + [t] == Verified(CLEAN, times) + all;
    }
  }

  /** The bound of 10 is reached: five guesses, and five more one window later. */
  lemma TenIsReached()
    ensures var times := Burst(LIMIT, 0) + Burst(LIMIT, WINDOW);
            LagsAtMost(times, 0) && Verified(CLEAN, times) == times
  {
    BurstVerified([], 0, LIMIT);
    assert [] + Burst(LIMIT, 0) == Burst(LIMIT, 0);
    BurstVerified(Burst(LIMIT, 0), WINDOW, LIMIT);
  }

  // ----- stamps out of order -----

  /** One guess opens a window, four more follow at another instant. */
  const LATE_STAMPS: seq<Time> := [0, 899, 899, 899, 899, 900, 900, 900, 900, 900, 1800, 1799, 1799, 1799, 1799]

  predicate InWindow(c: Counter, t: Time, n: nat) {
    c.started.Some? && t - c.started.value < WINDOW && c.attempts + n <= LIMIT
  }

  lemma OneInWindow(times: seq<Time>, t: Time)
    requires InWindow(AfterWrong(CLEAN, times), t, 1)
    ensures Verified(CLEAN, times + [t]) == Verified(CLEAN, times) + [t]
    ensures var c, c' := AfterWrong(CLEAN, times), AfterWrong(CLEAN, times + [t]);
            c'.attempts == c.attempts + 1 && c'.started == c.started
  {
    GuessOne(times, t);
  }

  lemma BurstGrows(n: nat, t: Time, times: seq<Time>)
    ensures times + Burst(n + 1, t) == (times + Burst(n, t)) + [t]
  {
    assert Burst(n + 1, t) == Burst(n, t) + [t];
  }

  /** Guesses that are not the first of a window are verified whatever their
      stamp, as long as it is before the end of the window. */
  lemma {:induction false} InWindowVerified(times: seq<Time>, t: Time, n: nat)
    requires InWindow(AfterWrong(CLEAN, times), t, n)
    ensures Verified(CLEAN, times + Burst(n, t)) == Verified(CLEAN, times) + Burst(n, t)
    ensures var c, c' := AfterWrong(CLEAN, times), AfterWrong(CLEAN, times + Burst(n, t));
            c'.attempts == c.attempts + n && c'.started == c.started
  {
    if n == 0 {
      assert times + Burst(0, t) == times;
    } else {
      InWindowVerified(times, t, n - 1);
      OneInWindow(times + Burst(n - 1, t), t);
      BurstGrows(n - 1, t, times);
      BurstGrows(n - 1, t, Verified(CLEAN, times));
    }
  }

  lemma OpenThenFour(times: seq<Time>, t: Time, u: Time)
    requires WindowOver(AfterWrong(CLEAN, times), t) && u - t < WINDOW && Verified(CLEAN, times) == times
    ensures var all := times + ([t] + Burst(4, u)); Verified(CLEAN, all) == all && AfterWrong(CLEAN, all).started == Some(t)
  {
    GuessOne(times, t);
    InWindowVerified(times + [t], u, 4);
    assert times + ([t] + Burst(4, u)) == (times + [t]) + Burst(4, u);
  }

  const FIRST: seq<Time> := [0, 899, 899, 899, 899]
  const SECOND: seq<Time> := [900, 900, 900, 900, 900]
  const THIRD: seq<Time> := [1800, 1799, 1799, 1799, 1799]

  lemma FirstVerified()
    ensures Verified(CLEAN, FIRST) == FIRST && AfterWrong(CLEAN, FIRST).started == Some(0)
  {
    OpenThenFour([], 0, 899);
    assert [] + ([0] + Burst(4, 899)) == FIRST;
  }

  lemma SecondVerified()
    ensures Verified(CLEAN, FIRST + SECOND) == FIRST + SECOND && AfterWrong(CLEAN, FIRST + SECOND).started == Some(900)
  {
    FirstVerified();
    OpenThenFour(FIRST, 900, 900);
    assert [900] + Burst(4, 900) == SECOND;
  }

  lemma ThirdVerified()
    ensures Verified(CLEAN, FIRST + SECOND + THIRD) == FIRST + SECOND + THIRD
  {
    SecondVerified();
    OpenThenFour(FIRST + SECOND, 1800, 1799);
    assert [1800] + Burst(4, 1799) == THIRD;
  }

  /** The stamp is read before the locks are waited for, so a stamp can lag: with
      a lag of one second, 13 verifications fall into one window length. */
  lemma LaggingStampsSlip()
    ensures LagsAtMost(LATE_STAMPS, 1) && Verified(CLEAN, LATE_STAMPS) == LATE_STAMPS
    ensures forall k | 0 <= k < 15 :: 899 <= LATE_STAMPS[k] <= 899 + WINDOW <==> k != 0 && k != 10
  {
    ThirdVerified();
    assert LATE_STAMPS == FIRST + SECOND + THIRD;
  }
}
