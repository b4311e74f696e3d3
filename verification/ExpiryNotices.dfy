/** Owner-facing expiry notices: markers keyed on the deadline they announced. */
module ExpiryNotices {
  import opened Records
  import opened Transactions

  const HOUR: int := 3600

  datatype Marker = Warn(hours: nat) | LastCall

  datatype Notice = Notice(deadline: Time, marker: Marker)

  type Notices = map<Marker, Time>

  predicate Sent(notices: Notices, marker: Marker, expiry: Time) {
    marker in notices && notices[marker] == expiry
  }

  /** Record a notice; markers of a superseded deadline are pruned. */
  function MarkedSent(notices: Notices, marker: Marker, expiry: Time): Notices {
    (map m | m in notices && notices[m] == expiry :: notices[m])[marker := expiry]
  }

  /** The most urgent threshold that has been crossed. */
  function MostUrgent(thresholds: seq<nat>, remaining: int): Option<nat> {
    if thresholds == [] then None
    else
      var rest := MostUrgent(thresholds[1..], remaining);
      if thresholds[0] > 0 && remaining <= thresholds[0] * HOUR
         && (rest.None? || thresholds[0] < rest.value)
      then Some(thresholds[0]) else rest
  }

  /** The notice due under the row lock, if any. */
  function WarningDue(notices: Notices, expiry: Time, thresholds: seq<nat>, now: Time): Option<Marker> {
    var due := MostUrgent(thresholds, expiry - now);
    if expiry <= now || due.None? || Sent(notices, Warn(due.value), expiry) then None else Some(Warn(due.value))
  }

  function LastCallDue(notices: Notices, expiry: Time, grace: nat, hours: nat, now: Time): Option<Marker> {
    if hours == 0 || now < expiry + grace - hours * HOUR || now >= expiry + grace || Sent(notices, LastCall, expiry)
    then None else Some(LastCall)
  }

  /** The notice metadata of one row and the events emitted for it. */
  class NoticeBook {
    var expiry: Time
    var notices: Notices
    var emitted: seq<Notice>

    constructor (expiry: Time)
      ensures View() == Book(expiry, map[], [])
    {
      this.expiry := expiry;
      this.notices := map[];
      this.emitted := [];
    }

    function View(): Book
      reads this
    {
      Book(expiry, notices, emitted)
    }

    /** Commit the marker, then emit; a crash in between loses the event. */
    method Announce(marker: Marker, crash: bool)
      modifies this
      ensures View() == Announced(old(View()), Some(marker), crash)
    {
      notices := (map m | m in notices && notices[m] == expiry :: notices[m])[marker := expiry];
      if crash { return; }
      emitted := emitted + [Notice(expiry, marker)];
    }

    method WarnUpcomingExpiry(live: bool, thresholds: seq<nat>, now: Time, crash: bool)
      modifies this
      ensures View() == After(old(View()), Warning(live, thresholds, crash), now)
    {
      if !live { return; }
      var remaining := expiry - now;
      if remaining <= 0 { return; }
      var due := MostUrgent(thresholds, remaining);
      if due.None? { return; }
      var marker := Warn(due.value);
      if marker in notices && notices[marker] == expiry { return; }
      Announce(marker, crash);
    }

    method WarnPendingDeletion(suspended: bool, grace: nat, hours: nat, now: Time, crash: bool)
      modifies this
      ensures View() == After(old(View()), LastWarning(suspended, grace, hours, crash), now)
    {
      if !suspended || hours == 0 { return; }
      var graceEnd := expiry + grace;
      if now < graceEnd - hours * HOUR || now >= graceEnd { return; }
      if LastCall in notices && notices[LastCall] == expiry { return; }
      Announce(LastCall, crash);
    }

    method Renew(days: nat, now: Time)
      modifies this`expiry
      ensures View() == After(old(View()), Renewal(days), now)
    {
      if days > 0 { expiry := Max(expiry, now) + days * DAY; }
    }
  }

  datatype Book = Book(expiry: Time, notices: Notices, emitted: seq<Notice>)

  datatype Event =
    | Warning(live: bool, thresholds: seq<nat>, crash: bool)
    | LastWarning(suspended: bool, grace: nat, hours: nat, crash: bool)
    | Renewal(days: nat)

  function Announced(b: Book, due: Option<Marker>, crash: bool): Book {
    if due.None? then b
    else Book(b.expiry, MarkedSent(b.notices, due.value, b.expiry),
              if crash then b.emitted else b.emitted + [Notice(b.expiry, due.value)])
  }

  function After(b: Book, e: Event, now: Time): Book {
    match e
    case Warning(live, thresholds, crash) =>
      if live then Announced(b, WarningDue(b.notices, b.expiry, thresholds, now), crash) else b
    case LastWarning(suspended, grace, hours, crash) =>
      if suspended then Announced(b, LastCallDue(b.notices, b.expiry, grace, hours, now), crash) else b
    case Renewal(days) => if days > 0 then b.(expiry := Later(b.expiry, now, days)) else b
  }

  datatype Timed = Timed(now: Time, event: Event)

  function Replayed(b: Book, events: seq<Timed>): Book
    decreases |events|
  {
    if events == [] then b else Replayed(After(b, events[0].event, events[0].now), events[1..])
  }

  // ----- at most once -----

  predicate Distinct(log: seq<Notice>) { forall i, j | 0 <= i < j < |log| :: log[i] != log[j] }

  /** Deadlines never go back, so a pruned marker can never matter again. */
  predicate Sound(b: Book) {
    && Distinct(b.emitted)
    && (forall m | m in b.notices :: b.notices[m] <= b.expiry)
    && (forall n | n in b.emitted :: n.deadline <= b.expiry && (n.deadline == b.expiry ==> Sent(b.notices, n.marker, b.expiry)))
  }

  /** A warning is due exactly while the machine has not expired, some threshold is
      crossed, and the most urgent such one was not announced for this deadline. */
  lemma WarningIsDueIff(b: Book, thresholds: seq<nat>, now: Time)
    ensures var due := WarningDue(b.notices, b.expiry, thresholds, now);
            && (due.Some? <==>
                  && now < b.expiry
                  && exists h | h in thresholds && h > 0 && b.expiry - now <= h * 3600 ::
                       && (forall k | k in thresholds && k > 0 && b.expiry - now <= k * 3600 :: h <= k)
                       && !(Warn(h) in b.notices && b.notices[Warn(h)] == b.expiry))
  {
    MostUrgentIsLeast(thresholds, b.expiry - now);
    var least := MostUrgent(thresholds, b.expiry - now);
    if least.Some? {
      forall h | h in thresholds && h > 0 && b.expiry - now <= h * 3600
                 && (forall k | k in thresholds && k > 0 && b.expiry - now <= k * 3600 :: h <= k) ensures h == least.value {}
    }
  }

  /** The last call is due exactly in its hours before the end of the grace. */
  lemma LastCallIsDueIff(b: Book, grace: nat, hours: nat, now: Time)
    ensures LastCallDue(b.notices, b.expiry, grace, hours, now).Some? <==>
              && hours > 0 && b.expiry + grace - hours * 3600 <= now < b.expiry + grace
              && !(LastCall in b.notices && b.notices[LastCall] == b.expiry)
  {
  }

  /** What is due is announced, unless the process dies in between, and then it is
      marked and counts as sent. */
  lemma DueIsAnnounced(b: Book, due: Marker, crash: bool)
    ensures var b' := Announced(b, Some(due), crash);
            && Sent(b'.notices, due, b.expiry) && b'.expiry == b.expiry
            && b'.emitted == (if crash then b.emitted else b.emitted + [Notice(b.expiry, due)])
            && (forall m | Sent(b.notices, m, b.expiry) :: Sent(b'.notices, m, b.expiry))
  {
  }

  lemma EventKeepsSound(b: Book, e: Event, now: Time)
    requires Sound(b)
    ensures Sound(After(b, e, now)) && After(b, e, now).expiry >= b.expiry
  {
  }

  lemma {:induction false} RunKeepsSound(b: Book, events: seq<Timed>)
    requires Sound(b)
    ensures Sound(Replayed(b, events))
    decreases |events|
  {
    if events != [] {
      EventKeepsSound(b, events[0].event, events[0].now);
      RunKeepsSound(After(b, events[0].event, events[0].now), events[1..]);
    }
  }

  /** In any run of sweeps, crashes and renewals, with any configured
      thresholds and any clock, no notice is emitted twice for one deadline. */
  lemma AtMostOncePerDeadline(expiry: Time, events: seq<Timed>, i: nat, j: nat)
    requires i < j < |Replayed(Book(expiry, map[], []), events).emitted|
    ensures Replayed(Book(expiry, map[], []), events).emitted[i] != Replayed(Book(expiry, map[], []), events).emitted[j]
  {
    RunKeepsSound(Book(expiry, map[], []), events);
  }

  /** A renewal re-arms every notice. */
  lemma RenewalRearms(b: Book, days: nat, now: Time, marker: Marker)
    requires Sound(b) && days > 0
    ensures !Sent(After(b, Renewal(days), now).notices, marker, After(b, Renewal(days), now).expiry)
  {
  }

  // ----- most urgent first -----

  lemma {:induction false} MostUrgentIsLeast(thresholds: seq<nat>, remaining: int)
    ensures var due := MostUrgent(thresholds, remaining);
            && (due.Some? ==> due.value in thresholds && due.value > 0 && remaining <= due.value * HOUR)
            && (forall h | h in thresholds && h > 0 && remaining <= h * HOUR :: due.Some? && due.value <= h)
  {
    if thresholds != [] {
      MostUrgentIsLeast(thresholds[1..], remaining);
      assert forall h | h in thresholds :: h == thresholds[0] || h in thresholds[1..];
    }
  }

  predicate FixedThresholds(events: seq<Timed>, thresholds: seq<nat>) {
    forall i | 0 <= i < |events| && events[i].event.Warning? :: events[i].event.thresholds == thresholds
  }

  predicate ClockRuns(from: Time, events: seq<Timed>)
    decreases |events|
  {
    events == [] || (from <= events[0].now && ClockRuns(events[0].now, events[1..]))
  }

  /** The warnings for one deadline come in strictly falling thresholds, and
      those of the current deadline are not below what is due now. */
  predicate Falling(b: Book, thresholds: seq<nat>, now: Time) {
    && (forall i, j | 0 <= i < j < |b.emitted| ::
          b.emitted[i].marker.Warn? && b.emitted[j].marker.Warn? && b.emitted[i].deadline == b.emitted[j].deadline ==>
            b.emitted[i].marker.hours > b.emitted[j].marker.hours)
    && (forall n | n in b.emitted && n.marker.Warn? && n.deadline == b.expiry ::
          n.marker.hours in thresholds && n.marker.hours > 0 && b.expiry - now <= n.marker.hours * HOUR)
  }

  /** Emitting one more warning: it is below every earlier one for this deadline. */
  lemma AnnouncedKeepsFalling(b: Book, due: Option<Marker>, crash: bool, thresholds: seq<nat>, now: Time)
    requires Falling(b, thresholds, now)
    requires due.Some? && due.value.Warn? ==>
               && due.value.hours in thresholds && due.value.hours > 0 && b.expiry - now <= due.value.hours * HOUR
               && (forall n | n in b.emitted && n.marker.Warn? && n.deadline == b.expiry :: n.marker.hours > due.value.hours)
    ensures Falling(Announced(b, due, crash), thresholds, now)
  {
  }

  lemma EventKeepsFalling(b: Book, e: Event, thresholds: seq<nat>, before: Time, now: Time)
    requires Sound(b) && Falling(b, thresholds, before) && before <= now
    requires e.Warning? ==> e.thresholds == thresholds
    ensures Falling(After(b, e, now), thresholds, now)
  {
    match e
    case Warning(live, _, crash) =>
      var due := WarningDue(b.notices, b.expiry, thresholds, now);
      MostUrgentIsLeast(thresholds, b.expiry - now);
      if live { AnnouncedKeepsFalling(b, due, crash, thresholds, now); }
    case LastWarning(suspended, grace, hours, crash) =>
      if suspended { AnnouncedKeepsFalling(b, LastCallDue(b.notices, b.expiry, grace, hours, now), crash, thresholds, now); }
    case Renewal(_) =>
  }

  lemma {:induction false} RunKeepsFalling(b: Book, events: seq<Timed>, thresholds: seq<nat>, from: Time) returns (end: Time)
    requires Sound(b) && Falling(b, thresholds, from) && ClockRuns(from, events) && FixedThresholds(events, thresholds)
    ensures Falling(Replayed(b, events), thresholds, end)
    decreases |events|
  {
    if events == [] {
      end := from;
    } else {
      var e := events[0];
      EventKeepsSound(b, e.event, e.now);
      EventKeepsFalling(b, e.event, thresholds, from, e.now);
      assert forall i | 0 <= i < |events[1..]| :: events[1..][i] == events[i + 1];
      end := RunKeepsFalling(After(b, e.event, e.now), events[1..], thresholds, e.now);
    }
  }

  /** With fixed thresholds and a clock that does not go back, the warnings for
      one deadline are emitted from the widest threshold to the most urgent. */
  lemma WarningsGetMoreUrgent(expiry: Time, events: seq<Timed>, thresholds: seq<nat>, from: Time, i: nat, j: nat)
    requires ClockRuns(from, events) && FixedThresholds(events, thresholds)
    requires i < j < |Replayed(Book(expiry, map[], []), events).emitted|
    ensures var log := Replayed(Book(expiry, map[], []), events).emitted;
            log[i].marker.Warn? && log[j].marker.Warn? && log[i].deadline == log[j].deadline ==>
              log[i].marker.hours > log[j].marker.hours
  {
    var end := RunKeepsFalling(Book(expiry, map[], []), events, thresholds, from);
  }
}
