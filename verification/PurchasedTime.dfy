/** Purchased time is conserved: the recorded changes of an expiry against a
    closed form that does not mention the order of the maxima. */
module PurchasedTime {
  import opened Records
  import opened Lifecycle
  import opened Invariant
  import opened Preservation

  /** The time granted by the entries from position i on. */
  function Tail(grants: seq<Grant>, i: nat): nat
    requires i <= |grants|
    decreases |grants| - i
  {
    if i == |grants| then 0 else grants[i].days * DAY + Tail(grants, i + 1)
  }

  /** max(born + all grants, max over i of (time of i + grants from i on)). */
  ghost predicate IsClosedForm(v: Time, born: Time, grants: seq<Grant>) {
    && v >= born + Tail(grants, 0)
    && (forall i | 0 <= i < |grants| :: v >= grants[i].at + Tail(grants, i))
    && (v == born + Tail(grants, 0) || exists i | 0 <= i < |grants| :: v == grants[i].at + Tail(grants, i))
  }

  lemma {:induction false} TailAppends(grants: seq<Grant>, last: Grant, i: nat)
    requires i <= |grants|
    ensures Tail(grants + [last], i) == Tail(grants, i) + last.days * DAY
    decreases |grants| - i
  {
    var all := grants + [last];
    if i == |grants| {
      assert all[i] == last && Tail(all, i + 1) == 0;
    } else {
      assert all[i] == grants[i];
      TailAppends(grants, last, i + 1);
    }
  }

  /** Replaying the recorded chain gives exactly the closed form. */
  lemma {:induction false} ChainIsClosedForm(born: Time, grants: seq<Grant>)
    requires Chained(born, grants)
    ensures IsClosedForm(Current(born, grants), born, grants)
  {
    if grants != [] {
      var n := |grants| - 1;
      var before, last := grants[..n], grants[n];
      assert grants == before + [last];
      assert forall i | 0 <= i < n :: before[..i] == grants[..i];
      ChainIsClosedForm(born, before);
      forall i: nat | i <= n ensures Tail(grants, i) == Tail(before, i) + last.days * DAY {
        TailAppends(before, last, i);
      }
      var v := Current(born, before);
      assert GrantFollows(last, v);
      if v < last.at {
        assert Current(born, grants) == grants[n].at + Tail(grants, n);
      } else if v != born + Tail(before, 0) {
        var i :| 0 <= i < |before| && v == before[i].at + Tail(before, i);
        assert Current(born, grants) == grants[i].at + Tail(grants, i);
      }
    }
  }

  /** In every reachable state the committed expiry is the closed form of the
      first expiry and the recorded extensions. */
  lemma ExpiryIsClosedForm(s: VM)
    requires Reachable(s) && s.record.Some?
    ensures s.born.Some? && IsClosedForm(s.record.value.row.expiresAt, s.born.value, s.record.value.grants)
  {
    ReachableInv(s);
    ChainIsClosedForm(s.born.value, s.record.value.grants);
  }

  /** Deadlines strictly increase, by at least the days of each grant. */
  lemma {:induction false} DeadlinesIncrease(born: Time, grants: seq<Grant>, i: nat, j: nat)
    requires Chained(born, grants) && i < j < |grants|
    ensures grants[i].next + grants[j].days * DAY <= grants[j].next
    decreases j
  {
    assert GrantFollows(grants[j], Current(born, grants[..j]));
    assert Current(born, grants[..j]) == grants[j - 1].next;
    if i < j - 1 { DeadlinesIncrease(born, grants, i, j - 1); }
  }

  /** Nothing is lost: the expiry covers the first deadline plus every day ever
      granted, and each grant's own days counted from its own time. */
  lemma NoTimeIsLost(s: VM, i: nat)
    requires Reachable(s) && s.record.Some? && i < |s.record.value.grants|
    ensures s.born.Some?
    ensures s.record.value.row.expiresAt >= s.born.value + Tail(s.record.value.grants, 0)
    ensures s.record.value.row.expiresAt >= s.record.value.grants[i].at + Tail(s.record.value.grants, i)
  {
    ExpiryIsClosedForm(s);
  }
}
