/** The administrator's job list: the newest rows of three tables, merged,
    sorted and cut, against the newest rows of their union. */
module JobListing {
  import opened Records

  datatype Source = DomainJob | DiagnosticJob | BgpJob

  datatype Job = Job(id: nat, source: Source, created: Time)

  predicate NewestOrder(jobs: seq<Job>) { forall i, j | 0 <= i < j < |jobs| :: jobs[i].created >= jobs[j].created }

  function Placed(job: Job, sorted: seq<Job>): seq<Job> {
    if sorted == [] || sorted[0].created <= job.created then [job] + sorted
    else [sorted[0]] + Placed(job, sorted[1..])
  }

  /** The stable sort by descending creation time. */
  function NewestFirst(jobs: seq<Job>): seq<Job> {
    if jobs == [] then [] else Placed(jobs[0], NewestFirst(jobs[1..]))
  }

  function Cut(jobs: seq<Job>, limit: nat): seq<Job> { if |jobs| <= limit then jobs else jobs[..limit] }

  /** Merge the answers of the three queries. */
  method ListJobs(domainRows: seq<Job>, diagnosticRows: seq<Job>, bgpRows: seq<Job>, limit: nat)
    returns (items: seq<Job>)
    ensures items == Cut(NewestFirst(domainRows + diagnosticRows + bgpRows), limit)
    ensures NewestOrder(items) && |items| == Least(limit, |domainRows| + |diagnosticRows| + |bgpRows|)
  {
    items := domainRows + diagnosticRows + bgpRows;
    SortSound(items);
    items := NewestFirst(items);
    if |items| > limit { items := items[..limit]; }
  }

  function Least(a: nat, b: nat): nat { if a < b then a else b }

  /** How many jobs are at least as new as t. */
  function AtLeast(jobs: seq<Job>, t: Time): nat {
    if jobs == [] then 0 else (if jobs[0].created >= t then 1 else 0) + AtLeast(jobs[1..], t)
  }

  lemma {:induction false} PlacedSound(job: Job, sorted: seq<Job>)
    requires NewestOrder(sorted)
    ensures NewestOrder(Placed(job, sorted)) && multiset(Placed(job, sorted)) == multiset(sorted) + multiset{job}
  {
    if sorted != [] && sorted[0].created > job.created {
      PlacedSound(job, sorted[1..]);
      var rest := Placed(job, sorted[1..]);
      assert sorted == [sorted[0]] + sorted[1..];
      forall i | 0 <= i < |rest| ensures rest[i].created <= sorted[0].created {
        assert rest[i] in multiset(rest);
        if rest[i] != job { assert rest[i] in sorted[1..]; }
      }
    }
  }

  lemma {:induction false} SortSound(jobs: seq<Job>)
    ensures NewestOrder(NewestFirst(jobs)) && multiset(NewestFirst(jobs)) == multiset(jobs)
    ensures |NewestFirst(jobs)| == |jobs|
  {
    if jobs != [] {
      SortSound(jobs[1..]);
      PlacedSound(jobs[0], NewestFirst(jobs[1..]));
      assert jobs == [jobs[0]] + jobs[1..];
    }
    assert |multiset(NewestFirst(jobs))| == |multiset(jobs)|;
  }

  // ----- counting -----

  lemma {:induction false} AtLeastConcat(a: seq<Job>, b: seq<Job>, t: Time)
    ensures AtLeast(a + b, t) == AtLeast(a, t) + AtLeast(b, t)
  {
    if a == [] {
      assert a + b == b;
    } else {
      assert (a + b)[1..] == a[1..] + b;
      AtLeastConcat(a[1..], b, t);
    }
  }

  function Without(jobs: seq<Job>, k: nat): seq<Job>
    requires k < |jobs|
  {
    jobs[..k] + jobs[k + 1..]
  }

  lemma TakenOut(jobs: seq<Job>, k: nat, t: Time)
    requires k < |jobs|
    ensures multiset(Without(jobs, k)) == multiset(jobs) - multiset{jobs[k]}
    ensures AtLeast(jobs, t) == AtLeast(Without(jobs, k), t) + if jobs[k].created >= t then 1 else 0
  {
    var low, high := jobs[..k], jobs[k + 1..];
    assert jobs == low + ([jobs[k]] + high);
    assert multiset(jobs) == multiset(Without(jobs, k)) + multiset{jobs[k]};
    AtLeastConcat(low, [jobs[k]] + high, t);
    AtLeastConcat([jobs[k]], high, t);
    AtLeastConcat(low, high, t);
  }

  /** The count depends on the jobs, not on their order. */
  lemma {:induction false} AtLeastPermuted(a: seq<Job>, b: seq<Job>, t: Time)
    requires multiset(a) == multiset(b)
    ensures AtLeast(a, t) == AtLeast(b, t)
  {
    if a == [] {
      assert |multiset(b)| == 0;
    } else {
      assert a[0] in multiset(b);
      var k :| 0 <= k < |b| && b[k] == a[0];
      TakenOut(a, 0, t);
      TakenOut(b, k, t);
      AtLeastPermuted(Without(a, 0), Without(b, k), t);
    }
  }

  lemma {:induction false} AtLeastBound(jobs: seq<Job>, t: Time)
    ensures AtLeast(jobs, t) <= |jobs|
    ensures (forall i | 0 <= i < |jobs| :: jobs[i].created < t) ==> AtLeast(jobs, t) == 0
  {
    if jobs != [] {
      assert forall i | 0 <= i < |jobs[1..]| :: jobs[1..][i] == jobs[i + 1];
      AtLeastBound(jobs[1..], t);
    }
  }

  /** In a sorted list the count says which positions are at least as new. */
  lemma {:induction false} SortedCount(jobs: seq<Job>, t: Time, i: nat)
    requires NewestOrder(jobs) && i < |jobs|
    ensures AtLeast(jobs, t) > i <==> jobs[i].created >= t
  {
    AtLeastBound(jobs, t);
    if jobs[0].created < t {
      assert forall j | 0 <= j < |jobs| :: jobs[j].created < t;
    } else if i > 0 {
      SortedCount(jobs[1..], t, i - 1);
    }
  }

  lemma {:induction false} CutCount(jobs: seq<Job>, limit: nat, t: Time)
    requires NewestOrder(jobs)
    ensures AtLeast(Cut(jobs, limit), t) == Least(limit, AtLeast(jobs, t))
  {
    if jobs != [] && limit > 0 {
      if jobs[0].created < t {
        AtLeastBound(jobs, t);
        AtLeastBound(Cut(jobs, limit), t);
      } else {
        assert Cut(jobs, limit)[1..] == Cut(jobs[1..], limit - 1);
        CutCount(jobs[1..], limit - 1, t);
      }
    }
  }

  /** Two sorted lists of one length with the same counts show the same times. */
  lemma SameCountsSameTimes(a: seq<Job>, b: seq<Job>, i: nat)
    requires NewestOrder(a) && NewestOrder(b) && |a| == |b| && i < |a|
    requires forall t: Time :: AtLeast(a, t) == AtLeast(b, t)
    ensures a[i].created == b[i].created
  {
    SortedCount(a, a[i].created, i);
    SortedCount(b, a[i].created, i);
    SortedCount(a, b[i].created, i);
    SortedCount(b, b[i].created, i);
  }

  // ----- the listing refines the simple query -----

  /** An answer of one table query: the first rows of the table in some order
      by descending creation time; ties are broken by the database. */
  predicate Answers(table: seq<Job>, ordered: seq<Job>, limit: nat, rows: seq<Job>) {
    multiset(ordered) == multiset(table) && NewestOrder(ordered) && rows == Cut(ordered, limit)
  }

  function Listing(a: seq<Job>, b: seq<Job>, c: seq<Job>, limit: nat): seq<Job> {
    Cut(NewestFirst(a + b + c), limit)
  }

  lemma SortedCounts(a: seq<Job>, b: seq<Job>, c: seq<Job>, t: Time)
    ensures AtLeast(NewestFirst(a + b + c), t) == AtLeast(a, t) + AtLeast(b, t) + AtLeast(c, t)
  {
    SortSound(a + b + c);
    AtLeastPermuted(NewestFirst(a + b + c), a + b + c, t);
    AtLeastConcat(a + b, c, t);
    AtLeastConcat(a, b, t);
  }

  lemma AnswerCount(table: seq<Job>, ordered: seq<Job>, limit: nat, rows: seq<Job>, t: Time)
    requires Answers(table, ordered, limit, rows)
    ensures AtLeast(rows, t) == Least(limit, AtLeast(table, t)) && |rows| == Least(limit, |table|)
  {
    CutCount(ordered, limit, t);
    AtLeastPermuted(ordered, table, t);
    assert |multiset(ordered)| == |multiset(table)|;
  }

  /** Three tables with the answers their queries gave. */
  datatype Tables = Tables(t1: seq<Job>, t2: seq<Job>, t3: seq<Job>, o1: seq<Job>, o2: seq<Job>, o3: seq<Job>,
                           q1: seq<Job>, q2: seq<Job>, q3: seq<Job>)

  predicate Answered(x: Tables, limit: nat) {
    && Answers(x.t1, x.o1, limit, x.q1) && Answers(x.t2, x.o2, limit, x.q2) && Answers(x.t3, x.o3, limit, x.q3)
  }

  lemma ListedCount(a: seq<Job>, b: seq<Job>, c: seq<Job>, limit: nat, t: Time)
    ensures AtLeast(Listing(a, b, c, limit), t) == Least(limit, AtLeast(a, t) + AtLeast(b, t) + AtLeast(c, t))
    ensures |Listing(a, b, c, limit)| == Least(limit, |a| + |b| + |c|)
  {
    SortSound(a + b + c);
    SortedCounts(a, b, c, t);
    CutCount(NewestFirst(a + b + c), limit, t);
  }

  lemma ListingCount(x: Tables, limit: nat, t: Time)
    requires Answered(x, limit)
    ensures AtLeast(Listing(x.q1, x.q2, x.q3, limit), t) == AtLeast(Listing(x.t1, x.t2, x.t3, limit), t)
    ensures |Listing(x.q1, x.q2, x.q3, limit)| == |Listing(x.t1, x.t2, x.t3, limit)|
  {
    AnswerCount(x.t1, x.o1, limit, x.q1, t);
    AnswerCount(x.t2, x.o2, limit, x.q2, t);
    AnswerCount(x.t3, x.o3, limit, x.q3, t);
    ListedCount(x.q1, x.q2, x.q3, limit, t);
    ListedCount(x.t1, x.t2, x.t3, limit, t);
  }

  lemma CutKeepsOrder(jobs: seq<Job>, limit: nat)
    ensures NewestOrder(Cut(NewestFirst(jobs), limit))
  {
    SortSound(jobs);
  }

  /** Merging the newest rows of each table shows, position by position, the
      creation times of the newest rows of the whole union. */
  lemma ListingRefinesUnion(x: Tables, limit: nat)
    requires Answered(x, limit)
    ensures var merged, simple := Listing(x.q1, x.q2, x.q3, limit), Listing(x.t1, x.t2, x.t3, limit);
            |merged| == |simple| && forall i | 0 <= i < |merged| :: merged[i].created == simple[i].created
  {
    var merged, simple := Listing(x.q1, x.q2, x.q3, limit), Listing(x.t1, x.t2, x.t3, limit);
    forall t: Time ensures AtLeast(merged, t) == AtLeast(simple, t) { ListingCount(x, limit, t); }
    ListingCount(x, limit, 0);
    CutKeepsOrder(x.q1 + x.q2 + x.q3, limit);
    CutKeepsOrder(x.t1 + x.t2 + x.t3, limit);
    forall i | 0 <= i < |merged| ensures merged[i].created == simple[i].created {
      SameCountsSameTimes(merged, simple, i);
    }
  }

  /** A job newer than fewer than limit others survives a cut. */
  lemma NewJobSurvives(jobs: seq<Job>, limit: nat, job: Job)
    requires NewestOrder(jobs) && job in jobs && AtLeast(jobs, job.created) <= limit
    ensures job in Cut(jobs, limit)
  {
    var k :| 0 <= k < |jobs| && jobs[k] == job;
    SortedCount(jobs, job.created, k);
    if |jobs| > limit { assert jobs[..limit][k] == job; }
  }

  /** No omitted job is strictly newer than a returned one. */
  lemma OmittedIsNotNewer(x: Tables, limit: nat, job: Job, i: nat)
    requires Answered(x, limit) && job in x.t1 + x.t2 + x.t3
    requires i < |Listing(x.q1, x.q2, x.q3, limit)| && Listing(x.q1, x.q2, x.q3, limit)[i].created < job.created
    ensures job in Listing(x.q1, x.q2, x.q3, limit)
  {
    var t := job.created;
    var merged := Listing(x.q1, x.q2, x.q3, limit);
    CutKeepsOrder(x.q1 + x.q2 + x.q3, limit);
    SortSound(x.q1 + x.q2 + x.q3);
    SortedCount(merged, t, i);
    CutCount(NewestFirst(x.q1 + x.q2 + x.q3), limit, t);
    SortedCounts(x.q1, x.q2, x.q3, t);
    // Fewer than limit rows of the union, hence of each table, are that new.
    FoundInItsTable(x, limit, job);
    var all := x.q1 + x.q2 + x.q3;
    assert job in all && job in multiset(all) && job in multiset(NewestFirst(all));
    NewJobSurvives(NewestFirst(all), limit, job);
  }

  lemma FoundInItsTable(x: Tables, limit: nat, job: Job)
    requires Answered(x, limit) && job in x.t1 + x.t2 + x.t3
    requires AtLeast(x.q1, job.created) + AtLeast(x.q2, job.created) + AtLeast(x.q3, job.created) < limit
    ensures job in x.q1 + x.q2 + x.q3
  {
    if job in x.t1 {
      FoundInAnswer(x.t1, x.o1, limit, x.q1, job);
    } else if job in x.t2 {
      FoundInAnswer(x.t2, x.o2, limit, x.q2, job);
    } else {
      FoundInAnswer(x.t3, x.o3, limit, x.q3, job);
    }
  }

  lemma FoundInAnswer(table: seq<Job>, ordered: seq<Job>, limit: nat, rows: seq<Job>, job: Job)
    requires Answers(table, ordered, limit, rows) && job in table && AtLeast(rows, job.created) < limit
    ensures job in rows
  {
    CutCount(ordered, limit, job.created);
    assert job in multiset(table) && job in multiset(ordered);
    NewJobSurvives(ordered, limit, job);
  }
}
