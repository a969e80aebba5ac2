/**
 * The complaint record as the pages store and read it, the seed records the pages fall back on,
 * and the reconciliation of stored records with seeds that three pages repeat word for word:
 * the stored list first, then every seed whose id is not among the stored ids.
 */
module Complaints {
  import opened Wrappers
  import opened Seqs

  /** A point in time as JavaScript's `Date` holds it: milliseconds, or an invalid date
   *  (`new Date(undefined)`). */
  datatype Instant = Ms(ms: int) | InvalidDate {
    /** `new Date(d.getTime() + delta)`: an invalid date stays invalid. */
    function Plus(delta: int): Instant {
      match this
      case Ms(t) => Ms(t + delta)
      case InvalidDate => InvalidDate
    }
  }

  /** A timeline step's date: a moment that happened, or the "Expected: ..." label of a future one. */
  datatype StepDate = At(when: Instant) | ExpectedBy(when: Instant)

  datatype TimelineStep = TimelineStep(
    status: string, title: string, description: string, date: StepDate, completed: bool)

  datatype Officer = Officer(name: string, designation: string, phone: string)

  /** What is kept of an uploaded file: its metadata, never its bytes. */
  datatype FileMeta = FileMeta(name: string, size: int, fileType: string, uploadedAt: string)

  /** The fields only a record registered through the complaint form carries. */
  datatype Filing = Filing(
    description: string, submittedBy: string, email: string, phone: string,
    attachments: seq<FileMeta>, attachmentCount: int)

  /**
   * One complaint. `date` is the calendar day (days since 1970-01-01) the lists sort by;
   * `registeredDate` is the registration instant in milliseconds, which only the tracking
   * page's seeds carry. Absent JavaScript fields are `None`.
   */
  datatype Complaint = Complaint(
    id: string,
    title: string,
    category: string,
    status: string,
    date: int,
    progress: int,
    priority: Option<string>,
    subject: Option<string>,
    department: Option<string>,
    registeredDate: Option<int>,
    location: Option<string>,
    filing: Option<Filing>,
    timeline: Option<seq<TimelineStep>>,
    assignedOfficer: Option<Officer>)

  const MsPerDay := 86_400_000

  /** A seed of the history and dashboard pages: only the six list fields. */
  function Seed(id: string, title: string, category: string, status: string, date: int, progress: int): Complaint {
    Complaint(id, title, category, status, date, progress, None, None, None, None, None, None, None, None)
  }

  /** The four seed records of the history and dashboard pages (dates 2025-01-28, -25, -20, -15). */
  const DefaultComplaints: seq<Complaint> := [
    Seed("2025-12346", "Water leakage in main pipeline", "Water Supply", "In Progress", 20116, 65),
    Seed("2025-12345", "Pothole on main road near market", "Roads & Traffic", "Resolved", 20113, 100),
    Seed("2025-12344", "Street light not working for 2 months", "Municipal Services", "Resolved", 20108, 100),
    Seed("2025-12343", "Noise pollution from construction site", "Environment", "Escalated", 20103, 45)
  ]

  /** The sort key of the comparator `new Date(b.date) - new Date(a.date)`: newest first. */
  function NewestFirst(c: Complaint): int {
    -c.date
  }

  /** `priorityOrder[c.priority] ?? 99` over the table `{ high: 0, medium: 1, low: 2 }`. */
  function PriorityRank(priority: Option<string>): int {
    if priority == Some("high") then 0
    else if priority == Some("medium") then 1
    else if priority == Some("low") then 2
    else 99
  }

  /** `new Set(list.map(c => c.id))` */
  function Ids(s: seq<Complaint>): set<string> {
    set c | c in s :: c.id
  }

  /** No two records of `s` share an id. */
  predicate UniqueIds(s: seq<Complaint>) {
    forall i, j :: 0 <= i < j < |s| ==> s[i].id != s[j].id
  }

  /** The seeds whose id is not already taken, in seed order. */
  function FreshSeeds(seeds: seq<Complaint>, taken: set<string>): seq<Complaint> {
    Filter(seeds, (d: Complaint) => d.id !in taken)
  }

  /** The reconciled list: the stored records, unchanged and in order, then the seeds whose id no
   *  stored record has. */
  function Merge(stored: seq<Complaint>, seeds: seq<Complaint>): (r: seq<Complaint>)
    ensures |r| >= |stored| && r[..|stored|] == stored
  {
    var r := stored + FreshSeeds(seeds, Ids(stored));
    assert r[..|stored|] == stored;
    r
  }

  /**
   * No stored record is dropped, a seed is added exactly when no stored record has its id, and
   * the reconciled ids are the stored ids together with every seed id.
   */
  lemma MergeContents(stored: seq<Complaint>, seeds: seq<Complaint>)
    ensures forall c :: c in Merge(stored, seeds) <==> c in stored || (c in seeds && c.id !in Ids(stored))
    ensures Ids(Merge(stored, seeds)) == Ids(stored) + Ids(seeds)
  {
    var r := Merge(stored, seeds);
    forall id | id in Ids(stored) + Ids(seeds) ensures id in Ids(r) {
      if id !in Ids(stored) {
        var d :| d in seeds && d.id == id;
        assert d in r;
      }
    }
  }

  /**
   * The merge loop of the history, dashboard and tracking pages: copy the stored list, collect
   * its ids once, then push every seed whose id is not in that set.
   */
  method Reconcile(stored: seq<Complaint>, seeds: seq<Complaint>) returns (combined: seq<Complaint>)
    ensures combined == Merge(stored, seeds)
  {
    combined := stored;
    var ids := set c | c in stored :: c.id;
    var i := 0;
    while i < |seeds|
      invariant 0 <= i <= |seeds|
      invariant combined == stored + FreshSeeds(seeds[..i], ids)
    {
      var seed := seeds[i];
      assert seeds[..i + 1] == seeds[..i] + [seed];
      FilterAppend(seeds[..i], [seed], (d: Complaint) => d.id !in ids);
      assert Filter([seed], (d: Complaint) => d.id !in ids) == if seed.id !in ids then [seed] else [];
      if seed.id !in ids {
        combined := combined + [seed];
      }
      i := i + 1;
    }
    assert seeds[..i] == seeds;
  }

  /** Reconciling the reconciled list with the same seeds again changes nothing: repeated loads
   *  never accumulate duplicate seeds. */
  lemma MergeIdempotent(stored: seq<Complaint>, seeds: seq<Complaint>)
    ensures Merge(Merge(stored, seeds), seeds) == Merge(stored, seeds)
  {
    var once := Merge(stored, seeds);
    MergeContents(stored, seeds);
    var extra := FreshSeeds(seeds, Ids(once));
    assert forall d :: d in seeds ==> d.id in Ids(once);
    FilterNone(seeds, (d: Complaint) => d.id !in Ids(once));
    assert once + extra == once;
  }

  /** Index of the first record with `id`, or |s| when there is none: `s.find(c => c.id === id)`. */
  function FirstIndexOf(s: seq<Complaint>, id: string): (k: nat)
    ensures k <= |s|
    ensures k < |s| ==> s[k].id == id
    ensures forall j :: 0 <= j < k ==> s[j].id != id
    ensures k == |s| <==> id !in Ids(s)
  {
    if s == [] then 0
    else if s[0].id == id then 0
    else
      var k := FirstIndexOf(s[1..], id);
      assert forall c :: c in s[1..] ==> c in s;
      assert id !in Ids(s[1..]) ==> id !in Ids(s) by {
        if id in Ids(s) {
          var c :| c in s && c.id == id;
          var j :| 0 <= j < |s| && s[j] == c;
          assert j > 0 && s[1..][j - 1] == c;
        }
      }
      1 + k
  }

  /** `s.find(c => c.id === id)` */
  function FindById(s: seq<Complaint>, id: string): Option<Complaint> {
    var k := FirstIndexOf(s, id);
    if k < |s| then Some(s[k]) else None
  }

  /** Looking an id up in `s + t` finds it within `s` when `s` has it. */
  lemma {:induction false} FirstIndexOfPrefix(s: seq<Complaint>, t: seq<Complaint>, id: string)
    requires id in Ids(s)
    ensures FirstIndexOf(s + t, id) == FirstIndexOf(s, id)
  {
    if s[0].id != id {
      assert (s + t)[1..] == s[1..] + t;
      FirstIndexOfPrefix(s[1..], t, id);
    }
  }

  /** Looking up a stored id in the reconciled list finds the stored record, never the seed. */
  lemma StoredRecordWins(stored: seq<Complaint>, seeds: seq<Complaint>, id: string)
    requires id in Ids(stored)
    ensures FindById(Merge(stored, seeds), id) == FindById(stored, id)
    ensures FindById(Merge(stored, seeds), id).Some?
  {
    FirstIndexOfPrefix(stored, FreshSeeds(seeds, Ids(stored)), id);
  }

  /** A seed whose id is not stored is found by its id, provided the seed ids are distinct. */
  lemma {:induction false} SeedFound(stored: seq<Complaint>, seeds: seq<Complaint>, i: nat)
    requires UniqueIds(seeds) && i < |seeds| && seeds[i].id !in Ids(stored)
    ensures FindById(Merge(stored, seeds), seeds[i].id) == Some(seeds[i])
  {
    var m := Merge(stored, seeds);
    var id := seeds[i].id;
    MergeContents(stored, seeds);
    var k := FirstIndexOf(m, id);
    assert seeds[i] in m;
    assert k < |m|;
    var c := m[k];
    assert c in m;
    if c !in stored {
      assert c in seeds;
      var j :| 0 <= j < |seeds| && seeds[j] == c;
      assert j == i;
    }
  }

  /** A list holds at least as many records as it has distinct ids. */
  lemma {:induction false} IdsBound(s: seq<Complaint>)
    ensures |Ids(s)| <= |s|
  {
    if s != [] {
      IdsBound(s[1..]);
      assert Ids(s) == {s[0].id} + Ids(s[1..]) by {
        assert s == [s[0]] + s[1..];
      }
    }
  }

  /** With distinct ids, a list has exactly as many ids as records. */
  lemma {:induction false} UniqueIdsCount(s: seq<Complaint>)
    requires UniqueIds(s)
    ensures |Ids(s)| == |s|
  {
    if s != [] {
      assert UniqueIds(s[1..]);
      UniqueIdsCount(s[1..]);
      assert s == [s[0]] + s[1..];
      assert Ids(s) == {s[0].id} + Ids(s[1..]);
      assert s[0].id !in Ids(s[1..]);
    }
  }

  /** Reconciling with distinct seeds yields at least one record per seed, whatever is stored. */
  lemma MergeAtLeastSeeds(stored: seq<Complaint>, seeds: seq<Complaint>)
    requires UniqueIds(seeds)
    ensures |Merge(stored, seeds)| >= |seeds|
  {
    var m := Merge(stored, seeds);
    MergeContents(stored, seeds);
    IdsBound(m);
    UniqueIdsCount(seeds);
    assert Ids(seeds) <= Ids(m);
    assert |Ids(seeds)| <= |Ids(m)| by {
      SubsetCard(Ids(seeds), Ids(m));
    }
  }

  lemma SubsetCard(a: set<string>, b: set<string>)
    requires a <= b
    ensures |a| <= |b|
  {
    assert b == a + (b - a);
  }

  /** The four seed records have four different ids. */
  lemma DefaultComplaintsUnique()
    ensures UniqueIds(DefaultComplaints)
  {
    assert "2025-12346"[9] == '6' && "2025-12345"[9] == '5';
    assert "2025-12344"[9] == '4' && "2025-12343"[9] == '3';
  }

  /** Sorting newest first orders the records by non-increasing day and keeps exactly the same records. */
  lemma SortNewestFirst(s: seq<Complaint>)
    ensures forall i, j :: 0 <= i < j < |SortBy(s, NewestFirst)| ==> SortBy(s, NewestFirst)[i].date >= SortBy(s, NewestFirst)[j].date
    ensures forall c :: c in SortBy(s, NewestFirst) <==> c in s
  {
    var r := SortBy(s, NewestFirst);
    SortedByOrdered(r, NewestFirst);
    forall c ensures c in r <==> c in s {
      assert c in r <==> c in multiset(r);
      assert c in s <==> c in multiset(s);
    }
  }

  /**
   * What the history page and the dashboard hold after loading `stored` with `seeds`: the
   * reconciled list sorted newest first.
   */
  function Loaded(stored: seq<Complaint>, seeds: seq<Complaint>): seq<Complaint> {
    SortBy(Merge(stored, seeds), NewestFirst)
  }

  /**
   * The loaded list is in non-increasing day order, holds exactly the reconciled records, keeps
   * every stored record, has a record for every seed id and, when the seed ids are distinct, at
   * least one record per seed.
   */
  lemma LoadedFacts(stored: seq<Complaint>, seeds: seq<Complaint>)
    ensures var r := Loaded(stored, seeds);
      && (forall i, j :: 0 <= i < j < |r| ==> r[i].date >= r[j].date)
      && multiset(r) == multiset(Merge(stored, seeds))
      && (forall c :: c in stored ==> c in r)
      && Ids(r) == Ids(stored) + Ids(seeds)
      && (UniqueIds(seeds) ==> |r| >= |seeds|)
  {
    var m := Merge(stored, seeds);
    MergeContents(stored, seeds);
    SortNewestFirst(m);
    assert Ids(SortBy(m, NewestFirst)) == Ids(m);
    if UniqueIds(seeds) {
      MergeAtLeastSeeds(stored, seeds);
    }
  }

  /** The merge loop followed by the sort, newest first. */
  method LoadFrom(stored: seq<Complaint>, seeds: seq<Complaint>) returns (loaded: seq<Complaint>)
    ensures loaded == Loaded(stored, seeds)
  {
    var combined := Reconcile(stored, seeds);
    loaded := SortBy(combined, NewestFirst);
  }
}
