/**
 * The complaint history page: it loads the reconciled list newest first, shows the records that
 * pass a free-text search and a status filter in the order the chosen sort gives, and deletes
 * records by id, writing the page's whole list back to storage.
 */
module ComplaintHistory {
  import opened Wrappers
  import opened Text
  import opened Seqs
  import opened Complaints
  import opened Storage

  /** The search rule applied to a record's id and title. */
  predicate MatchesSearch(c: Complaint, term: string) {
    SearchMatch(c.id, c.title, term)
  }

  /** The status each filter value selects; "all" and unknown values select no single status. */
  function StatusFor(statusFilter: string): Option<string> {
    if statusFilter == "in_progress" then Some("In Progress")
    else if statusFilter == "resolved" then Some("Resolved")
    else if statusFilter == "escalated" then Some("Escalated")
    else None
  }

  /**
   * The status test: "all" keeps every record, the three known filter values keep exactly the
   * records with the matching capitalised status, and any other value keeps nothing.
   */
  function MatchesStatus(c: Complaint, statusFilter: string): (r: bool)
    ensures statusFilter == "all" ==> r
    ensures statusFilter != "all" ==> (r <==> StatusFor(statusFilter) == Some(c.status))
    ensures r && statusFilter != "all" ==> c.status in ["In Progress", "Resolved", "Escalated"]
  {
    if statusFilter == "all" then true
    else if statusFilter == "in_progress" then c.status == "In Progress"
    else if statusFilter == "resolved" then c.status == "Resolved"
    else if statusFilter == "escalated" then c.status == "Escalated"
    else false
  }

  /** `filtered`: the records passing both tests, in the page's order. */
  function Filtered(complaints: seq<Complaint>, term: string, statusFilter: string): (r: seq<Complaint>)
    ensures forall c :: c in r <==> c in complaints && MatchesSearch(c, term) && MatchesStatus(c, statusFilter)
    ensures IsSubsequence(r, complaints)
  {
    FilterIsSubsequence(complaints, (c: Complaint) => MatchesSearch(c, term) && MatchesStatus(c, statusFilter));
    Filter(complaints, (c: Complaint) => MatchesSearch(c, term) && MatchesStatus(c, statusFilter))
  }

  /** A filter value other than the four the page offers shows nothing. */
  lemma UnknownFilterShowsNothing(complaints: seq<Complaint>, term: string, statusFilter: string)
    requires statusFilter !in ["all", "in_progress", "resolved", "escalated"]
    ensures Filtered(complaints, term, statusFilter) == []
  {
    FilterNone(complaints, (c: Complaint) => MatchesSearch(c, term) && MatchesStatus(c, statusFilter));
  }

  /** With the empty search and the "all" filter every record is shown, in the page's order. */
  lemma {:induction false} EverythingShownByDefault(complaints: seq<Complaint>)
    ensures Filtered(complaints, "", "all") == complaints
  {
    if complaints != [] {
      var p := (c: Complaint) => MatchesSearch(c, "") && MatchesStatus(c, "all");
      EverythingShownByDefault(complaints[1..]);
      assert p(complaints[0]);
      assert Filter(complaints, p) == [complaints[0]] + Filter(complaints[1..], p);
      assert complaints == [complaints[0]] + complaints[1..];
    }
  }

  /** The comparator `sortBy` selects, as a sort key: newest first, by priority rank, or none. */
  function SortKey(sortBy: string): Complaint -> int {
    if sortBy == "date" then NewestFirst
    else if sortBy == "priority" then (c: Complaint) => PriorityRank(c.priority)
    else (c: Complaint) => 0
  }

  /**
   * `sorted`: a sorted copy of the filtered records. By date it is newest first; by priority it
   * puts high before medium before low before records without a known priority; with any other
   * value the comparator answers 0 and the filtered order stays as it is.
   */
  function Projection(complaints: seq<Complaint>, term: string, statusFilter: string, sortBy: string): (r: seq<Complaint>)
    ensures multiset(r) == multiset(Filtered(complaints, term, statusFilter))
    ensures forall c :: c in r <==> c in complaints && MatchesSearch(c, term) && MatchesStatus(c, statusFilter)
    ensures sortBy == "date" ==> forall i, j :: 0 <= i < j < |r| ==> r[i].date >= r[j].date
    ensures sortBy == "priority" ==>
      forall i, j :: 0 <= i < j < |r| ==> PriorityRank(r[i].priority) <= PriorityRank(r[j].priority)
    ensures sortBy != "date" && sortBy != "priority" ==> r == Filtered(complaints, term, statusFilter)
  {
    var f := Filtered(complaints, term, statusFilter);
    var r := SortBy(f, SortKey(sortBy));
    SortedByOrdered(r, SortKey(sortBy));
    assert forall c :: c in r <==> c in f by {
      forall c ensures c in r <==> c in f {
        assert c in r <==> c in multiset(r);
        assert c in f <==> c in multiset(f);
      }
    }
    if sortBy != "date" && sortBy != "priority" then
      SortBySortedIsIdentity(f, SortKey(sortBy));
      r
    else
      r
  }

  /** The projection is the filtered records sorted by the selected key. */
  lemma ProjectionIsSort(complaints: seq<Complaint>, term: string, statusFilter: string, sortBy: string)
    ensures Projection(complaints, term, statusFilter, sortBy)
         == SortBy(Filtered(complaints, term, statusFilter), SortKey(sortBy))
  {
  }

  /** Records of the same day (sort key `k`) keep their relative order when sorting by date: the sort is stable. */
  lemma SameDayOrderKept(complaints: seq<Complaint>, term: string, statusFilter: string, k: int)
    ensures WithKey(Projection(complaints, term, statusFilter, "date"), NewestFirst, k)
         == WithKey(Filtered(complaints, term, statusFilter), NewestFirst, k)
  {
    ProjectionIsSort(complaints, term, statusFilter, "date");
    assert SortKey("date") == NewestFirst;
    SortByStable(Filtered(complaints, term, statusFilter), NewestFirst, k);
  }

  /** In the priority view every high-priority record comes before every record that is not. */
  lemma HighPriorityFirst(complaints: seq<Complaint>, term: string, statusFilter: string, i: int, j: int)
    requires var r := Projection(complaints, term, statusFilter, "priority");
      0 <= i < j < |r| && r[j].priority == Some("high")
    ensures Projection(complaints, term, statusFilter, "priority")[i].priority == Some("high")
  {
    var r := Projection(complaints, term, statusFilter, "priority");
    assert PriorityRank(r[i].priority) <= PriorityRank(r[j].priority) == 0;
  }

  /** `complaints.filter(c => c.id !== id)`: every record with that id goes, the rest stay in order. */
  function RemoveId(complaints: seq<Complaint>, id: string): (r: seq<Complaint>)
    ensures forall c :: c in r <==> c in complaints && c.id != id
    ensures id !in Ids(r)
    ensures IsSubsequence(r, complaints)
  {
    FilterIsSubsequence(complaints, (c: Complaint) => c.id != id);
    Filter(complaints, (c: Complaint) => c.id != id)
  }

  /**
   * Deleting a seed record does not last: the deleted list is what gets stored, and the next load
   * reconciles it with the seeds again, so the seed is found under its id once more.
   */
  lemma DeletedSeedReturns(complaints: seq<Complaint>, seeds: seq<Complaint>, i: nat)
    requires UniqueIds(seeds) && i < |seeds|
    ensures FindById(Merge(RemoveId(complaints, seeds[i].id), seeds), seeds[i].id) == Some(seeds[i])
  {
    SeedFound(RemoveId(complaints, seeds[i].id), seeds, i);
  }

  class HistoryPage {
    /** The page's seed records: always the four default complaints. */
    const seeds: seq<Complaint>
    var complaints: seq<Complaint>
    var searchTerm: string
    var statusFilter: string
    var sortBy: string
    /** The id awaiting confirmation in the delete dialog. */
    var deleteConfirm: Option<string>

    constructor()
      ensures seeds == DefaultComplaints
      ensures complaints == [] && searchTerm == "" && statusFilter == "all" && sortBy == "date"
      ensures deleteConfirm == None
    {
      seeds := DefaultComplaints;
      complaints := [];
      searchTerm := "";
      statusFilter := "all";
      sortBy := "date";
      deleteConfirm := None;
    }

    /** The records on screen. */
    function Shown(): seq<Complaint>
      reads this
    {
      Projection(complaints, searchTerm, statusFilter, sortBy)
    }

    /** `loadComplaints`, run on mount and on every storage event: reconcile, then sort newest first. */
    method LoadComplaints(storage: BrowserStorage)
      modifies this`complaints
      ensures complaints == Loaded(storage.complaints, seeds)
    {
      complaints := LoadFrom(storage.complaints, seeds);
    }

    method SetSearchTerm(term: string)
      modifies this`searchTerm
      ensures searchTerm == term
    {
      searchTerm := term;
    }

    method SetStatusFilter(value: string)
      modifies this`statusFilter
      ensures statusFilter == value
    {
      statusFilter := value;
    }

    method SetSortBy(value: string)
      modifies this`sortBy
      ensures sortBy == value
    {
      sortBy := value;
    }

    /** The trash button opens the confirmation dialog for `id`; Cancel closes it. */
    method SetDeleteConfirm(id: Option<string>)
      modifies this`deleteConfirm
      ensures deleteConfirm == id
    {
      deleteConfirm := id;
    }

    /**
     * `handleDelete`: drop every record with `id` from the page's list, store that whole list
     * (seed records included) under `complaints`, and close the dialog.
     */
    method HandleDelete(storage: BrowserStorage, id: string)
      modifies this`complaints, this`deleteConfirm, storage`complaints
      ensures complaints == RemoveId(old(complaints), id)
      ensures storage.complaints == complaints
      ensures deleteConfirm == None
    {
      var updated := RemoveId(complaints, id);
      complaints := updated;
      storage.complaints := updated;
      deleteConfirm := None;
    }
  }
}
