/**
 * The citizen dashboard: on mount it loads the reconciled list newest first, keeps the three most
 * recent records for the "recent complaints" card, and derives its statistics from the whole list.
 */
module Dashboard {
  import opened Seqs
  import opened Complaints
  import opened Storage

  function Min(a: int, b: int): int {
    if a <= b then a else b
  }

  /** `all.filter(c => c.status === "Resolved").length` */
  function ResolvedCount(all: seq<Complaint>): nat {
    |Filter(all, (c: Complaint) => c.status == "Resolved")|
  }

  /** `all.filter(c => c.status === "In Progress").length` */
  function InProgressCount(all: seq<Complaint>): nat {
    |Filter(all, (c: Complaint) => c.status == "In Progress")|
  }

  /** The satisfaction label: a fixed rating whenever there is any complaint at all. */
  function SatisfactionRating(total: int): string {
    if total > 0 then "4.8/5" else "N/A"
  }

  /** No record is both resolved and in progress, so the two counts never exceed the total. */
  lemma CountsFitTotal(all: seq<Complaint>)
    ensures ResolvedCount(all) + InProgressCount(all) <= |all|
  {
    DisjointFiltersFit(all, (c: Complaint) => c.status == "Resolved", (c: Complaint) => c.status == "In Progress");
  }

  /**
   * Whatever storage holds, the four seeds keep the dashboard populated: the total is at least 4
   * and the satisfaction label is never "N/A".
   */
  lemma AlwaysPopulated(stored: seq<Complaint>)
    ensures |Loaded(stored, DefaultComplaints)| >= 4
    ensures SatisfactionRating(|Loaded(stored, DefaultComplaints)|) == "4.8/5"
  {
    DefaultComplaintsUnique();
    LoadedFacts(stored, DefaultComplaints);
  }

  /** The recent card shows the newest records: none of the records left out is newer. */
  lemma RecentAreNewest(stored: seq<Complaint>, seeds: seq<Complaint>)
    ensures var all := Loaded(stored, seeds);
      var recent := all[..Min(3, |all|)];
      forall i, j :: 0 <= i < |recent| <= j < |all| ==> recent[i].date >= all[j].date
  {
    LoadedFacts(stored, seeds);
  }

  class DashboardPage {
    /** The page's seed records: always the four default complaints. */
    const seeds: seq<Complaint>
    var allComplaints: seq<Complaint>
    var recentComplaints: seq<Complaint>

    constructor()
      ensures seeds == DefaultComplaints
      ensures allComplaints == [] && recentComplaints == []
    {
      seeds := DefaultComplaints;
      allComplaints := [];
      recentComplaints := [];
    }

    /** The mount effect: load, sort newest first, and keep the first three for the recent card. */
    method Mount(storage: BrowserStorage)
      modifies this`allComplaints, this`recentComplaints
      ensures allComplaints == Loaded(storage.complaints, seeds)
      ensures recentComplaints == allComplaints[..Min(3, |allComplaints|)]
    {
      var combined := LoadFrom(storage.complaints, seeds);
      allComplaints := combined;
      recentComplaints := combined[..Min(3, |combined|)];
    }

    function TotalComplaints(): nat
      reads this
    {
      |allComplaints|
    }
  }
}
