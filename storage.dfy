/**
 * The browser's local storage as the pages use it: three keys, each holding a JSON array.
 * `complaints` holds complaint records, `complaint_feedback` the ratings of resolved complaints
 * and `feedback` the site-feedback entries. Each key is a sequence field that pages reassign.
 */
module Storage {
  import opened Seqs
  import opened Complaints

  /** One rating of a resolved complaint, as the feedback dialog stores it. */
  datatype ComplaintFeedback = ComplaintFeedback(
    complaintId: string, rating: int, feedback: string, submittedAt: string)

  /** A site-feedback entry: the four form fields plus `id` and `submittedAt`. */
  datatype FeedbackEntry = FeedbackEntry(
    id: string, fullName: string, email: string, category: string, message: string, submittedAt: string)

  class BrowserStorage {
    /** The `complaints` key. */
    var complaints: seq<Complaint>
    /** The `complaint_feedback` key. */
    var complaintFeedback: seq<ComplaintFeedback>
    /** The `feedback` key. */
    var feedback: seq<FeedbackEntry>

    /** A browser that has stored nothing yet: every key reads as `[]`. */
    constructor()
      ensures complaints == [] && complaintFeedback == [] && feedback == []
    {
      complaints := [];
      complaintFeedback := [];
      feedback := [];
    }
  }

  /** `ledger.some(f => f.complaintId === id)` */
  function HasFeedback(ledger: seq<ComplaintFeedback>, id: string): (r: bool)
    ensures r <==> exists i :: 0 <= i < |ledger| && ledger[i].complaintId == id
  {
    if ledger == [] then false
    else if ledger[0].complaintId == id then true
    else
      var r := HasFeedback(ledger[1..], id);
      assert r ==> exists i :: 0 <= i < |ledger| && ledger[i].complaintId == id by {
        if r {
          var i :| 0 <= i < |ledger[1..]| && ledger[1..][i].complaintId == id;
          assert ledger[i + 1].complaintId == id;
        }
      }
      assert !r ==> forall i :: 1 <= i < |ledger| ==> ledger[i].complaintId != id by {
        if !r {
          forall i | 1 <= i < |ledger| ensures ledger[i].complaintId != id {
            assert ledger[1..][i - 1] == ledger[i];
          }
        }
      }
      r
  }

  /** The ratings stored for complaint `id`, in submission order. */
  function FeedbackFor(ledger: seq<ComplaintFeedback>, id: string): seq<ComplaintFeedback> {
    Filter(ledger, (f: ComplaintFeedback) => f.complaintId == id)
  }

  /**
   * Appending an entry adds exactly one rating for its complaint, leaves every other complaint's
   * ratings as they were, and makes the complaint count as rated.
   */
  lemma AppendRatesOnce(ledger: seq<ComplaintFeedback>, e: ComplaintFeedback, id: string)
    ensures FeedbackFor(ledger + [e], id)
         == FeedbackFor(ledger, id) + (if e.complaintId == id then [e] else [])
    ensures HasFeedback(ledger + [e], e.complaintId)
  {
    FilterAppend(ledger, [e], (f: ComplaintFeedback) => f.complaintId == id);
    assert (ledger + [e])[|ledger|] == e;
  }

  /** Nothing stops a second rating of the same complaint: two submissions leave two entries. */
  lemma NoUniquenessAtWrite(ledger: seq<ComplaintFeedback>, e1: ComplaintFeedback, e2: ComplaintFeedback)
    requires e1.complaintId == e2.complaintId
    ensures |FeedbackFor(ledger + [e1] + [e2], e1.complaintId)| == |FeedbackFor(ledger, e1.complaintId)| + 2
  {
    AppendRatesOnce(ledger, e1, e1.complaintId);
    AppendRatesOnce(ledger + [e1], e2, e1.complaintId);
  }
}
