/**
 * The dialog that rates a resolved complaint: a star rating that starts at 5, a text box, and a
 * submit handler that appends one entry to the `complaint_feedback` ledger.
 */
module FeedbackForm {
  import opened Text
  import opened Storage

  class FeedbackDialog {
    /** The complaint the dialog rates, fixed by its caller. */
    const complaintId: string
    var rating: int
    var feedback: string
    var isSubmitting: bool

    /** The rating is always one of the five stars. */
    predicate Valid()
      reads this`rating
    {
      1 <= rating <= 5
    }

    constructor(complaintId: string)
      ensures this.complaintId == complaintId
      ensures rating == 5 && feedback == "" && !isSubmitting
      ensures Valid()
    {
      this.complaintId := complaintId;
      rating := 5;
      feedback := "";
      isSubmitting := false;
    }

    /** A click on one of the five stars. */
    method SetRating(star: int)
      requires 1 <= star <= 5
      modifies this`rating
      ensures rating == star && Valid()
    {
      rating := star;
    }

    /** Typing in the text box. */
    method SetFeedback(text: string)
      modifies this`feedback
      ensures feedback == text
    {
      feedback := text;
    }

    /**
     * `handleSubmitFeedback`, stamped `submittedAt`. Whitespace-only text is refused and nothing
     * changes. Otherwise exactly one entry is appended to the end of the ledger, the rating is
     * reset to 5 and the text cleared, and the dialog reports that it closes.
     */
    method HandleSubmitFeedback(storage: BrowserStorage, submittedAt: string) returns (closed: bool)
      requires Valid()
      modifies this`rating, this`feedback, this`isSubmitting, storage`complaintFeedback
      ensures Valid()
      ensures closed <==> !IsBlank(old(feedback))
      ensures !closed ==>
        && storage.complaintFeedback == old(storage.complaintFeedback)
        && rating == old(rating) && feedback == old(feedback) && isSubmitting == old(isSubmitting)
      ensures closed ==>
        && storage.complaintFeedback
           == old(storage.complaintFeedback) + [ComplaintFeedback(complaintId, old(rating), old(feedback), submittedAt)]
        && rating == 5 && feedback == "" && !isSubmitting
    {
      if IsBlank(feedback) {
        return false;
      }
      isSubmitting := true;
      var entry := ComplaintFeedback(complaintId, rating, feedback, submittedAt);
      storage.complaintFeedback := storage.complaintFeedback + [entry];
      rating := 5;
      feedback := "";
      closed := true;
      isSubmitting := false;
    }
  }
}
