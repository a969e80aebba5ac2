/**
 * The feedback section of the home page: its submit handler checks the form and inserts one entry
 * at the front of the `feedback` list; a timer three seconds later hides the thank-you note and
 * resets the form.
 */
module FeedbackSection {
  import opened Storage
  import opened SiteFeedback

  class FeedbackFormSection {
    /** The thank-you note. */
    var feedbackSubmitted: bool
    var feedbackData: SiteForm

    constructor()
      ensures !feedbackSubmitted && feedbackData == EmptyForm
    {
      feedbackSubmitted := false;
      feedbackData := EmptyForm;
    }

    /** `handleFeedbackChange(field, value)`: only the named field changes. */
    method HandleFeedbackChange(field: FeedbackField, value: string)
      modifies this`feedbackData
      ensures feedbackData == old(feedbackData).With(field, value)
    {
      feedbackData := feedbackData.With(field, value);
    }

    /**
     * `handleFeedbackSubmit`, with the clock's id and timestamp as parameters. An incomplete form
     * is refused and nothing changes. Otherwise the entry goes in front of every stored entry and
     * the thank-you note shows; the form keeps its contents until the timer resets it.
     */
    method HandleFeedbackSubmit(storage: BrowserStorage, id: string, submittedAt: string) returns (accepted: bool)
      modifies this`feedbackSubmitted, storage`feedback
      ensures accepted <==> feedbackData.Complete()
      ensures !accepted ==> storage.feedback == old(storage.feedback) && feedbackSubmitted == old(feedbackSubmitted)
      ensures accepted ==>
        && storage.feedback == [Stamp(feedbackData, id, submittedAt)] + old(storage.feedback)
        && feedbackSubmitted
    {
      if !feedbackData.Complete() {
        return false;
      }
      var entry := Stamp(feedbackData, id, submittedAt);
      storage.feedback := [entry] + storage.feedback;
      feedbackSubmitted := true;
      accepted := true;
    }

    /** The timer three seconds after a success: the note hides and the form is reset. */
    method ResetAfterDelay()
      modifies this`feedbackSubmitted, this`feedbackData
      ensures !feedbackSubmitted && feedbackData == EmptyForm
    {
      feedbackSubmitted := false;
      feedbackData := EmptyForm;
    }
  }

  /** After a prepend the new entry is first and every earlier entry sits one place further on. */
  lemma PrependShifts(ledger: seq<FeedbackEntry>, e: FeedbackEntry)
    ensures ([e] + ledger)[0] == e
    ensures forall i :: 0 <= i < |ledger| ==> ([e] + ledger)[i + 1] == ledger[i]
  {
  }
}
