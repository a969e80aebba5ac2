/**
 * The landing page. Apart from static content it carries its own copy of the home-page feedback
 * section's state and handlers, line for line; the model gives it that section as a component.
 */
module Landing {
  import opened Storage
  import opened SiteFeedback
  import opened FeedbackSection

  class LandingPage {
    /** The feedback form's state (`feedbackData`, `feedbackSubmitted`). */
    const feedbackForm: FeedbackFormSection

    constructor()
      ensures fresh(feedbackForm)
      ensures !feedbackForm.feedbackSubmitted && feedbackForm.feedbackData == EmptyForm
    {
      feedbackForm := new FeedbackFormSection();
    }

    /** `handleFeedbackChange(field, value)`: only the named field changes. */
    method HandleFeedbackChange(field: FeedbackField, value: string)
      modifies feedbackForm`feedbackData
      ensures feedbackForm.feedbackData == old(feedbackForm.feedbackData).With(field, value)
    {
      feedbackForm.HandleFeedbackChange(field, value);
    }

    /**
     * `handleFeedbackSubmit`: an incomplete form is refused with storage unchanged; otherwise one
     * entry built from the form, `submittedAt` and `id` goes in front of the stored entries.
     */
    method HandleFeedbackSubmit(storage: BrowserStorage, id: string, submittedAt: string) returns (accepted: bool)
      modifies feedbackForm`feedbackSubmitted, storage`feedback
      ensures accepted <==> feedbackForm.feedbackData.Complete()
      ensures !accepted ==>
        storage.feedback == old(storage.feedback) && feedbackForm.feedbackSubmitted == old(feedbackForm.feedbackSubmitted)
      ensures accepted ==>
        && storage.feedback == [Stamp(feedbackForm.feedbackData, id, submittedAt)] + old(storage.feedback)
        && feedbackForm.feedbackSubmitted
    {
      accepted := feedbackForm.HandleFeedbackSubmit(storage, id, submittedAt);
    }

    /** The timer three seconds after a success restores the empty form with "General Feedback". */
    method ResetAfterDelay()
      modifies feedbackForm`feedbackSubmitted, feedbackForm`feedbackData
      ensures !feedbackForm.feedbackSubmitted && feedbackForm.feedbackData == EmptyForm
    {
      feedbackForm.ResetAfterDelay();
    }
  }
}
