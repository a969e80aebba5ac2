/**
 * The stand-alone feedback page: its submit handler checks the form, appends one entry to the end
 * of the `feedback` list and resets the form; a later timer hides the thank-you note.
 */
module Feedback {
  import opened Storage
  import opened SiteFeedback

  class FeedbackPage {
    var isSubmitting: bool
    /** The thank-you note. */
    var submitted: bool
    var formData: SiteForm

    constructor()
      ensures !isSubmitting && !submitted && formData == EmptyForm
    {
      isSubmitting := false;
      submitted := false;
      formData := EmptyForm;
    }

    /** `handleChange(field, value)`: only the named field changes. */
    method HandleChange(field: FeedbackField, value: string)
      modifies this`formData
      ensures formData == old(formData).With(field, value)
    {
      formData := formData.With(field, value);
    }

    /**
     * `handleSubmit`, with the clock's id and timestamp as parameters. An incomplete form is
     * refused and nothing changes. Otherwise one entry is appended after every stored entry, the
     * thank-you note shows, the form is reset and the page is no longer submitting.
     */
    method HandleSubmit(storage: BrowserStorage, id: string, submittedAt: string) returns (accepted: bool)
      modifies this`isSubmitting, this`submitted, this`formData, storage`feedback
      ensures accepted <==> old(formData).Complete()
      ensures !accepted ==>
        && storage.feedback == old(storage.feedback)
        && formData == old(formData) && submitted == old(submitted) && isSubmitting == old(isSubmitting)
      ensures accepted ==>
        && storage.feedback == old(storage.feedback) + [Stamp(old(formData), id, submittedAt)]
        && submitted && formData == EmptyForm && !isSubmitting
    {
      if !formData.Complete() {
        return false;
      }
      isSubmitting := true;
      var entry := Stamp(formData, id, submittedAt);
      storage.feedback := storage.feedback + [entry];
      submitted := true;
      formData := EmptyForm;
      isSubmitting := false;
      accepted := true;
    }

    /** The timer four seconds after a success hides the thank-you note. */
    method HideThanks()
      modifies this`submitted
      ensures !submitted
    {
      submitted := false;
    }
  }
}
