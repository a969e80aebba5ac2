/**
 * The site-feedback form shared by the feedback page, the home-page section and the landing page:
 * four text fields, a completeness test and the entry a submission stores under `feedback`.
 */
module SiteFeedback {
  import opened Storage

  /** The names `handleChange` / `handleFeedbackChange` are called with. */
  datatype FeedbackField = FullName | Email | Category | Message

  /** The form state `{fullName, email, category, message}`. */
  datatype SiteForm = SiteForm(fullName: string, email: string, category: string, message: string) {
    function Get(field: FeedbackField): string {
      match field
      case FullName => fullName
      case Email => email
      case Category => category
      case Message => message
    }

    /** `{...form, [field]: value}`: the named field takes the value and no other field changes. */
    function With(field: FeedbackField, value: string): (r: SiteForm)
      ensures r.Get(field) == value
      ensures forall other :: other != field ==> r.Get(other) == Get(other)
    {
      match field
      case FullName => this.(fullName := value)
      case Email => this.(email := value)
      case Category => this.(category := value)
      case Message => this.(message := value)
    }

    /** The submit handlers' test: name, email and message are non-empty; the category is never checked. */
    predicate Complete() {
      fullName != "" && email != "" && message != ""
    }
  }

  /** The initial form, and the form every reset restores. */
  const EmptyForm := SiteForm("", "", "General Feedback", "")

  /** The form fields an entry was built from. */
  function FormOf(e: FeedbackEntry): SiteForm {
    SiteForm(e.fullName, e.email, e.category, e.message)
  }

  /** The stored entry: the form's fields, the id taken from the clock and the submission time. */
  function Stamp(form: SiteForm, id: string, submittedAt: string): (e: FeedbackEntry)
    ensures FormOf(e) == form
    ensures e.id == id && e.submittedAt == submittedAt
  {
    FeedbackEntry(id, form.fullName, form.email, form.category, form.message, submittedAt)
  }

  /** The category is never checked: changing it never changes whether a form is accepted, while
   *  clearing any of the three other fields always makes it refused. */
  lemma CategoryNeverBlocks(form: SiteForm, value: string, field: FeedbackField)
    ensures form.With(Category, value).Complete() == form.Complete()
    ensures field != Category ==> !form.With(field, "").Complete()
  {
    var r := form.With(field, "");
    assert r.fullName == r.Get(FullName) && r.email == r.Get(Email) && r.message == r.Get(Message);
    var c := form.With(Category, value);
    assert c.fullName == c.Get(FullName) && c.email == c.Get(Email) && c.message == c.Get(Message);
  }

  /** A reset form is refused: submitting twice without typing stores one entry. */
  lemma ResetFormIsRefused()
    ensures !EmptyForm.Complete()
    ensures EmptyForm.Get(Category) == "General Feedback"
  {
  }
}
