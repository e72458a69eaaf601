/**
 * The contact form: seven text fields, a submission status that goes idle -> sending ->
 * success or error -> idle, the submit button's label and disabled state, and the
 * dispatch of the four "other ways to reach us" cards.
 *
 * The submission's 2 s wait and the 3 s reset timers are not clocks here: a pending
 * submission settles when `Settle` is called, and a pending reset fires when
 * `ResetFires` is called. The handler never actually fails (its wait always resolves),
 * but its error branch is kept: whether the submission is rejected is an input.
 */
module Contact {
  import opened Wrappers

  datatype Status = Idle | Sending | Success | Error

  /** The names of the form's fields. */
  const FieldNames: seq<string> := ["name", "email", "company", "phone", "projectType", "quantity", "message"]

  /** The form's contents, by field name. */
  type Form = map<string, string>

  /** The fields marked `required`: the browser submits the form only when none of them is empty. */
  const RequiredFields: seq<string> := ["name", "email", "projectType", "message"]

  /** Every required field is present and non-empty. */
  predicate RequiredFilled(form: Form) {
    forall k :: k in RequiredFields ==> k in form && form[k] != ""
  }

  /** The form as first rendered and as reset after a successful submission: every field empty. */
  function EmptyForm(): (f: Form)
    ensures f.Keys == set k | k in FieldNames
    ensures forall k :: k in f ==> f[k] == ""
  {
    map k | k in FieldNames :: ""
  }

  /** `handleInputChange`: the record with the named field replaced. */
  function WithField(form: Form, name: string, value: string): (r: Form)
    ensures r.Keys == form.Keys + {name}
    ensures r[name] == value
    ensures forall k :: k in form && k != name ==> r[k] == form[k]
  {
    form[name := value]
  }

  /** An edit leaves the set of fields as it is whenever the edited input is one of the form's fields. */
  lemma EditKeepsFields(form: Form, name: string, value: string)
    requires form.Keys == set k | k in FieldNames
    requires name in FieldNames
    ensures WithField(form, name, value).Keys == form.Keys
  {
  }

  /** The submit button's text for each status. */
  function ButtonLabel(s: Status): string {
    match s
    case Sending => "Sending..."
    case Success => "Message Sent!"
    case Error => "Try Again"
    case Idle => "Get Your Quote"
  }

  /** The submit button is disabled exactly while a submission is being sent. */
  function ButtonDisabled(s: Status): bool {
    s == Sending
  }

  /** The button is disabled exactly when it reads "Sending...". */
  lemma DisabledExactlyWhenLabelSending(s: Status)
    ensures ButtonDisabled(s) <==> ButtonLabel(s) == "Sending..."
  {
    if s != Sending {
      assert ButtonLabel(s)[0] != 'S' || |ButtonLabel(s)| != |"Sending..."|;
    }
  }

  /** Every status shows its own label, so the label tells the status apart. */
  lemma ButtonLabelsDistinct(a: Status, b: Status)
    ensures ButtonLabel(a) == ButtonLabel(b) <==> a == b
  {
    if a != b {
      assert ButtonLabel(a)[0] != ButtonLabel(b)[0] || |ButtonLabel(a)| != |ButtonLabel(b)|;
    }
  }

  /** The form's state. */
  class ContactForm {
    var formData: Form
    var status: Status
    /** Submissions started and not yet settled. */
    var inFlight: nat
    /** 3 s reset timers scheduled and not yet fired. */
    var pendingResets: nat

    /**
     * A status of sending has a submission behind it, and a status of success or error has
     * a reset to idle scheduled behind it.
     */
    ghost predicate Valid()
      reads this
    {
      && (status == Sending ==> inFlight > 0)
      && (status == Success || status == Error ==> pendingResets > 0)
    }

    constructor ()
      ensures Valid()
      ensures formData == EmptyForm() && status == Idle
      ensures inFlight == 0 && pendingResets == 0
    {
      formData := EmptyForm();
      status := Idle;
      inFlight := 0;
      pendingResets := 0;
    }

    /** A keystroke in the field called `name`. */
    method InputChange(name: string, value: string)
      modifies this
      ensures formData == WithField(old(formData), name, value)
      ensures status == old(status) && inFlight == old(inFlight) && pendingResets == old(pendingResets)
    {
      formData := formData[name := value];
    }

    /**
     * Submitting, which the disabled button rules out while a submission is being sent,
     * and the browser rules out while a required field is empty.
     */
    method Submit()
      requires Valid()
      requires !ButtonDisabled(status)
      requires RequiredFilled(formData)
      modifies this
      ensures Valid()
      ensures status == Sending && ButtonDisabled(status)
      ensures inFlight == old(inFlight) + 1
      ensures formData == old(formData) && pendingResets == old(pendingResets)
    {
      status := Sending;
      inFlight := inFlight + 1;
    }

    /**
     * The oldest submission settles: on success the status is success and every field is
     * emptied; on failure the status is error and the fields are kept. Either way a reset to
     * idle is scheduled.
     */
    method Settle(rejected: bool)
      requires Valid()
      requires inFlight > 0
      modifies this
      ensures Valid()
      ensures !rejected ==> status == Success && formData == EmptyForm()
      ensures rejected ==> status == Error && formData == old(formData)
      ensures inFlight == old(inFlight) - 1
      ensures pendingResets == old(pendingResets) + 1
    {
      if rejected {
        status := Error;
      } else {
        status := Success;
        formData := EmptyForm();
      }
      inFlight := inFlight - 1;
      pendingResets := pendingResets + 1;
    }

    /** A scheduled reset fires: the status goes back to idle, whatever it was. */
    method ResetFires()
      requires Valid()
      requires pendingResets > 0
      modifies this
      ensures Valid()
      ensures status == Idle
      ensures pendingResets == old(pendingResets) - 1
      ensures formData == old(formData) && inFlight == old(inFlight)
    {
      status := Idle;
      pendingResets := pendingResets - 1;
    }
  }

  /** Under the invariant, a disabled button always has a submission in flight behind it. */
  lemma DisabledMeansInFlight(f: ContactForm)
    requires f.Valid()
    ensures ButtonDisabled(f.status) ==> f.inFlight > 0
  {
  }

  /** The visitor types the four required fields. */
  method FillRequired(f: ContactForm)
    modifies f
    ensures RequiredFilled(f.formData)
    ensures f.status == old(f.status) && f.inFlight == old(f.inFlight) && f.pendingResets == old(f.pendingResets)
  {
    f.InputChange("name", "Ayesha");
    f.InputChange("email", "ayesha@example.com");
    f.InputChange("projectType", "Rigid Gift Boxes");
    f.InputChange("message", "Quote for 500 boxes");
  }

  /**
   * A reset left over from an earlier submission fires while a later one is being sent:
   * the status drops to idle and the button is enabled again although the later submission
   * has not settled.
   */
  method StaleResetDuringSending() returns (f: ContactForm)
    ensures f.Valid()
    ensures f.status == Idle && !ButtonDisabled(f.status)
    ensures f.inFlight == 1
  {
    f := new ContactForm();
    FillRequired(f);
    f.Submit();
    f.Settle(false);
    // the success emptied the form; the second submission needs the required fields retyped
    FillRequired(f);
    f.Submit();
    f.ResetFires();
  }

  /** Where a contact card sends the visitor: a new tab, or the current one. */
  datatype Target = NewTab(url: string) | SameTab(url: string)

  /** `handleContactAction`: the target of each of the four cards; any other id does nothing. */
  function ContactAction(id: int): (t: Option<Target>)
    ensures t.Some? <==> 1 <= id <= 4
    ensures t.Some? ==> (t.value.NewTab? <==> id == 1 || id == 4)
  {
    match id
    case 1 => Some(NewTab("https://maps.google.com/?q=Lahore+Pakistan"))
    case 2 => Some(SameTab("mailto:Xlimboxes@gmail.com"))
    case 3 => Some(SameTab("tel:03704133315"))
    case 4 => Some(NewTab("https://wa.me/923704133315"))
    case _ => None
  }

  /** The four cards open a map, an e-mail, a phone call and a WhatsApp chat, in that order. */
  lemma ContactActionSchemes(id: int)
    requires 1 <= id <= 4
    ensures id == 1 ==> "https://maps.google.com/" <= ContactAction(id).value.url
    ensures id == 2 ==> "mailto:" <= ContactAction(id).value.url
    ensures id == 3 ==> "tel:" <= ContactAction(id).value.url
    ensures id == 4 ==> "https://wa.me/" <= ContactAction(id).value.url
  {
  }
}
