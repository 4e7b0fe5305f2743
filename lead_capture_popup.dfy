/**
 * The TikTok page's lead-capture dialog (src/components/LeadCapturePopup.tsx):
 * a teaser that opens a form, the form's validation chain, the EmailJS send and
 * the close button. The `onClose` callback is reported as a returned flag.
 */
module LeadCapture {
  import opened Wrappers
  import opened Leads
  import opened Browser
  import opened EmailJs

  class LeadCapturePopup {
    const parent: ParentWindow
    var showForm: bool
    var name: string
    var phone: string
    var email: string
    var isLoading: bool

    /** The dialog as first rendered: teaser shown, empty fields, nothing in flight. */
    constructor (parent: ParentWindow)
      ensures this.parent == parent
      ensures !showForm && name == "" && phone == "" && email == "" && !isLoading
    {
      this.parent := parent;
      showForm, name, phone, email, isLoading := false, "", "", "", false;
    }

    /** `handleGetDiscount`: the teaser button reveals the form. */
    method GetDiscount()
      modifies this
      ensures showForm
      ensures name == old(name) && phone == old(phone) && email == old(email) && isLoading == old(isLoading)
    {
      showForm := true;
    }

    /** An input's `onChange`; the inputs are disabled while a send is in flight. */
    method Edit(field: Field, value: string)
      requires !isLoading
      modifies this
      ensures name == (if field == NameField then value else old(name))
      ensures phone == (if field == PhoneField then value else old(phone))
      ensures email == (if field == EmailField then value else old(email))
      ensures showForm == old(showForm) && !isLoading
    {
      match field
      case NameField => name := value;
      case PhoneField => phone := value;
      case EmailField => email := value;
    }

    /**
     * `handleSubmit` up to the `await`: name, then phone, then email; the first
     * failure is toasted and returns with nothing sent and `isLoading` untouched.
     * Otherwise `isLoading` is set and the payload, labelled "TikTok Discount",
     * goes to EmailJS. The submit button is disabled while a send is in flight.
     */
    method Submit() returns (notice: Option<Notice>, request: Option<Payload>)
      requires !isLoading
      modifies this
      ensures name == old(name) && phone == old(phone) && email == old(email) && showForm == old(showForm)
      ensures ClientValidate(name, phone, email).Fail? ==>
                notice == Some(Rejected(ClientValidate(name, phone, email).error)) && request == None && !isLoading
      ensures ClientValidate(name, phone, email) == Pass ==>
                notice == None && request == Some(LeadPayload(name, phone, email, TikTokCampaign)) && isLoading
    {
      if Text.Trim(name) == "" {
        return Some(Rejected(NameRequired)), None;
      }
      if Text.Trim(phone) == "" || |phone| < 10 {
        return Some(Rejected(PhoneInvalid)), None;
      }
      if email == "" || !IsEmailShaped(email) {
        return Some(Rejected(EmailInvalid)), None;
      }
      isLoading := true;
      var whatsappLink := WhatsAppPrefix + Text.DigitsOnly(phone);
      notice, request := None, Some(Payload(name, phone, email, TikTokCampaign, whatsappLink));
    }

    /**
     * The rest of `handleSubmit` once the send settles: on success a toast and
     * `onClose`; on a throw only the failure toast. `isLoading` ends false either way.
     */
    method SendSettled(outcome: SendOutcome) returns (notice: Notice, onCloseCalled: bool)
      requires isLoading
      modifies this
      ensures notice == SettledNotice(outcome) && onCloseCalled == outcome.Delivered?
      ensures !isLoading
      ensures name == old(name) && phone == old(phone) && email == old(email) && showForm == old(showForm)
    {
      match outcome {
        case Delivered =>
          notice := Succeeded;
          onCloseCalled := true;
        case Threw(_) =>
          notice := Failed;
          onCloseCalled := false;
      }
      isLoading := false;
    }

    /** `handleClose`: tells the embedding frame the dialog closed, then calls `onClose`. */
    method Close() returns (onCloseCalled: bool)
      modifies parent
      ensures parent.received == old(parent.received) + [PopupClosed]
      ensures onCloseCalled
    {
      parent.PostMessage(PopupClosed);
      onCloseCalled := true;
    }
  }
}
