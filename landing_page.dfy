/**
 * The self-contained TikTok landing page (src/tiktok-landing-download/TikTokLandingPage.tsx).
 * It carries its own copy of the lead-capture dialog and of the countdown
 * updater; the contracts below tie each copy to the shared definitions.
 */
module LandingPage {
  import opened Wrappers
  import opened Leads
  import opened Browser
  import opened EmailJs
  import Countdown

  /**
   * The file's inner `LeadCapturePopup`: the same handlers as the standalone
   * dialog, so its contracts are stated with the same validation chain and payload.
   */
  class LeadCapturePopup {
    const parent: ParentWindow
    var showForm: bool
    var name: string
    var phone: string
    var email: string
    var isLoading: bool

    /** The copy as first rendered: teaser shown, empty fields, nothing in flight. */
    constructor (parent: ParentWindow)
      ensures this.parent == parent
      ensures !showForm && name == "" && phone == "" && email == "" && !isLoading
    {
      this.parent := parent;
      showForm, name, phone, email, isLoading := false, "", "", "", false;
    }

    /** `handleGetDiscount`: the teaser button reveals the form. */
    method GetDiscount()
      modifies this
      ensures showForm
      ensures name == old(name) && phone == old(phone) && email == old(email) && isLoading == old(isLoading)
    {
      showForm := true;
    }

    /** An input's `onChange`; the inputs are disabled while a send is in flight. */
    method Edit(field: Field, value: string)
      requires !isLoading
      modifies this
      ensures name == (if field == NameField then value else old(name))
      ensures phone == (if field == PhoneField then value else old(phone))
      ensures email == (if field == EmailField then value else old(email))
      ensures showForm == old(showForm) && !isLoading
    {
      match field
      case NameField => name := value;
      case PhoneField => phone := value;
      case EmailField => email := value;
    }

    /**
     * `handleSubmit` up to the `await`: name, then phone, then email; the first
     * failure is toasted and returns with nothing sent and `isLoading` untouched.
     * Otherwise `isLoading` is set and the payload, labelled "TikTok Discount",
     * goes to EmailJS. The submit button is disabled while a send is in flight.
     */
    method Submit() returns (notice: Option<Notice>, request: Option<Payload>)
      requires !isLoading
      modifies this
      ensures name == old(name) && phone == old(phone) && email == old(email) && showForm == old(showForm)
      ensures ClientValidate(name, phone, email).Fail? ==>
                notice == Some(Rejected(ClientValidate(name, phone, email).error)) && request == None && !isLoading
      ensures ClientValidate(name, phone, email) == Pass ==>
                notice == None && request == Some(LeadPayload(name, phone, email, TikTokCampaign)) && isLoading
    {
      if Text.Trim(name) == "" {
        return Some(Rejected(NameRequired)), None;
      }
      if Text.Trim(phone) == "" || |phone| < 10 {
        return Some(Rejected(PhoneInvalid)), None;
      }
      if email == "" || !IsEmailShaped(email) {
        return Some(Rejected(EmailInvalid)), None;
      }
      isLoading := true;
      var whatsappLink := WhatsAppPrefix + Text.DigitsOnly(phone);
      notice, request := None, Some(Payload(name, phone, email, TikTokCampaign, whatsappLink));
    }

    /**
     * The rest of `handleSubmit` once the send settles: on success a toast and
     * `onClose`; on a throw only the failure toast. `isLoading` ends false either way.
     */
    method SendSettled(outcome: SendOutcome) returns (notice: Notice, onCloseCalled: bool)
      requires isLoading
      modifies this
      ensures notice == SettledNotice(outcome) && onCloseCalled == outcome.Delivered?
      ensures !isLoading
      ensures name == old(name) && phone == old(phone) && email == old(email) && showForm == old(showForm)
    {
      match outcome {
        case Delivered =>
          notice := Succeeded;
          onCloseCalled := true;
        case Threw(_) =>
          notice := Failed;
          onCloseCalled := false;
      }
      isLoading := false;
    }

    /** `handleClose`: tells the embedding frame the dialog closed, then calls `onClose`. */
    method Close() returns (onCloseCalled: bool)
      modifies parent
      ensures parent.received == old(parent.received) + [PopupClosed]
      ensures onCloseCalled
    {
      parent.PostMessage(PopupClosed);
      onCloseCalled := true;
    }
  }

  class TikTokLandingPage {
    const parent: ParentWindow
    var timeLeft: Countdown.Time
    var showPopup: bool
    /** The mounted inner dialog, present exactly while `showPopup` holds. */
    var popup: LeadCapturePopup?

    predicate Valid()
      reads this
    {
      Countdown.Displayable(timeLeft) &&
      (showPopup <==> popup != null) &&
      (popup != null ==> popup.parent == parent)
    }

    /** The first render: 2:00:00 and no dialog. */
    constructor (parent: ParentWindow)
      ensures this.parent == parent && timeLeft == Countdown.Start && !showPopup && popup == null
      ensures Valid()
    {
      this.parent := parent;
      timeLeft, showPopup, popup := Countdown.Time(2, 0, 0), false, null;
    }

    /**
     * One firing of this page's own interval updater. Its arithmetic is written
     * out here as the page writes it, and agrees with the shared tick.
     */
    method IntervalTick()
      requires Valid()
      modifies this
      ensures Valid()
      ensures timeLeft == Countdown.Tick(old(timeLeft))
      ensures showPopup == old(showPopup) && popup == old(popup)
    {
      var prev := timeLeft;
      var totalSeconds := prev.hours * 3600 + prev.minutes * 60 + prev.seconds - 1;
      if totalSeconds <= 0 {
        timeLeft := Countdown.Time(2, 0, 0);
      } else {
        timeLeft := Countdown.Time(totalSeconds / 3600, (totalSeconds % 3600) / 60, totalSeconds % 60);
      }
      Countdown.TickKeepsDisplayable(prev);
    }

    /** `handleGetDiscountClick`: shows the dialog, mounting a fresh one if none is showing. */
    method GetDiscountClick()
      requires Valid()
      modifies this
      ensures Valid() && showPopup && timeLeft == old(timeLeft)
      ensures old(popup) != null ==> popup == old(popup)
      ensures old(popup) == null ==>
                fresh(popup) && !popup.showForm && !popup.isLoading &&
                popup.name == "" && popup.phone == "" && popup.email == ""
    {
      if !showPopup {
        showPopup := true;
        popup := new LeadCapturePopup(parent);
      }
    }

    /** The dialog's close button: it posts its notification, and its `onClose` unmounts it. */
    method ClosePopup()
      requires Valid() && showPopup
      modifies this, parent
      ensures Valid() && !showPopup && timeLeft == old(timeLeft)
      ensures parent.received == old(parent.received) + [PopupClosed]
    {
      var onCloseCalled := popup.Close();
      if onCloseCalled {
        showPopup, popup := false, null;
      }
    }

    /** The dialog's send settles: a delivery unmounts it, a throw leaves it mounted and idle. */
    method PopupSendSettled(outcome: SendOutcome) returns (notice: Notice)
      requires Valid() && showPopup && popup.isLoading
      modifies this, popup
      ensures Valid() && notice == SettledNotice(outcome) && timeLeft == old(timeLeft)
      ensures outcome.Delivered? ==> !showPopup
      ensures outcome.Threw? ==> showPopup && popup == old(popup) && !popup.isLoading
      ensures outcome.Threw? ==>
                popup.name == old(popup.name) && popup.phone == old(popup.phone) &&
                popup.email == old(popup.email) && popup.showForm == old(popup.showForm)
    {
      var onCloseCalled;
      notice, onCloseCalled := popup.SendSettled(outcome);
      if onCloseCalled {
        showPopup, popup := false, null;
      }
    }
  }
}
