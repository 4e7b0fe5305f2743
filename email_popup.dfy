/**
 * The embeddable email popup (src/components/EmailPopup.tsx): a dialog that a
 * timer opens once per variant, remembered through a `localStorage` flag, with
 * the same lead form as the TikTok dialog.
 */
module Popup {
  import opened Wrappers
  import opened Leads
  import opened Browser
  import opened EmailJs

  datatype Variant = Discount | Valentine

  /** The variant's prop value, which also names its storage key. */
  function VariantName(v: Variant): string {
    match v
    case Discount => "discount"
    case Valentine => "valentine"
  }

  const DefaultVariant := Discount
  const DefaultDelayMs := 3000

  const SeenKeyPrefix := "hema-popup-"

  /** The `localStorage` key that records that a variant's popup was closed. */
  function SeenKey(v: Variant): (k: string)
    ensures |SeenKeyPrefix| < |k| && k[..|SeenKeyPrefix|] == SeenKeyPrefix
    ensures k[|SeenKeyPrefix|..] == VariantName(v)
  {
    SeenKeyPrefix + VariantName(v)
  }

  /** The two variants have their own flags. */
  lemma SeenKeysDistinct(v: Variant, w: Variant)
    ensures SeenKey(v) == SeenKey(w) <==> v == w
  {
    if v != w {
      assert SeenKey(v)[|SeenKeyPrefix|] != SeenKey(w)[|SeenKeyPrefix|];
    }
  }

  /** The literal keys the demo page removes are the two variants' keys. */
  lemma SeenKeyLiterals()
    ensures SeenKey(Discount) == "hema-popup-discount"
    ensures SeenKey(Valentine) == "hema-popup-valentine"
  {
  }

  /** JavaScript truthiness of a `getItem` result: null and "" are falsy. */
  predicate Truthy(item: Option<string>) {
    item.Some? && item.value != ""
  }

  /** Whether the stored items say the variant's popup was already seen. */
  predicate HasSeen(items: map<string, string>, v: Variant) {
    SeenKey(v) in items && items[SeenKey(v)] != ""
  }

  /** The campaign label the popup sends for each variant. */
  function CampaignLabel(v: Variant): (l: string)
    ensures v == Valentine ==> l == "Valentine Early Access"
    ensures v != Valentine ==> l == "Website Discount"
  {
    if v == Valentine then "Valentine Early Access" else "Website Discount"
  }

  // --- the flag across visits --------------------------------------------------

  /**
   * What can happen to the stored items between two mounts: a popup of some
   * variant is closed, which writes its flag, or a page removes a key, as the
   * demo page's reset buttons and the embed page do.
   */
  datatype StoreOp = MarkSeen(variant: Variant) | ClearKey(key: string)

  function Apply(items: map<string, string>, op: StoreOp): (after: map<string, string>)
    ensures op.MarkSeen? ==> after == items[SeenKey(op.variant) := "true"]
    ensures op.ClearKey? ==> after == items - {op.key}
  {
    match op
    case MarkSeen(v) => items[SeenKey(v) := "true"]
    case ClearKey(k) => items - {k}
  }

  function ApplyAll(items: map<string, string>, ops: seq<StoreOp>): map<string, string>
    decreases |ops|
  {
    if ops == [] then items else ApplyAll(Apply(items, ops[0]), ops[1..])
  }

  /** Closing a popup marks its variant as seen. */
  lemma MarkSeenSets(items: map<string, string>, v: Variant)
    ensures HasSeen(Apply(items, MarkSeen(v)), v)
  {
  }

  /** Removing the key makes the variant unseen again. */
  lemma ClearKeyResets(items: map<string, string>, v: Variant)
    ensures !HasSeen(Apply(items, ClearKey(SeenKey(v))), v)
  {
  }

  /** Nothing but removing its own key forgets that a variant was seen. */
  lemma {:induction false} SeenPersists(items: map<string, string>, ops: seq<StoreOp>, v: Variant)
    requires HasSeen(items, v)
    requires forall i :: 0 <= i < |ops| ==> ops[i] != ClearKey(SeenKey(v))
    ensures HasSeen(ApplyAll(items, ops), v)
    decreases |ops|
  {
    if ops != [] {
      var after := Apply(items, ops[0]);
      if ops[0].MarkSeen? {
        SeenKeysDistinct(ops[0].variant, v);
      }
      assert HasSeen(after, v);
      SeenPersists(after, ops[1..], v);
    }
  }

  /** Closing one variant's popup leaves the other variant's flag as it was. */
  lemma MarkSeenIsolated(items: map<string, string>, v: Variant, w: Variant)
    requires v != w
    ensures HasSeen(Apply(items, MarkSeen(v)), w) == HasSeen(items, w)
  {
    SeenKeysDistinct(v, w);
  }

  // --- one mount of the component ------------------------------------------------

  class EmailPopup {
    const variant: Variant
    const delayMs: int
    /** Whether the host passed an `onClose` callback. */
    const hasOnClose: bool
    const storage: LocalStorage
    const parent: ParentWindow

    var isOpen: bool
    var showForm: bool
    var name: string
    var phone: string
    var email: string
    var isLoading: bool
    /** The mount effect's `setTimeout` has been scheduled and neither fired nor been cleared. */
    var timerPending: bool

    /** While the timer is pending the dialog is closed, and a send is only in flight from the open form. */
    predicate Valid()
      reads this
    {
      (timerPending ==> !isOpen && !showForm && !isLoading) &&
      (isLoading ==> showForm)
    }

    /**
     * Mounting: the props fall back to "discount" and 3000 ms, everything
     * starts closed and empty, and the effect schedules the timer.
     */
    constructor Mount(variant: Option<Variant>, delayMs: Option<int>, hasOnClose: bool,
                      storage: LocalStorage, parent: ParentWindow)
      ensures this.variant == (if variant.Some? then variant.value else DefaultVariant)
      ensures this.delayMs == (if delayMs.Some? then delayMs.value else DefaultDelayMs)
      ensures this.hasOnClose == hasOnClose && this.storage == storage && this.parent == parent
      ensures !isOpen && !showForm && name == "" && phone == "" && email == "" && !isLoading
      ensures timerPending
      ensures Valid()
    {
      this.variant := if variant.Some? then variant.value else DefaultVariant;
      this.delayMs := if delayMs.Some? then delayMs.value else DefaultDelayMs;
      this.hasOnClose := hasOnClose;
      this.storage := storage;
      this.parent := parent;
      isOpen, showForm, name, phone, email, isLoading := false, false, "", "", "", false;
      timerPending := true;
    }

    /**
     * The timer callback. It fires only while scheduled; it then opens the
     * dialog and posts "hema-popup-active" exactly when the variant's flag is
     * not truthy. It reads the store and never writes it.
     */
    method TimerFire()
      requires Valid()
      modifies this, parent
      ensures Valid() && !timerPending
      ensures old(timerPending) && !HasSeen(storage.items, variant) ==>
                isOpen && parent.received == old(parent.received) + [PopupActive]
      ensures !(old(timerPending) && !HasSeen(storage.items, variant)) ==>
                isOpen == old(isOpen) && parent.received == old(parent.received)
      ensures showForm == old(showForm) && isLoading == old(isLoading)
      ensures name == old(name) && phone == old(phone) && email == old(email)
      ensures storage.items == old(storage.items)
    {
      if timerPending {
        timerPending := false;
        var hasSeenPopup := storage.GetItem(SeenKey(variant));
        if !Truthy(hasSeenPopup) {
          isOpen := true;
          parent.PostMessage(PopupActive);
        }
      }
    }

    /** The effect's cleanup: the timer is cleared, so it never fires. */
    method Unmount()
      requires Valid()
      modifies this
      ensures Valid() && !timerPending
      ensures isOpen == old(isOpen) && showForm == old(showForm) && isLoading == old(isLoading)
      ensures name == old(name) && phone == old(phone) && email == old(email)
    {
      timerPending := false;
    }

    /** `handleGetDiscount`: the dialog's button reveals the form. */
    method GetDiscount()
      requires Valid() && isOpen
      modifies this
      ensures Valid() && showForm
      ensures isOpen == old(isOpen) && isLoading == old(isLoading) && timerPending == old(timerPending)
      ensures name == old(name) && phone == old(phone) && email == old(email)
    {
      showForm := true;
    }

    /** An input's `onChange`; the inputs are disabled while a send is in flight. */
    method Edit(field: Field, value: string)
      requires Valid() && !isLoading
      modifies this
      ensures Valid()
      ensures name == (if field == NameField then value else old(name))
      ensures phone == (if field == PhoneField then value else old(phone))
      ensures email == (if field == EmailField then value else old(email))
      ensures isOpen == old(isOpen) && showForm == old(showForm) && !isLoading && timerPending == old(timerPending)
    {
      match field {
        case NameField => name := value;
        case PhoneField => phone := value;
        case EmailField => email := value;
      }
    }

    /**
     * `handleSubmit` up to the `await`: the same chain as the TikTok dialog, so
     * a failure toasts the first failed rule and sends nothing; otherwise
     * `isLoading` is set and the payload carries the variant's campaign label.
     */
    method Submit() returns (notice: Option<Notice>, request: Option<Payload>)
      requires Valid() && showForm && !isLoading
      modifies this
      ensures Valid()
      ensures name == old(name) && phone == old(phone) && email == old(email)
      ensures isOpen == old(isOpen) && showForm == old(showForm) && timerPending == old(timerPending)
      ensures ClientValidate(name, phone, email).Fail? ==>
                notice == Some(Rejected(ClientValidate(name, phone, email).error)) && request == None && !isLoading
      ensures ClientValidate(name, phone, email) == Pass ==>
                notice == None && request == Some(LeadPayload(name, phone, email, CampaignLabel(variant))) && isLoading
    {
      if Text.Trim(name) == "" {
        return Some(Rejected(NameRequired)), None;
      }
      if Text.Trim(phone) == "" || |phone| < 10 {
        return Some(Rejected(PhoneInvalid)), None;
      }
      if email == "" || !IsEmailShaped(email) {
        return Some(Rejected(EmailInvalid)), None;
      }
      isLoading := true;
      var campaignLabel := if variant == Valentine then "Valentine Early Access" else "Website Discount";
      var whatsappLink := WhatsAppPrefix + Text.DigitsOnly(phone);
      notice, request := None, Some(Payload(name, phone, email, campaignLabel, whatsappLink));
    }

    /**
     * The rest of `handleSubmit`: a resolved send toasts and goes through
     * `handleClose`, so the flag is written; a throw toasts the failure and
     * leaves the dialog, the store and the frame alone. `isLoading` ends false.
     */
    method SendSettled(outcome: SendOutcome) returns (notice: Notice, onCloseCalled: bool)
      requires Valid() && isLoading
      modifies this, storage, parent
      ensures Valid() && !isLoading && notice == SettledNotice(outcome)
      ensures outcome.Delivered? ==>
                !isOpen && storage.items == old(storage.items)[SeenKey(variant) := "true"] &&
                parent.received == old(parent.received) + [PopupClosed] && onCloseCalled == hasOnClose
      ensures outcome.Threw? ==>
                isOpen == old(isOpen) && storage.items == old(storage.items) &&
                parent.received == old(parent.received) && !onCloseCalled
      ensures showForm == old(showForm) && timerPending == old(timerPending)
      ensures name == old(name) && phone == old(phone) && email == old(email)
    {
      if outcome.Delivered? {
        notice := Succeeded;
        onCloseCalled := Close();
      } else {
        notice := Failed;
        onCloseCalled := false;
      }
      isLoading := false;
    }

    /**
     * `handleClose`: closes the dialog, writes "true" under the variant's key
     * and nowhere else, posts "hema-popup-closed", then calls `onClose` if given.
     */
    method Close() returns (onCloseCalled: bool)
      requires Valid()
      modifies this, storage, parent
      ensures Valid() && !isOpen
      ensures storage.items == old(storage.items)[SeenKey(variant) := "true"]
      ensures HasSeen(storage.items, variant)
      ensures parent.received == old(parent.received) + [PopupClosed]
      ensures onCloseCalled == hasOnClose
      ensures showForm == old(showForm) && isLoading == old(isLoading) && timerPending == old(timerPending)
      ensures name == old(name) && phone == old(phone) && email == old(email)
    {
      isOpen := false;
      storage.SetItem(SeenKey(variant), "true");
      parent.PostMessage(PopupClosed);
      onCloseCalled := hasOnClose;
    }
  }

  /**
   * A visitor sees the popup, closes it, and comes back: the second mount of
   * the same variant over the same store stays closed and posts nothing.
   */
  method ReturnVisit(storage: LocalStorage, parent: ParentWindow, v: Variant)
    requires !HasSeen(storage.items, v)
    modifies storage, parent
    ensures HasSeen(storage.items, v)
    ensures parent.received == old(parent.received) + [PopupActive, PopupClosed]
  {
    var first := new EmailPopup.Mount(Some(v), None, false, storage, parent);
    first.TimerFire();
    var _ := first.Close();
    var second := new EmailPopup.Mount(Some(v), None, false, storage, parent);
    second.TimerFire();
    assert !second.isOpen;
  }

  /** A visitor leaves before the delay is up: the cleared timer never opens the dialog or posts anything. */
  method LeaveBeforeDelay(storage: LocalStorage, parent: ParentWindow, v: Variant)
    modifies parent
    ensures parent.received == old(parent.received)
  {
    var popup := new EmailPopup.Mount(Some(v), None, false, storage, parent);
    popup.Unmount();
    popup.TimerFire();
    assert !popup.isOpen;
  }

  /**
   * The demo page's preview button: it removes the variant's flag and mounts a
   * popup with no delay and an `onClose`, which then opens whatever was stored
   * before. The scenario assumes the preview was not already showing, so the
   * click mounts a fresh popup.
   */
  method PreviewAfterReset(storage: LocalStorage, parent: ParentWindow, v: Variant)
    modifies storage, parent
    ensures storage.items == old(storage.items) - {SeenKey(v)}
    ensures parent.received == old(parent.received) + [PopupActive]
  {
    storage.RemoveItem(SeenKey(v));
    var popup := new EmailPopup.Mount(Some(v), Some(0), true, storage, parent);
    popup.TimerFire();
    assert popup.isOpen;
  }
}
