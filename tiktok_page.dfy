/**
 * The TikTok landing page (src/pages/TikTok.tsx): a countdown ticking once a
 * second, and a get-discount button that mounts the lead-capture dialog until
 * the dialog calls `onClose`.
 */
module TikTok {
  import opened Countdown
  import opened Browser
  import opened EmailJs
  import opened LeadCapture

  class TikTokPage {
    const parent: ParentWindow
    var timeLeft: Time
    var showPopup: bool
    /** The mounted dialog, present exactly while `showPopup` holds. */
    var popup: LeadCapturePopup?

    predicate Valid()
      reads this
    {
      Displayable(timeLeft) &&
      (showPopup <==> popup != null) &&
      (popup != null ==> popup.parent == parent)
    }

    /** The first render: 2:00:00 and no dialog. */
    constructor (parent: ParentWindow)
      ensures this.parent == parent && timeLeft == Start && !showPopup && popup == null
      ensures Valid()
    {
      this.parent := parent;
      timeLeft, showPopup, popup := Start, false, null;
    }

    /** One firing of the `setInterval` callback: the updater is applied to the time left. */
    method IntervalTick()
      requires Valid()
      modifies this
      ensures Valid()
      ensures timeLeft == Tick(old(timeLeft))
      ensures showPopup == old(showPopup) && popup == old(popup)
    {
      timeLeft := Tick(timeLeft);
    }

    /**
     * `handleGetDiscountClick`: shows the dialog. A dialog already showing stays
     * as it is; otherwise a fresh one is mounted.
     */
    method GetDiscountClick()
      requires Valid()
      modifies this
      ensures Valid() && showPopup && timeLeft == old(timeLeft)
      ensures old(popup) != null ==> popup == old(popup)
      ensures old(popup) == null ==>
                fresh(popup) && !popup.showForm && !popup.isLoading &&
                popup.name == "" && popup.phone == "" && popup.email == ""
    {
      if !showPopup {
        showPopup := true;
        popup := new LeadCapturePopup(parent);
      }
    }

    /** The dialog's close button: it posts its notification, and its `onClose` unmounts it. */
    method ClosePopup()
      requires Valid() && showPopup
      modifies this, parent
      ensures Valid() && !showPopup && timeLeft == old(timeLeft)
      ensures parent.received == old(parent.received) + [PopupClosed]
    {
      var onCloseCalled := popup.Close();
      if onCloseCalled {
        showPopup, popup := false, null;
      }
    }

    /**
     * The dialog's send settles: after a delivery its `onClose` unmounts it;
     * after a throw it stays mounted, ready for another try.
     */
    method PopupSendSettled(outcome: SendOutcome) returns (notice: Notice)
      requires Valid() && showPopup && popup.isLoading
      modifies this, popup
      ensures Valid() && notice == SettledNotice(outcome) && timeLeft == old(timeLeft)
      ensures outcome.Delivered? ==> !showPopup
      ensures outcome.Threw? ==> showPopup && popup == old(popup) && !popup.isLoading
      ensures outcome.Threw? ==>
                popup.name == old(popup.name) && popup.phone == old(popup.phone) &&
                popup.email == old(popup.email) && popup.showForm == old(popup.showForm)
    {
      var onCloseCalled;
      notice, onCloseCalled := popup.SendSettled(outcome);
      if onCloseCalled {
        showPopup, popup := false, null;
      }
    }
  }
}
