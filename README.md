# HemaField lead capture, popup policy and countdown in Dafny

HemaField is a flower shop's website. Its logic, apart from page markup, is:

- **Lead forms.** Three browser dialogs collect a name, a phone number and an email address:
  - the standalone `LeadCapturePopup`;
  - the embeddable `EmailPopup`;
  - a copy of the first inside the self-contained TikTok landing page.

  Each dialog checks the fields in a fixed order, builds a `https://wa.me/` contact link from the phone's digits, and mails the lead through EmailJS.
- **Edge functions.** Two Supabase edge functions do the same on the server:
  - `submit-lead` validates a lead, upserts it into `email_subscribers` and notifies the owner;
  - `subscribe` validates an email, upserts it while tolerating duplicates, and sends a confirmation chosen by the campaign.
- **Popup visibility.** The embeddable popup opens on a timer, at most once per variant. `localStorage` remembers that it was closed, and the popup tells the embedding frame when it opens and closes.
- **Countdown.** Both TikTok pages show a countdown that ticks down once a second and restarts at 2:00:00.

The project models each of these in the form the code has:

- Validation, digit stripping, labels and the tick are functions. They carry contracts and lemmas.
- The dialogs and pages are classes whose fields are the components' state. Their event handlers are methods.
- The edge functions are methods:
  - inputs: the request, the current subscriber table, and the outcomes of the database and mail calls;
  - outputs: the response, the new table, and the email that was handed to the mail service, if any.

Modules, one file each:

| file | module | what it holds |
|---|---|---|
| `wrappers.dfy` | `Wrappers` | `Option` |
| `text.dfy` | `Text` | JavaScript `\s`, `trim`, the `\D` strip, substring search |
| `leads.dfy` | `Leads` | the field rules, first-failure chaining, the email pattern, the contact link |
| `browser.dfy` | `Browser` | the parent frame as a message log, `localStorage` as a map |
| `emailjs.dfy` | `EmailJs` | what a form sends, and the outcome of a send |
| `lead_capture_popup.dfy` | `LeadCapture` | the standalone dialog |
| `email_popup.dfy` | `Popup` | the embeddable popup, its seen-flag policy, visit scenarios |
| `countdown.dfy` | `Countdown` | the interval updater and its cycle |
| `tiktok_page.dfy` | `TikTok` | the TikTok page: countdown state and the `showPopup` toggle |
| `landing_page.dfy` | `LandingPage` | the self-contained landing page, with its own dialog and tick copies |
| `subscribers.dfy` | `Subscribers` | responses, call outcomes, the subscriber table and its upsert |
| `submit_lead.dfy` | `SubmitLead` | the `submit-lead` handler |
| `subscribe.dfy` | `Subscribe` | the `subscribe` handler |
| `agreement.dfy` | `Agreement` | how the copies in different files line up |

The client and server copies of the rules differ in one place: the phone rule. The client measures the untrimmed phone and the server the trimmed one. So every phone number the server accepts passes the client check, but not the other way round (`Leads.ClientServerDrift`). The model keeps both rules as written.

## Model

| member | source | states |
|---|---|---|
| Text.TrimStart | src/components/LeadCapturePopup.tsx:32 | the result is a suffix of the input; exactly the leading whitespace is dropped, and the result does not start with whitespace |
| Text.TrimEnd | src/components/LeadCapturePopup.tsx:41 | the result is a prefix of the input; exactly the trailing whitespace is dropped, and the result does not end with whitespace |
| Text.Trim | src/components/LeadCapturePopup.tsx:32 | the result is a contiguous slice of the input; everything outside it is whitespace, and a non-empty result starts and ends with non-whitespace |
| Text.TrimEmptyIff | src/components/LeadCapturePopup.tsx:32 | a string trims to "" exactly when every character is whitespace |
| Text.TrimPadded | src/components/LeadCapturePopup.tsx:41 | whitespace put around a string that neither starts nor ends with whitespace is exactly what `trim()` removes |
| Text.DigitsOnly | src/components/LeadCapturePopup.tsx:62 | the `\D` strip yields only ASCII digits and is no longer than the input |
| Text.DigitsOnlyCounts | src/components/LeadCapturePopup.tsx:62 | every digit occurs as often in the result as in the input |
| Text.DigitsOnlyAppend | src/components/LeadCapturePopup.tsx:62 | stripping distributes over concatenation, so the kept digits stay in their order |
| Text.DigitsOnlyFixedIff | src/components/LeadCapturePopup.tsx:62 | the strip leaves a string unchanged exactly when it is all digits |
| Text.DigitsOnlyIdempotent | src/components/LeadCapturePopup.tsx:62 | stripping twice is the same as stripping once |
| Text.StripGroup | src/test/emailjs.test.ts:27-32 | a separator followed by a group of digits strips to the group |
| Text.StripDashedNumber | src/test/emailjs.test.ts:27-32 | a "+a-b-c-d" number strips to its digit groups run together |
| Text.SeparatedNumberDigits | src/test/emailjs.test.ts:27-32 | "+234-801-234-5678" strips to "2348012345678" |
| Text.ContainsPrefix | supabase/functions/subscribe/index.ts:50 | a string contains every one of its prefixes |
| Leads.FirstFailure | src/components/LeadCapturePopup.tsx:32-57 | the chain passes exactly when every rule accepts |
| Leads.FirstFailureIsFirst | src/components/LeadCapturePopup.tsx:32-57 | a failing chain reports the error of the first rule that rejects, and every earlier rule accepted |
| Leads.EmailShapeIsRegex | src/components/LeadCapturePopup.tsx:50 | the executable email check holds exactly when the string matches `^[^\s@]+@[^\s@]+\.[^\s@]+$`, stated as a split into three non-empty runs without whitespace or '@' |
| Leads.ClientValidate | src/components/LeadCapturePopup.tsx:32-57 | name, then phone (trimmed non-empty and untrimmed length at least 10), then email; each failure is reported exactly when the earlier rules pass and its own fails, and the chain passes exactly when all three do |
| Leads.ServerValidate | supabase/functions/submit-lead/index.ts:28-48 | the same first-failure chain with the server's rules: the name is non-empty once trimmed, and the phone is non-empty with a trimmed length of at least 10 |
| Leads.NameRulesAgree | supabase/functions/submit-lead/index.ts:28 | the server's name rule accepts exactly the names the client's does |
| Leads.ServerPhoneImpliesClient | supabase/functions/submit-lead/index.ts:35 | every phone the server accepts is accepted by the client |
| Leads.PaddedPhoneSeparatesRules | supabase/functions/submit-lead/index.ts:35 | "  12345678  " passes the client's phone rule and fails the server's, so the implication is one-way |
| Leads.ClientServerDrift | supabase/functions/submit-lead/index.ts:28-48 | a lead the server accepts is accepted by the client; where the two chains disagree, the server reports the phone and the client accepted it |
| Leads.PhoneExamples | src/test/emailjs.test.ts:44-50 | "08012345678" passes the client phone rule and "0801234" fails it |
| Leads.EmailExamples | src/test/emailjs.test.ts:34-42 | "test@example.com" and "a@b.co" are accepted; "notanemail", "" and "a@b" are rejected |
| Leads.WhatsAppLink | src/components/LeadCapturePopup.tsx:62 | the link is "https://wa.me/" followed by exactly the phone's digits |
| Leads.WhatsAppLinkOfDigits | src/components/LeadCapturePopup.tsx:62 | a digit-only phone appears in the link unchanged |
| Leads.WhatsAppLinkExamples | src/test/emailjs.test.ts:20-32 | "08012345678" and "+234-801-234-5678" give the links the test expects |
| Browser.WireInjective | src/components/EmailPopup.tsx:73-84 | the two notifications go out as different strings |
| Browser.ParentWindow.PostMessage | src/components/EmailPopup.tsx:73 | a posted notification is appended to the frame's log |
| Browser.LocalStorage.SetItem | src/components/EmailPopup.tsx:82 | the key gets the value and no other key changes |
| Browser.LocalStorage.RemoveItem | src/pages/Widget.tsx:11 | the key is removed and no other key changes |
| LeadCapture.LeadCapturePopup.constructor | src/components/LeadCapturePopup.tsx:17-22 | the dialog starts with the teaser, empty fields and nothing in flight |
| LeadCapture.LeadCapturePopup.GetDiscount | src/components/LeadCapturePopup.tsx:24-26 | the form is shown and nothing else changes |
| LeadCapture.LeadCapturePopup.Edit | src/components/LeadCapturePopup.tsx:183-201 | one field takes the typed value; the others are unchanged |
| LeadCapture.LeadCapturePopup.Submit | src/components/LeadCapturePopup.tsx:28-75 | a failed check reports the client chain's first failure, sends nothing and leaves `isLoading` false; a passing form sets `isLoading` and sends name, phone and email unmodified, the label "TikTok Discount" and the phone's contact link |
| LeadCapture.LeadCapturePopup.SendSettled | src/components/LeadCapturePopup.tsx:77-92 | a delivered send toasts success and calls `onClose`; a thrown one toasts failure and does not; `isLoading` is false afterwards in both cases |
| LeadCapture.LeadCapturePopup.Close | src/components/LeadCapturePopup.tsx:95-98 | posts "hema-popup-closed" and calls `onClose`; no storage is written |
| Popup.SeenKey | src/components/EmailPopup.tsx:66 | the key is "hema-popup-" followed by exactly the variant's name |
| Popup.SeenKeyLiterals | src/components/PopupDemo.tsx:62-71 | the two keys are "hema-popup-discount" and "hema-popup-valentine", the literals the demo page removes |
| Popup.SeenKeysDistinct | src/components/EmailPopup.tsx:66 | the two variants have different keys |
| Popup.CampaignLabel | src/components/EmailPopup.tsx:126 | "valentine" gives "Valentine Early Access"; every other variant gives "Website Discount" |
| Popup.Apply | src/components/EmailPopup.tsx:82 | closing writes "true" at the variant's key; removing a key deletes exactly that key |
| Popup.MarkSeenSets | src/components/EmailPopup.tsx:82 | after a close the variant counts as seen |
| Popup.ClearKeyResets | src/components/PopupDemo.tsx:62 | after its key is removed the variant counts as unseen |
| Popup.SeenPersists | src/components/EmailPopup.tsx:66-82 | once a variant is seen, it stays seen after any mix of closes and key removals that does not remove its own key |
| Popup.MarkSeenIsolated | src/components/EmailPopup.tsx:82 | closing one variant does not change whether the other counts as seen |
| Popup.EmailPopup.Mount | src/components/EmailPopup.tsx:47-64 | the props default to "discount" and 3000 ms; the popup starts closed and empty, with its timer scheduled |
| Popup.EmailPopup.TimerFire | src/components/EmailPopup.tsx:64-75 | a pending timer opens the popup and posts "hema-popup-active" exactly when the variant's flag is not truthy; otherwise nothing changes; the store is only read |
| Popup.EmailPopup.Unmount | src/components/EmailPopup.tsx:77 | the timer is cancelled |
| Popup.EmailPopup.GetDiscount | src/components/EmailPopup.tsx:88-90 | the form is shown and nothing else changes |
| Popup.EmailPopup.Edit | src/components/EmailPopup.tsx:252-270 | one field takes the typed value; the others are unchanged |
| Popup.EmailPopup.Submit | src/components/EmailPopup.tsx:92-141 | the same chain and outcomes as the standalone dialog, with the variant's campaign label in the payload |
| Popup.EmailPopup.SendSettled | src/components/EmailPopup.tsx:143-160 | a delivered send goes through the close (popup shut, flag written, "hema-popup-closed" posted, `onClose` called if given); a thrown one leaves the popup, store and frame alone; `isLoading` is false afterwards in both cases |
| Popup.EmailPopup.Close | src/components/EmailPopup.tsx:80-86 | sets `isOpen` false, writes "true" at the variant's key and nowhere else, posts "hema-popup-closed", calls `onClose` if given |
| Popup.ReturnVisit | src/components/EmailPopup.tsx:61-86 | a popup that was shown and closed does not open on the next mount of the same variant: the frame sees exactly one "active" and one "closed" |
| Popup.LeaveBeforeDelay | src/components/EmailPopup.tsx:77 | unmounting before the delay means no open and no notification |
| Popup.PreviewAfterReset | src/components/PopupDemo.tsx:62 | after the demo removes the flag, a fresh mount with an `onClose` opens and posts "hema-popup-active" |
| Countdown.Tick | src/pages/TikTok.tsx:16-25 | a total at or below one second resets to 2:00:00; otherwise the result is canonical (minutes and seconds in [0, 59]) with one second less in total |
| Countdown.CanonicalUnique | src/pages/TikTok.tsx:21-25 | a canonical time is determined by its total seconds |
| Countdown.TickKeepsDisplayable | src/pages/TikTok.tsx:17-25 | a displayable time (canonical, 1 to 7200 seconds in total) ticks to a displayable time, so 0:00:00 never appears |
| Countdown.TickLowersByOne | src/pages/TikTok.tsx:21-25 | away from the reset, a tick takes exactly one second off |
| Countdown.LastSecondResets | src/pages/TikTok.tsx:17-20 | 0:00:01 ticks to 2:00:00 |
| Countdown.IterateFromStart | src/pages/TikTok.tsx:10-25 | after n ticks from 2:00:00 the time is displayable and shows 7200 - (n mod 7200) seconds |
| Countdown.CountdownPeriodic | src/pages/TikTok.tsx:10-25 | the countdown repeats exactly every 7200 ticks |
| TikTok.TikTokPage.constructor | src/pages/TikTok.tsx:10-11 | the page starts at 2:00:00 with no dialog |
| TikTok.TikTokPage.IntervalTick | src/pages/TikTok.tsx:14-27 | the time becomes the tick of the previous time; the countdown stays displayable; the dialog is untouched |
| TikTok.TikTokPage.GetDiscountClick | src/pages/TikTok.tsx:45-54 | the dialog is showing afterwards: the same one if it already was, otherwise a fresh one in its initial state |
| TikTok.TikTokPage.ClosePopup | src/pages/TikTok.tsx:242 | closing posts "hema-popup-closed", and `onClose` unmounts the dialog |
| TikTok.TikTokPage.PopupSendSettled | src/pages/TikTok.tsx:242 | a delivered send unmounts the dialog; after a thrown one it stays mounted and idle, with its form and entered fields as they were |
| LandingPage.LeadCapturePopup.constructor | src/tiktok-landing-download/TikTokLandingPage.tsx:165-170 | the copy starts with the teaser, empty fields and nothing in flight |
| LandingPage.LeadCapturePopup.GetDiscount | src/tiktok-landing-download/TikTokLandingPage.tsx:173-175 | the form is shown and nothing else changes |
| LandingPage.LeadCapturePopup.Edit | src/tiktok-landing-download/TikTokLandingPage.tsx:287-303 | one field takes the typed value; the others are unchanged |
| LandingPage.LeadCapturePopup.Submit | src/tiktok-landing-download/TikTokLandingPage.tsx:177-210 | the copy runs the same client chain: a failure sends nothing and leaves `isLoading` false; a pass sends the unmodified fields, "TikTok Discount" and the digits-only link |
| LandingPage.LeadCapturePopup.SendSettled | src/tiktok-landing-download/TikTokLandingPage.tsx:213-220 | success calls `onClose` and failure does not; `isLoading` is reset either way |
| LandingPage.LeadCapturePopup.Close | src/tiktok-landing-download/TikTokLandingPage.tsx:223-226 | posts "hema-popup-closed" and calls `onClose` |
| LandingPage.TikTokLandingPage.constructor | src/tiktok-landing-download/TikTokLandingPage.tsx:548-549 | the page starts at 2:00:00 with no dialog |
| LandingPage.TikTokLandingPage.IntervalTick | src/tiktok-landing-download/TikTokLandingPage.tsx:551-565 | the page's own updater arithmetic equals the shared tick and keeps the countdown displayable |
| LandingPage.TikTokLandingPage.GetDiscountClick | src/tiktok-landing-download/TikTokLandingPage.tsx:581-589 | the dialog is showing afterwards: the same one if it already was, otherwise a fresh one |
| LandingPage.TikTokLandingPage.ClosePopup | src/tiktok-landing-download/TikTokLandingPage.tsx:737 | closing posts "hema-popup-closed", and `onClose` unmounts the dialog |
| LandingPage.TikTokLandingPage.PopupSendSettled | src/tiktok-landing-download/TikTokLandingPage.tsx:737 | a delivered send unmounts the dialog; after a thrown one it stays mounted and idle, with its form and entered fields as they were |
| Subscribers.ErrorText | supabase/functions/submit-lead/index.ts:106 | the error's message if non-empty, otherwise "Something went wrong"; never empty |
| Subscribers.InternalError | supabase/functions/submit-lead/index.ts:103-108 | a caught error becomes status 500 with that text |
| Subscribers.Upsert | supabase/functions/submit-lead/index.ts:56-61 | the row under the email gets the sent columns; a column not sent keeps its old value, or is null on insert; every other row is unchanged and no other key appears |
| Subscribers.UpsertKeyedByEmail | supabase/functions/submit-lead/index.ts:56-61 | an upsert keeps every row under its own email |
| Subscribers.UpsertIdempotent | supabase/functions/submit-lead/index.ts:60 | repeating an upsert changes nothing more |
| SubmitLead.LeadCampaignLabel | supabase/functions/submit-lead/index.ts:70-71 | "valentine" gives "Valentine Early Access", "tiktok_discount" gives "TikTok Discount", anything else gives "Website Discount" |
| SubmitLead.LabelsAreKnown | supabase/functions/submit-lead/index.ts:70-71 | only those three labels ever occur |
| SubmitLead.ServerMessagesDistinct | supabase/functions/submit-lead/index.ts:28-48 | the three validation failures have different messages |
| SubmitLead.Handle | supabase/functions/submit-lead/index.ts:19-110 | the handler's outcomes:<br>• OPTIONS gives 200 with a null body and does nothing else.<br>• A parse error gives 500.<br>• A field failure gives 400 with that field's message, and there is no upsert and no email.<br>• An upsert that throws gives 500 and no email.<br>• A returned upsert error is passed over.<br>• Otherwise the row is written when the upsert succeeded, and the owner alone is mailed the unmodified fields, the campaign's label and the digits-only link.<br>• The response is then 200 "Lead submitted successfully!" unless the send throws, which gives 500. |
| Subscribe.TemplateFor | supabase/functions/subscribe/index.ts:56-77 | exactly the campaign "discount" selects the discount template; every other value selects the Valentine one |
| Subscribe.Handle | supabase/functions/subscribe/index.ts:17-99 | the handler's outcomes:<br>• OPTIONS gives 200 with a null body.<br>• A parse error gives 500.<br>• Only the email is checked; an invalid one gives 400 with no upsert or email.<br>• An upsert that throws, or that returns an error without "duplicate" in its message, gives 500 before any email.<br>• Otherwise the row {email, campaign, source "popup"} is written when the upsert succeeded, and the confirmation for the campaign's template goes to the submitted address alone.<br>• The response is then 200 "Subscribed successfully!" unless the send throws. |
| Subscribe.DuplicateKeyTolerated | supabase/functions/subscribe/index.ts:47-53 | an error whose message starts with "duplicate" does not end the request |
| Agreement.PopupLabelsMatchServer | src/components/EmailPopup.tsx:126 | the popup's label for each variant is the label `submit-lead` gives that variant's name |
| Agreement.TikTokLabelMatchesServer | src/components/LeadCapturePopup.tsx:71 | the dialogs' fixed "TikTok Discount" is `submit-lead`'s label for "tiktok_discount" |
| Agreement.VariantSelectsTemplate | supabase/functions/subscribe/index.ts:56 | each popup variant's name selects that variant's confirmation in `subscribe` |
| Agreement.LeadPolicyIsMoreTolerant | supabase/functions/submit-lead/index.ts:63-65 | any upsert outcome that ends `submit-lead` also ends `subscribe` |
| Agreement.PoliciesDifferOnOtherErrors | supabase/functions/subscribe/index.ts:47-53 | a returned error without "duplicate" ends `subscribe` but not `submit-lead` |
| Agreement.DuplicateEndsNeither | supabase/functions/subscribe/index.ts:50 | a duplicate-key error ends neither function |

## Left out

- Markup, styling, images, toast wording and the `alert`-based toast stub: presentation only. A toast is modelled as which notice is shown.
- Email subjects and HTML bodies: literal text. The model keeps only which template is chosen, the recipients, and the fields a notification carries.
- EmailJS, Resend, the Supabase client and `req.json()`: third-party calls. Each is an oracle whose outcome is a parameter (resolved, returned an error, or threw).
- A rejected EmailJS promise is modelled as one outcome; its error value is only logged.
- CORS headers, environment variables and console logging: they do not affect any decision.
- Real time: `setTimeout` and `setInterval` are explicit fire and tick events. The delay is kept as a value and never used as a duration.
- The effect re-running when `variant` or `delayMs` change after mounting: the props are constants of a mount.
- `postMessage` delivery: the parent frame is a log of posted notifications. The `*` target origin and the optional-chaining on `window.parent` are not modelled.
- Lengths are counted in Unicode code points. JavaScript counts UTF-16 units, which differ only for characters outside the Basic Multilingual Plane.
- JSON fields that are missing or not strings: every request field is a string. A missing field validates like "", and a missing `campaign` is not modelled as an omitted column.
- Popup.EmailPopup.SendSettled: does not model the component having been unmounted while the send was in flight. The flag write and the "closed" notice still happen in the code then, and the model's contract says they do, but the state updates of an unmounted component are not distinguished.
- `localStorage` access is assumed never to throw. In a browser where storage is blocked or full (a third-party iframe, such as the embed, can be one), `getItem` in the timer callback would throw before the popup opens, and `setItem` in `handleClose` would throw after `isOpen` is cleared but before "hema-popup-closed" is posted and `onClose` is called. `Popup.EmailPopup.TimerFire` and `Popup.EmailPopup.Close` do not model those paths.
- Subscribers.Upsert: models a thrown or returned upsert error as leaving the table unchanged. Whether the database applied a write before a throw is not knowable from the code.
- WhatsApp order links, analytics events, the embed-code and clipboard helpers of the demo page, and the widget page's background changes: browser glue with no decision in it. The only effect these pages have on the model is removing the seen flag, which is `Popup.StoreOp.ClearKey`.
