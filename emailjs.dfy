/**
 * What the three lead forms hand to the EmailJS browser SDK, and what comes
 * back. The SDK itself is an oracle: a send either resolves or throws.
 */
module EmailJs {
  import opened Leads

  /** How an `await emailjs.send(...)` ends. */
  datatype SendOutcome = Delivered | Threw(message: string)

  /** The template parameters of one send. */
  datatype Payload = Payload(fromName: string, phone: string, email: string, campaign: string, whatsappLink: string)

  /** The toast a form shows: the failed rule, success, or the generic failure. */
  datatype Notice = Rejected(error: FieldError) | Succeeded | Failed

  /** Which field of a form an input event edits. */
  datatype Field = NameField | PhoneField | EmailField

  /** The campaign label the two TikTok forms always send. */
  const TikTokCampaign := "TikTok Discount"

  /**
   * The parameters a form sends: name, phone and email exactly as typed, the
   * campaign label, and the contact link built from the phone's digits.
   */
  function LeadPayload(name: string, phone: string, email: string, campaign: string): Payload {
    Payload(name, phone, email, campaign, WhatsAppLink(phone))
  }

  /** The toast that ends a send: success when it resolved, the generic failure when it threw. */
  function SettledNotice(outcome: SendOutcome): Notice {
    if outcome.Delivered? then Succeeded else Failed
  }
}
