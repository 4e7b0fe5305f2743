/**
 * The `submit-lead` edge function (supabase/functions/submit-lead/index.ts):
 * validate a lead, upsert it into the subscriber table, and notify the shop
 * owner by email. The database and the mail service are oracles whose
 * outcomes are parameters.
 */
module SubmitLead {
  import opened Wrappers
  import opened Text
  import opened Leads
  import opened Subscribers

  /** The decoded JSON body. */
  datatype LeadRequest = LeadRequest(name: string, phone: string, email: string, campaign: string)

  /** The notification to the owner: recipients, the lead's fields, its label and contact link. */
  datatype OwnerMail = OwnerMail(to: seq<string>, name: string, phone: string, email: string,
                                 campaignLabel: string, whatsappLink: string)

  const OwnerAddress := "Helen@Hemafieldflowers.com.ng"
  const LeadSource := "tiktok_popup"
  const LeadAccepted := "Lead submitted successfully!"

  /** The label shown in the owner's email for a request's campaign code. */
  function LeadCampaignLabel(campaign: string): (l: string)
    ensures campaign == "valentine" ==> l == "Valentine Early Access"
    ensures campaign == "tiktok_discount" ==> l == "TikTok Discount"
    ensures campaign != "valentine" && campaign != "tiktok_discount" ==> l == "Website Discount"
  {
    if campaign == "valentine" then "Valentine Early Access"
    else if campaign == "tiktok_discount" then "TikTok Discount"
    else "Website Discount"
  }

  /** Only three labels are ever produced. */
  lemma LabelsAreKnown(campaign: string)
    ensures LeadCampaignLabel(campaign) in {"Valentine Early Access", "TikTok Discount", "Website Discount"}
  {
  }

  /** The error text of each validation failure. */
  function ServerMessage(e: FieldError): string {
    match e
    case NameRequired => "Please provide your name"
    case PhoneInvalid => "Please provide a valid phone number"
    case EmailInvalid => "Please provide a valid email address"
  }

  /** Each failure has its own message. */
  lemma ServerMessagesDistinct(e: FieldError, f: FieldError)
    ensures ServerMessage(e) == ServerMessage(f) <==> e == f
  {
    if e != f {
      assert |ServerMessage(e)| != |ServerMessage(f)|;
    }
  }

  /** Only a thrown upsert ends the request; an error it returns is logged and passed over. */
  predicate UpsertAborts(upsert: Outcome) {
    upsert.Threw?
  }

  /**
   * The handler. `requestMethod` is the HTTP verb, `body` the outcome of
   * decoding the JSON, `upsert` and `send` the outcomes of the two awaited
   * calls. It returns the response, the table afterwards, and the notification
   * if one was handed to the mail service.
   */
  method Handle(requestMethod: string, body: Parsed<LeadRequest>, table: Table, upsert: Outcome, send: Outcome)
    returns (resp: Response, after: Table, mail: Option<OwnerMail>)
    // The CORS preflight: 200 with a null body, nothing else done.
    ensures requestMethod == "OPTIONS" ==> resp == Response(200, NoBody) && after == table && mail == None
    // A body that is not JSON: the parse error's message, as a 500.
    ensures requestMethod != "OPTIONS" && body.Unparseable? ==>
              resp == InternalError(body.message) && after == table && mail == None
    // A rejected field: 400 with that field's message, no upsert and no email.
    ensures requestMethod != "OPTIONS" && body.Parsed? &&
            ServerValidate(body.value.name, body.value.phone, body.value.email).Fail? ==>
              resp == Response(400, ErrorBody(ServerMessage(ServerValidate(body.value.name, body.value.phone, body.value.email).error))) &&
              after == table && mail == None
    // A valid lead whose upsert throws: a 500 and no email.
    ensures requestMethod != "OPTIONS" && body.Parsed? &&
            ServerValidate(body.value.name, body.value.phone, body.value.email) == Pass && UpsertAborts(upsert) ==>
              resp == InternalError(upsert.message) && after == table && mail == None
    // A valid lead otherwise: the row is written if the upsert succeeded, and the owner is mailed in any case.
    ensures requestMethod != "OPTIONS" && body.Parsed? &&
            ServerValidate(body.value.name, body.value.phone, body.value.email) == Pass && !UpsertAborts(upsert) ==>
              var req := body.value;
              after == (if upsert.Ok? then Upsert(table, req.email, Some(req.name), req.campaign, LeadSource) else table) &&
              mail.Some? && mail.value.to == [OwnerAddress] &&
              mail.value.name == req.name && mail.value.phone == req.phone && mail.value.email == req.email &&
              mail.value.campaignLabel == LeadCampaignLabel(req.campaign) &&
              mail.value.whatsappLink == WhatsAppLink(req.phone) &&
              resp == (if send.Threw? then InternalError(send.message) else Response(200, Success(LeadAccepted)))
  {
    if requestMethod == "OPTIONS" {
      return Response(200, NoBody), table, None;
    }
    if body.Unparseable? {
      return InternalError(body.message), table, None;
    }
    var LeadRequest(name, phone, email, campaign) := body.value;
    if name == "" || |Trim(name)| == 0 {
      assert ServerValidate(name, phone, email) == Fail(NameRequired);
      return Response(400, ErrorBody("Please provide your name")), table, None;
    }
    if phone == "" || |Trim(phone)| < 10 {
      assert ServerValidate(name, phone, email) == Fail(PhoneInvalid);
      return Response(400, ErrorBody("Please provide a valid phone number")), table, None;
    }
    if email == "" || !IsEmailShaped(email) {
      assert ServerValidate(name, phone, email) == Fail(EmailInvalid);
      return Response(400, ErrorBody("Please provide a valid email address")), table, None;
    }
    assert ServerValidate(name, phone, email) == Pass;
    match upsert {
      case Threw(m) =>
        return InternalError(m), table, None;
      case Failed(_) =>
        after := table;
      case Ok =>
        after := Upsert(table, email, Some(name), campaign, LeadSource);
    }
    var campaignLabel := if campaign == "valentine" then "Valentine Early Access"
                         else if campaign == "tiktok_discount" then "TikTok Discount"
                         else "Website Discount";
    mail := Some(OwnerMail([OwnerAddress], name, phone, email, campaignLabel, WhatsAppPrefix + DigitsOnly(phone)));
    if send.Threw? {
      resp := InternalError(send.message);
    } else {
      resp := Response(200, Success(LeadAccepted));
    }
  }
}
