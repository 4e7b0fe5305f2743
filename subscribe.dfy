/**
 * The `subscribe` edge function (supabase/functions/subscribe/index.ts):
 * validate an email, upsert it into the subscriber table tolerating
 * duplicates, and send the subscriber the confirmation for their campaign.
 */
module Subscribe {
  import opened Wrappers
  import opened Text
  import opened Leads
  import opened Subscribers

  /** The decoded JSON body. */
  datatype SubscribeRequest = SubscribeRequest(email: string, campaign: string)

  /** The subject and HTML body pair a confirmation is sent with. */
  datatype Template = DiscountTemplate | ValentineTemplate

  /** The confirmation to the subscriber. */
  datatype Confirmation = Confirmation(to: seq<string>, template: Template)

  const PopupSource := "popup"
  const Subscribed := "Subscribed successfully!"
  const EmailMessage := "Please provide a valid email address"

  /** Exactly the campaign "discount" gets the discount code; every other value gets the Valentine text. */
  function TemplateFor(campaign: string): (t: Template)
    ensures t == DiscountTemplate <==> campaign == "discount"
    ensures t == ValentineTemplate <==> campaign != "discount"
  {
    if campaign == "discount" then DiscountTemplate else ValentineTemplate
  }

  /**
   * An upsert error is tolerated when its message mentions "duplicate"; any
   * other error is rethrown, and a throw ends the request either way.
   */
  predicate UpsertAborts(upsert: Outcome) {
    upsert.Threw? || (upsert.Failed? && !Contains(upsert.message, "duplicate"))
  }

  /**
   * The handler, with the same parameters as `submit-lead`'s: it returns the
   * response, the table afterwards, and the confirmation if one was handed to
   * the mail service.
   */
  method Handle(requestMethod: string, body: Parsed<SubscribeRequest>, table: Table, upsert: Outcome, send: Outcome)
    returns (resp: Response, after: Table, mail: Option<Confirmation>)
    // The CORS preflight: 200 with a null body, nothing else done.
    ensures requestMethod == "OPTIONS" ==> resp == Response(200, NoBody) && after == table && mail == None
    ensures requestMethod != "OPTIONS" && body.Unparseable? ==>
              resp == InternalError(body.message) && after == table && mail == None
    // Only the email is checked.
    ensures requestMethod != "OPTIONS" && body.Parsed? && !EmailAccepted(body.value.email) ==>
              resp == Response(400, ErrorBody(EmailMessage)) && after == table && mail == None
    // A fatal upsert outcome: its message as a 500, before any email.
    ensures requestMethod != "OPTIONS" && body.Parsed? && EmailAccepted(body.value.email) && UpsertAborts(upsert) ==>
              resp == InternalError(upsert.message) && after == table && mail == None
    // Otherwise the row is written if the upsert succeeded, and the confirmation goes to the subscriber alone.
    ensures requestMethod != "OPTIONS" && body.Parsed? && EmailAccepted(body.value.email) && !UpsertAborts(upsert) ==>
              var req := body.value;
              after == (if upsert.Ok? then Upsert(table, req.email, None, req.campaign, PopupSource) else table) &&
              mail == Some(Confirmation([req.email], TemplateFor(req.campaign))) &&
              resp == (if send.Threw? then InternalError(send.message) else Response(200, Success(Subscribed)))
  {
    if requestMethod == "OPTIONS" {
      return Response(200, NoBody), table, None;
    }
    if body.Unparseable? {
      return InternalError(body.message), table, None;
    }
    var SubscribeRequest(email, campaign) := body.value;
    if email == "" || !IsEmailShaped(email) {
      return Response(400, ErrorBody(EmailMessage)), table, None;
    }
    match upsert {
      case Threw(m) =>
        return InternalError(m), table, None;
      case Failed(m) =>
        if !Contains(m, "duplicate") {
          return InternalError(m), table, None;
        }
        after := table;
      case Ok =>
        after := Upsert(table, email, None, campaign, PopupSource);
    }
    var isDiscount := campaign == "discount";
    mail := Some(Confirmation([email], if isDiscount then DiscountTemplate else ValentineTemplate));
    if send.Threw? {
      resp := InternalError(send.message);
    } else {
      resp := Response(200, Success(Subscribed));
    }
  }

  /** An error whose message starts with "duplicate", as a unique-key violation's does, is tolerated. */
  lemma DuplicateKeyTolerated(rest: string)
    ensures !UpsertAborts(Failed("duplicate" + rest))
  {
    ContainsPrefix("duplicate", rest);
  }
}
