/**
 * What the two edge functions share: the request and response shapes, the
 * outcomes of the third-party calls they await, and the `email_subscribers`
 * table they upsert into.
 */
module Subscribers {
  import opened Wrappers

  // --- HTTP ------------------------------------------------------------------------

  /** The JSON body of a response: none (the CORS preflight), a success message, or an error. */
  datatype Body = NoBody | Success(message: string) | ErrorBody(error: string)

  datatype Response = Response(status: int, body: Body)

  /** What `await req.json()` gives: the decoded fields, or the message of the parse error it throws. */
  datatype Parsed<T> = Parsed(value: T) | Unparseable(message: string)

  /**
   * How an awaited third-party call ends: without an error, with an error
   * object it returns (which the handler inspects), or by throwing.
   */
  datatype Outcome = Ok | Failed(message: string) | Threw(message: string)

  const GenericError := "Something went wrong"

  /** The catch block's text: the thrown error's message unless it is empty. */
  function ErrorText(message: string): (text: string)
    ensures text != ""
    ensures message != "" ==> text == message
    ensures message == "" ==> text == GenericError
  {
    if message != "" then message else GenericError
  }

  /** The response of the catch block: 500 with the error's text. */
  function InternalError(message: string): (r: Response)
    ensures r.status == 500 && r.body.ErrorBody? && r.body.error == ErrorText(message)
  {
    Response(500, ErrorBody(ErrorText(message)))
  }

  // --- the subscriber table -------------------------------------------------------

  /**
   * One row of `email_subscribers`. `name` is null on rows only `subscribe`
   * ever wrote, since that function does not send the column.
   */
  datatype Record = Record(email: string, name: Option<string>, campaign: string, source: string)

  /** The table, keyed by its `email` conflict column. */
  type Table = map<string, Record>

  /** Every row sits under its own email. */
  predicate KeyedByEmail(t: Table) {
    forall k :: k in t ==> t[k].email == k
  }

  /**
   * `upsert(row, { onConflict: "email", ignoreDuplicates: false })`: the row
   * under `email` gets the columns sent; a column not sent (`name` is `None`)
   * keeps its old value on an update and is null on an insert. Every other row
   * is left alone.
   */
  function Upsert(t: Table, email: string, name: Option<string>, campaign: string, source: string): (after: Table)
    ensures after.Keys == t.Keys + {email}
    ensures after[email].email == email && after[email].campaign == campaign && after[email].source == source
    ensures name.Some? ==> after[email].name == name
    ensures name.None? ==> after[email].name == (if email in t then t[email].name else None)
    ensures forall k :: k in t && k != email ==> after[k] == t[k]
  {
    var kept := if name.Some? then name else if email in t then t[email].name else None;
    t[email := Record(email, kept, campaign, source)]
  }

  /** Upserting keeps the table keyed by email. */
  lemma UpsertKeyedByEmail(t: Table, email: string, name: Option<string>, campaign: string, source: string)
    requires KeyedByEmail(t)
    ensures KeyedByEmail(Upsert(t, email, name, campaign, source))
  {
  }

  /** Upserting the same row twice is the same as once. */
  lemma UpsertIdempotent(t: Table, email: string, name: Option<string>, campaign: string, source: string)
    ensures Upsert(Upsert(t, email, name, campaign, source), email, name, campaign, source)
         == Upsert(t, email, name, campaign, source)
  {
  }
}
