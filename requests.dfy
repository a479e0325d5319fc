/**
 * The two POST handlers' request checking: the donate guard and record
 * construction, and the contact endpoint, which only validates and replies.
 */
module Requests {
  import opened Wrappers
  import opened Text
  import opened Records

  /** HTTP status codes the handlers answer with. */
  const StatusOk: int := 200
  const StatusBadRequest: int := 400

  const InvalidDonationMessage := "Invalid or missing required fields: Name, Email, and a positive Amount are required."
  const DonationAcceptedMessage := "Donation successfully processed!"
  const InvalidContactMessage := "Please fill in all fields: Name, Email, and Message."
  const ContactAcceptedMessage := "Your message has been received. We will get back to you soon."

  /** The default donation type. */
  const DefaultKind := "General"

  /** The body of POST /donate: every field may be missing. `kind` is the `type` field. */
  datatype DonateRequest = DonateRequest(
    name: Option<string>,
    email: Option<string>,
    amount: Option<string>,
    kind: Option<string>,
    message: Option<string>)

  /** The body of POST /contact. */
  datatype ContactRequest = ContactRequest(
    name: Option<string>,
    email: Option<string>,
    message: Option<string>)

  /** JavaScript truthiness of a string field: present and not the empty string. */
  predicate Truthy(f: Option<string>) {
    f.Some? && f.value != ""
  }

  /** `f || fallback` on a string field. */
  function OrElse(f: Option<string>, fallback: string): (r: string)
    ensures Truthy(f) ==> r == f.value
    ensures !Truthy(f) ==> r == fallback
  {
    if Truthy(f) then f.value else fallback
  }

  /**
   * The guard of POST /donate. `toNumber` is JavaScript's `Number(...)` on a
   * string, `None` standing for NaN. The request passes when name, email and
   * amount are non-empty and the amount converts to a number above zero; the
   * result is then that number.
   */
  function CheckDonation(req: DonateRequest, toNumber: string -> Option<real>): (amount: Option<real>)
    ensures amount.Some? <==>
              && Truthy(req.name) && Truthy(req.email) && Truthy(req.amount)
              && toNumber(req.amount.value).Some? && toNumber(req.amount.value).value > 0.0
    ensures amount.Some? ==> amount == toNumber(req.amount.value) && amount.value > 0.0
  {
    if !Truthy(req.name) || !Truthy(req.email) || !Truthy(req.amount) then None
    else
      match toNumber(req.amount.value)
      case None => None
      case Some(n) => if n <= 0.0 then None else Some(n)
  }

  /**
   * The record POST /donate builds from a request that passed the guard:
   * trimmed name and email, the converted amount, the type or "General", the
   * trimmed message or "", and the server-assigned id and date.
   */
  function NewDonation(req: DonateRequest, amount: real, id: string, now: int): Donation
    requires Truthy(req.name) && Truthy(req.email)
  {
    Donation(
      id,
      Trim(req.name.value),
      Trim(req.email.value),
      amount,
      OrElse(req.kind, DefaultKind),
      Trim(OrElse(req.message, "")),
      now)
  }

  /**
   * What a new record holds: its name, email and message carry no
   * surrounding whitespace, its amount is the converted one, its type falls
   * back to "General", and its message to "".
   */
  lemma NewDonationFields(req: DonateRequest, amount: real, id: string, now: int)
    requires Truthy(req.name) && Truthy(req.email)
    ensures var d := NewDonation(req, amount, id, now);
            && d.id == id && d.date == now && d.amount == amount
            && d.name == Trim(req.name.value) && Trimmed(d.name)
            && d.email == Trim(req.email.value) && Trimmed(d.email)
            && d.kind == (if Truthy(req.kind) then req.kind.value else DefaultKind)
            && (Truthy(req.message) ==> d.message == Trim(req.message.value))
            && (!Truthy(req.message) ==> d.message == "")
            && Trimmed(d.message)
  {
    if !Truthy(req.message) {
      TrimKeepsTrimmed("");
    }
  }

  /**
   * A submission with a name and an email that carry no surrounding
   * whitespace, a positive amount, and no type or message, such as
   * `{ name: "Ann", email: "a@x.com", amount: "50" }`, passes the guard and is
   * stored as given: the converted amount, type "General", an empty message.
   */
  lemma PlainSubmissionStoredAsGiven(
    name: string, email: string, amountText: string, n: real,
    toNumber: string -> Option<real>, id: string, now: int)
    requires name != "" && email != "" && Trimmed(name) && Trimmed(email)
    requires amountText != "" && toNumber(amountText) == Some(n) && n > 0.0
    ensures var req := DonateRequest(Some(name), Some(email), Some(amountText), None, None);
            && CheckDonation(req, toNumber) == Some(n)
            && NewDonation(req, n, id, now) == Donation(id, name, email, n, DefaultKind, "", now)
  {
    TrimKeepsTrimmed(name);
    TrimKeepsTrimmed(email);
    TrimKeepsTrimmed("");
  }

  /** The answer to POST /donate. */
  datatype DonateResponse =
    | Rejected(message: string)
    | Accepted(message: string, donation: Donation)
  {
    function Status(): (code: int)
      ensures code == StatusBadRequest <==> Rejected?
      ensures code == StatusOk <==> Accepted?
    {
      if Rejected? then StatusBadRequest else StatusOk
    }
  }

  /** The answer to POST /contact: `{ success, message }` and its HTTP status. */
  datatype ContactResponse = ContactResponse(status: int, success: bool, message: string)

  /**
   * POST /contact. It succeeds exactly when name, email and message are all
   * present and non-empty; it has no access to the donation store, so it
   * cannot change it.
   */
  function Contact(req: ContactRequest): (r: ContactResponse)
    ensures r.success <==> Truthy(req.name) && Truthy(req.email) && Truthy(req.message)
    ensures r.success ==> r.status == StatusOk && r.message == ContactAcceptedMessage
    ensures !r.success ==> r.status == StatusBadRequest && r.message == InvalidContactMessage
  {
    if !Truthy(req.name) || !Truthy(req.email) || !Truthy(req.message) then
      ContactResponse(StatusBadRequest, false, InvalidContactMessage)
    else
      ContactResponse(StatusOk, true, ContactAcceptedMessage)
  }
}
