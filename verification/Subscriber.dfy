/** The subscriber entity of internal/model/subscriber.go. */
module Subscriber {
  import opened Basics
  import opened Text

  const EMAIL_MAX_LENGTH := 320
  const NAME_MAX_LENGTH := 200
  const SOURCE_URL_MAX_LENGTH := 500
  const STATUS_MAX_LENGTH := 16

  datatype Status = Pending | Confirmed | Unsubscribed

  const NEVER: Time := 0

  datatype Row = Row(
    site: string,
    email: string,
    name: string,
    sourceURL: string,
    status: Status,
    consentAt: Time,
    confirmedAt: Time,
    unsubscribedAt: Time)

  datatype Error = InvalidSite | InvalidEmail | InvalidStatus | InvalidContact

  function NormalizeEmail(email: string): string {
    ToLower(TrimSpace(email))
  }

  function ParseStatus(status: string): Option<Status> {
    if |status| > STATUS_MAX_LENGTH then None
    else if status == "pending" then Some(Pending)
    else if status == "confirmed" then Some(Confirmed)
    else if status == "unsubscribed" then Some(Unsubscribed)
    else None
  }

  /** `addressParses` is the mail library's verdict on the normalized address. */
  function NewSubscriber(
    site: string, email: string, name: string, sourceURL: string, status: string, consentAt: Time, addressParses: bool)
    : Result<Row, Error>
  {
    var trimmedSite := TrimSpace(site);
    var normalized := NormalizeEmail(email);
    var trimmedStatus := TrimSpace(status);
    var parsedStatus := ParseStatus(if trimmedStatus == "" then "pending" else trimmedStatus);
    if trimmedSite == "" then Failure(InvalidSite)
    else if normalized == "" || |normalized| > EMAIL_MAX_LENGTH || !addressParses then Failure(InvalidEmail)
    else if parsedStatus.None? then Failure(InvalidStatus)
    else if |TrimSpace(name)| > NAME_MAX_LENGTH || |TrimSpace(sourceURL)| > SOURCE_URL_MAX_LENGTH then
      Failure(InvalidContact)
    else
      Success(Row(trimmedSite, normalized, TrimSpace(name), TrimSpace(sourceURL), parsedStatus.value,
                  consentAt, NEVER, NEVER))
  }

  lemma NormalizingTwice(email: string)
    ensures NormalizeEmail(NormalizeEmail(email)) == NormalizeEmail(email)
    ensures TrimSpace(ToLower(email)) == NormalizeEmail(email)
    ensures NormalizeEmail(TrimSpace(email)) == NormalizeEmail(email)
  {
    TrimLower(email);
    TrimIsIdempotent(email);
    TrimLower(TrimSpace(email));
    LowerIsIdempotent(TrimSpace(email));
  }
}
