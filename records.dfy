/** The entities of the tracker: users, ingested emails, applications and
    the append-only log of status changes, with the five-value status enum
    shared by the API and the board. */
module Records {

  datatype Option<+T> = None | Some(value: T)
  {
    function GetOr(default: T): T
    {
      match this
      case Some(v) => v
      case None => default
    }
  }

  /** Record identity. The store hands out each id once. */
  type Id = nat

  /** JavaScript truthiness of an optional string: absent, null and "" are falsy. */
  predicate Truthy(s: Option<string>)
  {
    s.Some? && s.value != ""
  }

  datatype Status = Applied | Interviewing | Rejected | Offer | Other

  /** The spelling of each status in the API and the database. */
  function Name(s: Status): string
  {
    match s
    case Applied => "APPLIED"
    case Interviewing => "INTERVIEWING"
    case Rejected => "REJECTED"
    case Offer => "OFFER"
    case Other => "OTHER"
  }

  /** Board columns, in display order. */
  const Statuses: seq<Status> := [Applied, Interviewing, Rejected, Offer, Other]

  /** Why a status event was written: by ingestion or by the PATCH endpoint. */
  datatype Reason = Auto | Manual

  datatype User = User(id: Id, email: string)

  /** The columns an ingestion writes into an email row. `providerThreadId`
      stands for the `providerThreadId` entry of the row's header JSON. */
  datatype EmailContent = EmailContent(
    providerMessageId: Option<string>,
    messageId: Option<string>,
    inReplyTo: Option<string>,
    fromName: Option<string>,
    fromEmail: Option<string>,
    toEmails: Option<string>,
    ccEmails: Option<string>,
    sentAt: int,
    subject: string,
    snippet: Option<string>,
    bodyText: Option<string>,
    bodyHtml: Option<string>,
    providerThreadId: Option<string>)

  datatype Email = Email(id: Id, userId: Id, applicationId: Option<Id>, content: EmailContent)

  datatype Application = Application(
    id: Id,
    userId: Id,
    company: string,
    roleTitle: string,
    status: Status,
    lastActivityAt: Option<int>,
    createdAt: int,
    updatedAt: int)

  datatype StatusEvent = StatusEvent(
    id: Id,
    applicationId: Id,
    fromStatus: Option<Status>,
    toStatus: Status,
    reason: Reason,
    createdAt: int)

  // Sort keys and row filters, as first-class functions for the queries in Tables.

  function UpdatedAt(a: Application): int { a.updatedAt }
  function SentAt(e: Email): int { e.content.sentAt }
  function CreatedAt(ev: StatusEvent): int { ev.createdAt }

  function OwnedBy(userId: Id): Application -> bool
  {
    (a: Application) => a.userId == userId
  }

  function HasStatus(s: Status): Application -> bool
  {
    (a: Application) => a.status == s
  }

  function LinkedTo(appId: Id): Email -> bool
  {
    (e: Email) => e.applicationId == Some(appId)
  }

  function EventOf(appId: Id): StatusEvent -> bool
  {
    (ev: StatusEvent) => ev.applicationId == appId
  }

  /** `where: { id, userId }` on applications. */
  function OwnedWithId(appId: Id, userId: Id): Application -> bool
  {
    (a: Application) => a.id == appId && a.userId == userId
  }
}
