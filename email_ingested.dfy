/** The `/events/email-ingested` endpoint: an inbound, already parsed email
    is stored idempotently, linked to an application (found through the
    email thread, else through a recent application at the same company,
    else created), and the application's status follows the email's
    classification, with every change written to the status-event log. */
module EmailIngested {
  import opened Records
  import opened Text
  import opened Tables
  import opened Store

  // ---------------------------------------------------------------------
  // Pure helpers

  /** The company guess from a sender address: the first part of the
      domain, lower-cased ("hr@airbnb.com" gives "airbnb"). */
  function DomainFromEmail(addr: Option<string>): (r: Option<string>)
    ensures addr.None? || '@' !in addr.value ==> r.None?
    ensures addr.Some? && '@' in addr.value ==>
      var a := addr.value;
      var p := FirstIndexOf(a, '@');
      (r.None? <==> p + 1 == |a| || a[p + 1] == '.' || a[p + 1] == '@')
    ensures r.Some? ==>
      var v := r.value;
      v != "" && '.' !in v && '@' !in v && NoUpperAscii(v)
    ensures r.Some? ==>
      var a := addr.value;
      var p := FirstIndexOf(a, '@');
      var n := |r.value|;
      && p + 1 + n <= |a|
      && r.value == Lower(a[p + 1..p + 1 + n])
      && (p + 1 + n == |a| || a[p + 1 + n] == '.' || a[p + 1 + n] == '@')
  {
    if !Truthy(addr) || '@' !in addr.value then None
    else
      var a := addr.value;
      var p := FirstIndexOf(a, '@');
      var field := SecondField(a, '@');
      var domain := Lower(field);
      var part := TakeUntil(domain, '.');
      var n := |part|;
      assert part == Lower(field[..n]);
      assert field[..n] == a[p + 1..p + 1 + n];
      assert '@' !in part by {
        forall i | 0 <= i < n ensures part[i] != '@' {
          assert field[i] != '@';
        }
      }
      assert NoUpperAscii(part) by { LowerHasNoUpper(field); }
      assert n < |field| ==> field[n] == '.' by {
        if n < |field| { assert domain[n] == '.'; }
      }
      assert n == 0 ==> (field == [] || field[0] == '.');
      if part == "" then None else Some(part)
  }

  /** Every status name is already upper case. */
  lemma NameIsUpper(s: Status)
    ensures Upper(Name(s)) == Name(s)
  {
    var n := Name(s);
    assert NoLowerAscii(n) by {
      forall i | 0 <= i < |n| ensures !IsLowerAscii(n[i]) {
        match s
        case Applied =>
        case Interviewing =>
        case Rejected =>
        case Offer =>
        case Other =>
      }
    }
    UpperFixed(n);
  }

  /** The classification hint mapped onto the status enum, ignoring case;
      absent, empty and unrecognised hints give OTHER. */
  function ToStatus(s: Option<string>): (r: Status)
    ensures r != Other ==> EqualsIgnoreCase(s.GetOr(""), Name(r))
    ensures r == Other <==> forall t :: t != Other ==> !EqualsIgnoreCase(s.GetOr(""), Name(t))
  {
    NameIsUpper(Applied);
    NameIsUpper(Interviewing);
    NameIsUpper(Rejected);
    NameIsUpper(Offer);
    var u := Upper(s.GetOr(""));
    if u == "APPLIED" then Applied
    else if u == "INTERVIEWING" then Interviewing
    else if u == "REJECTED" then Rejected
    else if u == "OFFER" then Offer
    else Other
  }

  /** Every status name, in any ASCII case, maps back to its status. */
  lemma ToStatusOfName(t: Status, spelling: string)
    requires EqualsIgnoreCase(spelling, Name(t))
    ensures ToStatus(Some(spelling)) == t
  {
    NameIsUpper(t);
    if t == Other {
      assert Upper(spelling) == "OTHER";
    }
  }

  /** The lower-case spelling used by classifiers ("applied") is recognised. */
  lemma ToStatusOfLowerName(t: Status)
    ensures ToStatus(Some(Lower(Name(t)))) == t
  {
    UpperOfLower(Name(t));
    ToStatusOfName(t, Lower(Name(t)));
  }

  // ---------------------------------------------------------------------
  // The request

  datatype Sender = Sender(name: Option<string>, email: Option<string>)

  /** The JSON body of the endpoint. `sentAt` is the parsed send time (None
      when the field is absent or empty); `hasHeaders` says whether a
      `headers` object came with it. */
  datatype IngestRequest = IngestRequest(
    provider: Option<string>,
    providerMessageId: Option<string>,
    providerThreadId: Option<string>,
    messageId: Option<string>,
    inReplyTo: Option<string>,
    references: seq<string>,
    from: Option<Sender>,
    to: Option<seq<string>>,
    cc: Option<seq<string>>,
    sentAt: Option<int>,
    subject: Option<string>,
    snippet: Option<string>,
    bodyText: Option<string>,
    bodyHtml: Option<string>,
    hasHeaders: bool,
    classification: Option<string>,
    inferredCompany: Option<string>,
    inferredRole: Option<string>)

  datatype BadRequestReason = MissingMessageIds | MissingProviderSentAtSubject

  datatype IngestResponse =
    | BadRequest(reason: BadRequestReason)
    | Ok(applicationId: Id, emailId: Id, statusChanged: bool, newStatus: Status)

  /** Neither a client message id nor a provider with its message id. */
  predicate MissingIds(req: IngestRequest)
  {
    !Truthy(req.messageId) && !(Truthy(req.provider) && Truthy(req.providerMessageId))
  }

  predicate MissingFields(req: IngestRequest)
  {
    !Truthy(req.provider) || req.sentAt.None? || !Truthy(req.subject)
  }

  function FromEmail(req: IngestRequest): Option<string>
  {
    if req.from.Some? then req.from.value.email else None
  }

  function FromName(req: IngestRequest): Option<string>
  {
    if req.from.Some? then req.from.value.name else None
  }

  function JoinList(xs: Option<seq<string>>): Option<string>
  {
    if xs.Some? then Some(Join(xs.value, ",")) else None
  }

  /** The row written for the email, applicationId aside. Optional fields
      are stored as given, "" included; `to` and `cc` lists are joined with
      ","; the provider thread id is kept when a headers object came or the
      id is truthy, and dropped otherwise. */
  function ContentOf(req: IngestRequest): (r: EmailContent)
    requires !MissingFields(req)
    ensures r.messageId == req.messageId && r.providerMessageId == req.providerMessageId
    ensures r.inReplyTo == req.inReplyTo && r.snippet == req.snippet
    ensures r.bodyText == req.bodyText && r.bodyHtml == req.bodyHtml
    ensures r.fromName == FromName(req) && r.fromEmail == FromEmail(req)
    ensures r.sentAt == req.sentAt.value && r.subject == req.subject.value && r.subject != ""
    ensures r.toEmails.Some? <==> req.to.Some?
    ensures r.ccEmails.Some? <==> req.cc.Some?
    ensures req.to.Some? ==> r.toEmails.value == Join(req.to.value, ",")
    ensures req.cc.Some? ==> r.ccEmails.value == Join(req.cc.value, ",")
    ensures Truthy(req.providerThreadId) ==> r.providerThreadId == req.providerThreadId
    ensures req.hasHeaders ==> r.providerThreadId == req.providerThreadId
    ensures !req.hasHeaders && !Truthy(req.providerThreadId) ==> r.providerThreadId.None?
  {
    EmailContent(
      req.providerMessageId,
      req.messageId,
      req.inReplyTo,
      FromName(req),
      FromEmail(req),
      JoinList(req.to),
      JoinList(req.cc),
      req.sentAt.value,
      req.subject.value,
      req.snippet,
      req.bodyText,
      req.bodyHtml,
      if req.hasHeaders || Truthy(req.providerThreadId) then req.providerThreadId else None)
  }

  // ---------------------------------------------------------------------
  // Queries

  function ByMessageId(userId: Id, m: string): Email -> bool
  {
    (e: Email) => e.userId == userId && e.content.messageId == Some(m)
  }

  function ByProviderMessageId(userId: Id, m: string): Email -> bool
  {
    (e: Email) => e.userId == userId && e.content.providerMessageId == Some(m)
  }

  /** The user's stored copy of an incoming email: looked up by client
      message id first, then by provider message id. */
  function FindExistingEmail(emails: seq<Email>, userId: Id, messageId: Option<string>,
                             providerMessageId: Option<string>): (k: Option<nat>)
    ensures k.Some? ==> k.value < |emails| && emails[k.value].userId == userId
    ensures k.Some? ==>
      || (Truthy(messageId) && emails[k.value].content.messageId == messageId)
      || (Truthy(providerMessageId) && emails[k.value].content.providerMessageId == providerMessageId)
    ensures k.None? <==> forall j :: 0 <= j < |emails| && emails[j].userId == userId ==>
      && !(Truthy(messageId) && emails[j].content.messageId == messageId)
      && !(Truthy(providerMessageId) && emails[j].content.providerMessageId == providerMessageId)
    ensures Truthy(messageId) && (exists j :: 0 <= j < |emails| && ByMessageId(userId, messageId.value)(emails[j])) ==>
      k.Some? && emails[k.value].content.messageId == messageId
  {
    var byMessage := if Truthy(messageId) then FirstWhere(emails, ByMessageId(userId, messageId.value)) else None;
    if byMessage.Some? then byMessage
    else if Truthy(providerMessageId) then FirstWhere(emails, ByProviderMessageId(userId, providerMessageId.value))
    else None
  }

  /** The email table after the upsert of step one: the found row rewritten
      with the new content (its link kept), or a new unlinked row appended. */
  function Staged(emails: seq<Email>, k: Option<nat>, userId: Id, content: EmailContent, freshId: Id): seq<Email>
    requires k.Some? ==> k.value < |emails|
  {
    if k.Some? then emails[k.value := emails[k.value].(userId := userId, content := content)]
    else emails + [Email(freshId, userId, None, content)]
  }

  function RepliedTo(userId: Id, key: string): Email -> bool
  {
    (e: Email) => e.userId == userId && (e.content.messageId == Some(key) || e.content.providerMessageId == Some(key))
  }

  function Referenced(userId: Id, refs: seq<string>): Email -> bool
  {
    (e: Email) => e.userId == userId && e.content.messageId.Some? && e.content.messageId.value in refs
  }

  function InThread(userId: Id, threadId: string): Email -> bool
  {
    (e: Email) => e.userId == userId && e.content.providerThreadId == Some(threadId)
  }

  /** What one tier of the thread lookup decides: nothing (fall through to the
      next tier), or the answer of the owned-application lookup. */
  datatype TierOutcome = FallThrough | Decided(app: Option<nat>)

  /** One tier: the first email satisfying `hit` decides if it is linked. */
  function Tier(emails: seq<Email>, apps: seq<Application>, userId: Id, hit: Email -> bool): TierOutcome
  {
    match FirstWhere(emails, hit)
    case None => FallThrough
    case Some(k) =>
      match emails[k].applicationId
      case None => FallThrough
      case Some(id) => Decided(FirstWhere(apps, OwnedWithId(id, userId)))
  }

  /** The application an email thread belongs to, tried through the
      in-reply-to id, then the reference ids, then the provider thread id. */
  function FindByThread(emails: seq<Email>, apps: seq<Application>, userId: Id,
                        inReplyTo: Option<string>, references: seq<string>,
                        threadId: Option<string>): (r: Option<nat>)
    ensures r.Some? ==> r.value < |apps| && apps[r.value].userId == userId
    ensures r.Some? ==>
      exists j :: 0 <= j < |emails| && emails[j].applicationId == Some(apps[r.value].id) &&
        (|| (Truthy(inReplyTo) && RepliedTo(userId, inReplyTo.value)(emails[j]))
         || (references != [] && Referenced(userId, references)(emails[j]))
         || (Truthy(threadId) && InThread(userId, threadId.value)(emails[j])))
  {
    var t1 := if Truthy(inReplyTo) then Tier(emails, apps, userId, RepliedTo(userId, inReplyTo.value)) else FallThrough;
    var t2 := if references != [] then Tier(emails, apps, userId, Referenced(userId, references)) else FallThrough;
    var t3 := if Truthy(threadId) then Tier(emails, apps, userId, InThread(userId, threadId.value)) else FallThrough;
    if t1.Decided? then t1.app
    else if t2.Decided? then t2.app
    else if t3.Decided? then t3.app
    else None
  }

  /** A linked first in-reply-to hit decides the lookup on its own: the
      reference ids and the thread id are not consulted, even when the
      linked application is not the user's. */
  lemma LinkedReplyHitDecides(emails: seq<Email>, apps: seq<Application>, userId: Id, inReplyTo: string,
                              refs1: seq<string>, thread1: Option<string>, refs2: seq<string>, thread2: Option<string>)
    requires inReplyTo != ""
    requires var k := FirstWhere(emails, RepliedTo(userId, inReplyTo));
      k.Some? && emails[k.value].applicationId.Some?
    ensures var k := FirstWhere(emails, RepliedTo(userId, inReplyTo)).value;
      && FindByThread(emails, apps, userId, Some(inReplyTo), refs1, thread1)
         == FirstWhere(apps, OwnedWithId(emails[k].applicationId.value, userId))
      && FindByThread(emails, apps, userId, Some(inReplyTo), refs1, thread1)
         == FindByThread(emails, apps, userId, Some(inReplyTo), refs2, thread2)
  {
  }

  /** An unlinked first in-reply-to hit is as good as no in-reply-to id. */
  lemma UnlinkedReplyHitFallsThrough(emails: seq<Email>, apps: seq<Application>, userId: Id, inReplyTo: string,
                                     refs: seq<string>, thread: Option<string>)
    requires var k := FirstWhere(emails, RepliedTo(userId, inReplyTo));
      k.None? || emails[k.value].applicationId.None?
    ensures FindByThread(emails, apps, userId, Some(inReplyTo), refs, thread)
         == FindByThread(emails, apps, userId, None, refs, thread)
  {
  }

  /** The first email satisfying `hit` is missing or not linked to any
      application, so its tier of the thread lookup falls through. */
  predicate NoLinkedHit(emails: seq<Email>, hit: Email -> bool)
  {
    var k := FirstWhere(emails, hit);
    k.None? || emails[k.value].applicationId.None?
  }

  /** The in-reply-to tier falls through: no in-reply-to id, or its first hit
      is missing or unlinked. */
  predicate ReplyTierFallsThrough(emails: seq<Email>, userId: Id, inReplyTo: Option<string>)
  {
    !Truthy(inReplyTo) || NoLinkedHit(emails, RepliedTo(userId, inReplyTo.value))
  }

  /** When the in-reply-to tier falls through and the first reference hit is
      linked, that hit decides: the answer is the owned-application lookup
      for its link, even when that finds nothing, and the thread id is not
      consulted. */
  lemma LinkedReferenceHitDecides(emails: seq<Email>, apps: seq<Application>, userId: Id, inReplyTo: Option<string>,
                                  refs: seq<string>, thread1: Option<string>, thread2: Option<string>)
    requires ReplyTierFallsThrough(emails, userId, inReplyTo)
    requires refs != [] && !NoLinkedHit(emails, Referenced(userId, refs))
    ensures var k := FirstWhere(emails, Referenced(userId, refs)).value;
      && FindByThread(emails, apps, userId, inReplyTo, refs, thread1)
         == FirstWhere(apps, OwnedWithId(emails[k].applicationId.value, userId))
      && FindByThread(emails, apps, userId, inReplyTo, refs, thread1)
         == FindByThread(emails, apps, userId, inReplyTo, refs, thread2)
  {
  }

  /** When the in-reply-to tier falls through, a missing or unlinked first
      reference hit is as good as no references. */
  lemma UnlinkedReferenceHitFallsThrough(emails: seq<Email>, apps: seq<Application>, userId: Id,
                                         inReplyTo: Option<string>, refs: seq<string>, thread: Option<string>)
    requires ReplyTierFallsThrough(emails, userId, inReplyTo)
    requires NoLinkedHit(emails, Referenced(userId, refs))
    ensures FindByThread(emails, apps, userId, inReplyTo, refs, thread)
         == FindByThread(emails, apps, userId, inReplyTo, [], thread)
  {
  }

  /** When the first two tiers fall through and the first email of the
      provider thread is linked, that email decides, through the
      owned-application lookup for its link. */
  lemma LinkedThreadHitDecides(emails: seq<Email>, apps: seq<Application>, userId: Id, inReplyTo: Option<string>,
                               refs: seq<string>, threadId: string)
    requires ReplyTierFallsThrough(emails, userId, inReplyTo)
    requires refs == [] || NoLinkedHit(emails, Referenced(userId, refs))
    requires threadId != "" && !NoLinkedHit(emails, InThread(userId, threadId))
    ensures var k := FirstWhere(emails, InThread(userId, threadId)).value;
      FindByThread(emails, apps, userId, inReplyTo, refs, Some(threadId))
        == FirstWhere(apps, OwnedWithId(emails[k].applicationId.value, userId))
  {
  }

  /** When no tier has a linked first hit, the thread lookup finds nothing. */
  lemma NoTierDecides(emails: seq<Email>, apps: seq<Application>, userId: Id, inReplyTo: Option<string>,
                      refs: seq<string>, threadId: Option<string>)
    requires ReplyTierFallsThrough(emails, userId, inReplyTo)
    requires refs == [] || NoLinkedHit(emails, Referenced(userId, refs))
    requires !Truthy(threadId) || NoLinkedHit(emails, InThread(userId, threadId.value))
    ensures FindByThread(emails, apps, userId, inReplyTo, refs, threadId) == None
  {
  }

  /** The recency window of the company fallback: 60 days in milliseconds. */
  const RecencyWindowMs: int := 60 * 24 * 60 * 60 * 1000

  function RecentAt(userId: Id, company: string, now: int): Application -> bool
  {
    (a: Application) => a.userId == userId && EqualsIgnoreCase(a.company, company) && a.updatedAt >= now - RecencyWindowMs
  }

  /** The user's most recently updated application at `company` (any case),
      updated at most 60 days before `now`. */
  function FindRecentByCompany(apps: seq<Application>, userId: Id, company: string, now: int): (r: Option<nat>)
    ensures r.Some? ==>
      && r.value < |apps|
      && apps[r.value].userId == userId
      && EqualsIgnoreCase(apps[r.value].company, company)
      && apps[r.value].updatedAt >= now - RecencyWindowMs
    ensures r.Some? ==> forall j :: 0 <= j < |apps| && RecentAt(userId, company, now)(apps[j]) ==>
      apps[j].updatedAt <= apps[r.value].updatedAt
    ensures r.None? <==> forall j :: 0 <= j < |apps| ==>
      !(apps[j].userId == userId && EqualsIgnoreCase(apps[j].company, company) && apps[j].updatedAt >= now - RecencyWindowMs)
  {
    MaxWhere(apps, RecentAt(userId, company, now), UpdatedAt)
  }

  /** The company of a new application: the trimmed inferred company when
      that is not blank, else the sender's domain part, else "Unknown". */
  function CompanyGuess(inferredCompany: Option<string>, fromEmail: Option<string>): (r: string)
    ensures r != ""
    ensures inferredCompany.Some? && Trim(inferredCompany.value) != "" ==> r == Trim(inferredCompany.value)
    ensures r == "Unknown" || (inferredCompany.Some? && r == Trim(inferredCompany.value)) || DomainFromEmail(fromEmail) == Some(r)
    ensures inferredCompany.None? || Trim(inferredCompany.value) == "" ==> r == DomainFromEmail(fromEmail).GetOr("Unknown")
  {
    if inferredCompany.Some? && Trim(inferredCompany.value) != "" then Trim(inferredCompany.value)
    else match DomainFromEmail(fromEmail)
      case Some(d) => d
      case None => "Unknown"
  }

  /** The role of a new application: the trimmed inferred role when that is
      not blank, else "Unknown". */
  function RoleGuess(inferredRole: Option<string>): (r: string)
    ensures r != ""
    ensures inferredRole.Some? && Trim(inferredRole.value) != "" ==> r == Trim(inferredRole.value)
    ensures r == "Unknown" || (inferredRole.Some? && r == Trim(inferredRole.value))
  {
    if inferredRole.Some? && Trim(inferredRole.value) != "" then Trim(inferredRole.value) else "Unknown"
  }

  /** The existing application an ingested email goes to, if any: the thread
      lookup, else the recent-company fallback. */
  function Resolve(emails: seq<Email>, apps: seq<Application>, userId: Id, req: IngestRequest, now: int): (m: Option<nat>)
    ensures m.Some? ==> m.value < |apps| && apps[m.value].userId == userId
  {
    var byThread := FindByThread(emails, apps, userId, req.inReplyTo, req.references, req.providerThreadId);
    if byThread.Some? then byThread
    else FindRecentByCompany(apps, userId, CompanyGuess(req.inferredCompany, FromEmail(req)), now)
  }

  // ---------------------------------------------------------------------
  // The handler, step by step

  /** The email table after step one, the idempotent upsert: the user's
      stored copy of the email is rewritten (its link kept), or a new
      unlinked row with id `freshId` is appended. */
  ghost function AfterUpsert(before: seq<Email>, freshId: Id, userId: Id, req: IngestRequest): seq<Email>
    requires !MissingFields(req)
  {
    Staged(before, FindExistingEmail(before, userId, req.messageId, req.providerMessageId), userId, ContentOf(req), freshId)
  }

  /** The position of the upserted row. */
  ghost function UpsertPosition(before: seq<Email>, userId: Id, req: IngestRequest): nat
  {
    var k := FindExistingEmail(before, userId, req.messageId, req.providerMessageId);
    if k.Some? then k.value else |before|
  }

  /** The email table and id counter after step one; `ei` is the upserted
      row's position, and a fresh id is used only for a new row. */
  ghost predicate Upserted(before: seq<Email>, idBefore: nat, userId: Id, req: IngestRequest,
                           after: seq<Email>, ei: nat, idAfter: nat)
    requires !MissingFields(req)
  {
    var k := FindExistingEmail(before, userId, req.messageId, req.providerMessageId);
    && after == AfterUpsert(before, idBefore, userId, req)
    && ei == UpsertPosition(before, userId, req)
    && idAfter == (if k.Some? then idBefore else idBefore + 1)
  }

  /** The application table and id counter after step two: the application
      Resolve finds is kept as it is, or else one is appended with a fresh
      id, the guessed company and role, the desired status and the send
      time as last activity; `ai` is its position. */
  ghost predicate Resolved(emails: seq<Email>, userId: Id, req: IngestRequest, now: int,
                           appsBefore: seq<Application>, idBefore: nat,
                           ai: nat, appsAfter: seq<Application>, idAfter: nat)
    requires !MissingFields(req)
  {
    var m := Resolve(emails, appsBefore, userId, req, now);
    && (m.Some? ==> ai == m.value && appsAfter == appsBefore && idAfter == idBefore)
    && (m.None? ==>
          && ai == |appsBefore|
          && idAfter == idBefore + 1
          && appsAfter == appsBefore + [Application(idBefore, userId,
               CompanyGuess(req.inferredCompany, FromEmail(req)), RoleGuess(req.inferredRole),
               ToStatus(req.classification), Some(req.sentAt.value), now, now)])
  }

  /** The application table, event log and id counter after step four: the
      application at `ai` takes the desired status, the send time as last
      activity and `now` as update time, and a change of status is logged
      first as one "auto" event with a fresh id. */
  ghost predicate Transitioned(appsBefore: seq<Application>, eventsBefore: seq<StatusEvent>, idBefore: nat,
                               ai: nat, desired: Status, sentAt: int, now: int, changed: bool,
                               appsAfter: seq<Application>, eventsAfter: seq<StatusEvent>, idAfter: nat)
    requires ai < |appsBefore|
  {
    var a := appsBefore[ai];
    && changed == (a.status != desired)
    && appsAfter == appsBefore[ai := a.(status := desired, lastActivityAt := Some(sentAt), updatedAt := now)]
    && eventsAfter == eventsBefore + (if changed then [StatusEvent(idBefore, a.id, Some(a.status), desired, Auto, now)] else [])
    && idAfter == idBefore + (if changed then 1 else 0)
  }

  /** Step one, the idempotent upsert of the email row. */
  method UpsertEmail(db: Store, userId: Id, req: IngestRequest) returns (ei: nat)
    requires db.Valid()
    requires !MissingFields(req)
    modifies db`emails, db`nextId
    ensures db.Valid()
    ensures Upserted(old(db.emails), old(db.nextId), userId, req, db.emails, ei, db.nextId)
    ensures ei < |db.emails|
  {
    var content := ContentOf(req);
    var k := FindExistingEmail(db.emails, userId, req.messageId, req.providerMessageId);
    if k.None? {
      var e := db.CreateEmail(userId, None, content);
      ei := |db.emails| - 1;
    } else {
      ei := k.value;
      db.UpdateEmail(ei, db.emails[ei].(userId := userId, content := content));
    }
  }

  /** Step two: the application the email belongs to, found or created. */
  method ResolveOrCreate(db: Store, userId: Id, req: IngestRequest, now: int) returns (ai: nat)
    requires db.Valid()
    requires !MissingFields(req)
    modifies db`apps, db`nextId
    ensures db.Valid()
    ensures Resolved(db.emails, userId, req, now, old(db.apps), old(db.nextId), ai, db.apps, db.nextId)
    ensures ai < |db.apps| && db.apps[ai].userId == userId
  {
    var m := FindByThread(db.emails, db.apps, userId, req.inReplyTo, req.references, req.providerThreadId);
    var company := CompanyGuess(req.inferredCompany, FromEmail(req));
    if m.None? {
      m := FindRecentByCompany(db.apps, userId, company, now);
    }
    if m.None? {
      var a := db.CreateApplication(userId, company, RoleGuess(req.inferredRole),
                                    ToStatus(req.classification), Some(req.sentAt.value), now);
      ai := |db.apps| - 1;
    } else {
      ai := m.value;
    }
  }

  /** Step three: the email row points at the application (rewritten only
      when it does not already). */
  method LinkEmail(db: Store, ei: nat, appId: Id)
    requires db.Valid()
    requires ei < |db.emails|
    modifies db`emails
    ensures db.Valid()
    ensures db.emails == old(db.emails)[ei := old(db.emails)[ei].(applicationId := Some(appId))]
  {
    if db.emails[ei].applicationId != Some(appId) {
      db.UpdateEmail(ei, db.emails[ei].(applicationId := Some(appId)));
    }
  }

  /** Step four: the application takes the desired status, a change being
      logged first. Returns whether the status changed. */
  method Transition(db: Store, ai: nat, desired: Status, sentAt: int, now: int) returns (changed: bool)
    requires db.Valid()
    requires ai < |db.apps|
    modifies db`apps, db`events, db`nextId
    ensures db.Valid()
    ensures Transitioned(old(db.apps), old(db.events), old(db.nextId), ai, desired, sentAt, now, changed,
                         db.apps, db.events, db.nextId)
  {
    var app := db.apps[ai];
    changed := false;
    if desired != app.status {
      var ev := db.CreateStatusEvent(app.id, Some(app.status), desired, Auto, now);
      db.UpdateApplication(ai, app.(status := desired, lastActivityAt := Some(sentAt), updatedAt := now));
      changed := true;
    } else {
      db.UpdateApplication(ai, app.(lastActivityAt := Some(sentAt), updatedAt := now));
    }
  }

  /** The email table after a successful ingestion: the request's row,
      upserted as AfterUpsert says, now points at application `appId`. */
  ghost predicate EmailsAfterIngest(before: seq<Email>, freshId: Id, userId: Id, req: IngestRequest,
                                    after: seq<Email>, emailId: Id, appId: Id)
    requires !MissingFields(req)
  {
    var staged := AfterUpsert(before, freshId, userId, req);
    var ei := UpsertPosition(before, userId, req);
    && ei < |staged|
    && emailId == staged[ei].id
    && after == staged[ei := staged[ei].(applicationId := Some(appId))]
  }

  /** The application table and the event log after a successful ingestion,
      `staged` being the email table after the upsert and `freshId` a bound
      no id in use reaches. The application Resolve finds takes the desired
      status and the send time as last activity, and a change of status is
      logged as one "auto" event with a fresh id; when Resolve finds none,
      a new application with a fresh id is appended that already has the
      desired status, so no event is written. */
  ghost predicate StatusAfterIngest(staged: seq<Email>, freshId: Id, userId: Id, req: IngestRequest, now: int,
                                    appsBefore: seq<Application>, eventsBefore: seq<StatusEvent>,
                                    appsAfter: seq<Application>, eventsAfter: seq<StatusEvent>,
                                    appId: Id, changed: bool, newStatus: Status)
    requires !MissingFields(req)
  {
    var m := Resolve(staged, appsBefore, userId, req, now);
    var desired := ToStatus(req.classification);
    var sentAt := req.sentAt.value;
    && newStatus == desired
    && (m.Some? ==>
          var a := appsBefore[m.value];
          && appId == a.id
          && changed == (a.status != desired)
          && appsAfter == appsBefore[m.value := a.(status := desired, lastActivityAt := Some(sentAt), updatedAt := now)]
          && (changed ==>
                && |eventsAfter| == |eventsBefore| + 1
                && eventsAfter[..|eventsBefore|] == eventsBefore
                && var ev := eventsAfter[|eventsBefore|];
                && ev.id >= freshId
                && ev == StatusEvent(ev.id, appId, Some(a.status), desired, Auto, now)))
    && (m.None? ==>
          && !changed
          && appId >= freshId
          && appsAfter == appsBefore + [Application(appId, userId,
               CompanyGuess(req.inferredCompany, FromEmail(req)), RoleGuess(req.inferredRole),
               desired, Some(sentAt), now, now)])
    && (!changed ==> eventsAfter == eventsBefore)
  }

  /** A weaker freshness bound is met too. */
  lemma FreshBelow(staged: seq<Email>, freshId: Id, lower: Id, userId: Id, req: IngestRequest, now: int,
                   appsBefore: seq<Application>, eventsBefore: seq<StatusEvent>,
                   appsAfter: seq<Application>, eventsAfter: seq<StatusEvent>,
                   appId: Id, changed: bool, newStatus: Status)
    requires !MissingFields(req) && lower <= freshId
    requires StatusAfterIngest(staged, freshId, userId, req, now, appsBefore, eventsBefore, appsAfter, eventsAfter,
                               appId, changed, newStatus)
    ensures StatusAfterIngest(staged, lower, userId, req, now, appsBefore, eventsBefore, appsAfter, eventsAfter,
                              appId, changed, newStatus)
  {
  }

  /** Steps two to four, for the email row at `ei`: resolve or create the
      application, link the email to it, and move it to the desired status. */
  method FileEmail(db: Store, userId: Id, req: IngestRequest, now: int, ei: nat)
    returns (appId: Id, changed: bool, newStatus: Status)
    requires db.Valid()
    requires !MissingFields(req)
    requires ei < |db.emails|
    modifies db`emails, db`apps, db`events, db`nextId
    ensures db.Valid()
    ensures db.emails == old(db.emails)[ei := old(db.emails)[ei].(applicationId := Some(appId))]
    ensures StatusAfterIngest(old(db.emails), old(db.nextId), userId, req, now,
                              old(db.apps), old(db.events), db.apps, db.events, appId, changed, newStatus)
  {
    ghost var staged, apps0, events0, id1 := db.emails, db.apps, db.events, db.nextId;
    var ai := ResolveOrCreate(db, userId, req, now);
    var app := db.apps[ai];
    ghost var apps1, id2 := db.apps, db.nextId;
    LinkEmail(db, ei, app.id);
    var desired := ToStatus(req.classification);
    changed := Transition(db, ai, desired, req.sentAt.value, now);
    appId, newStatus := app.id, db.apps[ai].status;
    StatusOfSteps(staged, id1, userId, req, now, apps0, events0, ai, apps1, id2, db.apps, db.events, db.nextId, changed);
  }

  /** The steps' results, composed: what FileEmail promises about the
      application table and the event log. */
  lemma StatusOfSteps(staged: seq<Email>, id1: nat, userId: Id, req: IngestRequest, now: int,
                      apps0: seq<Application>, events0: seq<StatusEvent>,
                      ai: nat, apps1: seq<Application>, id2: nat,
                      apps2: seq<Application>, events2: seq<StatusEvent>, id3: nat, changed: bool)
    requires !MissingFields(req)
    requires Resolved(staged, userId, req, now, apps0, id1, ai, apps1, id2)
    requires ai < |apps1|
    requires Transitioned(apps1, events0, id2, ai, ToStatus(req.classification), req.sentAt.value, now, changed,
                          apps2, events2, id3)
    ensures StatusAfterIngest(staged, id1, userId, req, now, apps0, events0, apps2, events2,
                              apps1[ai].id, changed, apps2[ai].status)
  {
  }

  /** Steps one to four for a request that passed validation. */
  method Ingest(db: Store, userId: Id, req: IngestRequest, now: int)
    returns (appId: Id, emailId: Id, changed: bool, newStatus: Status)
    requires db.Valid()
    requires !MissingIds(req) && !MissingFields(req)
    modifies db`emails, db`apps, db`events, db`nextId
    ensures db.Valid()
    ensures EmailsAfterIngest(old(db.emails), old(db.nextId), userId, req, db.emails, emailId, appId)
    ensures StatusAfterIngest(AfterUpsert(old(db.emails), old(db.nextId), userId, req), old(db.nextId), userId, req, now,
                              old(db.apps), old(db.events), db.apps, db.events, appId, changed, newStatus)
  {
    ghost var emails0, id0 := db.emails, db.nextId;
    var ei := UpsertEmail(db, userId, req);
    emailId := db.emails[ei].id;
    ghost var staged, id1 := db.emails, db.nextId;
    appId, changed, newStatus := FileEmail(db, userId, req, now, ei);
    FreshBelow(staged, id1, id0, userId, req, now, old(db.apps), old(db.events), db.apps, db.events, appId, changed, newStatus);
  }

  /** POST /events/email-ingested for the authenticated user `userId`;
      `now` is the clock reading the handler takes. A request without any
      message id, or without provider, send time or subject, is refused
      with 400 and changes nothing. */
  method HandleEmailIngested(db: Store, userId: Id, req: IngestRequest, now: int) returns (r: IngestResponse)
    requires db.Valid()
    modifies db`emails, db`apps, db`events, db`nextId
    ensures db.Valid()
    ensures r == BadRequest(MissingMessageIds) <==> MissingIds(req)
    ensures r == BadRequest(MissingProviderSentAtSubject) <==> !MissingIds(req) && MissingFields(req)
    ensures r.BadRequest? ==>
      db.emails == old(db.emails) && db.apps == old(db.apps) && db.events == old(db.events) && db.nextId == old(db.nextId)
    ensures r.Ok? ==> !MissingFields(req)
    ensures r.Ok? ==> EmailsAfterIngest(old(db.emails), old(db.nextId), userId, req, db.emails, r.emailId, r.applicationId)
    ensures r.Ok? ==> StatusAfterIngest(AfterUpsert(old(db.emails), old(db.nextId), userId, req), old(db.nextId),
                                        userId, req, now, old(db.apps), old(db.events),
                                        db.apps, db.events, r.applicationId, r.statusChanged, r.newStatus)
  {
    if MissingIds(req) {
      return BadRequest(MissingMessageIds);
    }
    if MissingFields(req) {
      return BadRequest(MissingProviderSentAtSubject);
    }
    var appId, emailId, changed, newStatus := Ingest(db, userId, req, now);
    r := Ok(appId, emailId, changed, newStatus);
  }

  /** Ingesting the same email again finds the row the first ingestion
      wrote, so the email table does not grow a second time. */
  lemma {:induction false} ReingestionFindsSameEmail(emails: seq<Email>, userId: Id, req: IngestRequest,
                                                     freshId: Id, appId: Id)
    requires !MissingIds(req) && !MissingFields(req)
    ensures
      var k := FindExistingEmail(emails, userId, req.messageId, req.providerMessageId);
      var staged := Staged(emails, k, userId, ContentOf(req), freshId);
      var ei := if k.Some? then k.value else |emails|;
      var linked := staged[ei := staged[ei].(applicationId := Some(appId))];
      FindExistingEmail(linked, userId, req.messageId, req.providerMessageId) == Some(ei)
  {
    var k := FindExistingEmail(emails, userId, req.messageId, req.providerMessageId);
    var staged := Staged(emails, k, userId, ContentOf(req), freshId);
    var ei := if k.Some? then k.value else |emails|;
    var linked := staged[ei := staged[ei].(applicationId := Some(appId))];
    assert |linked| == |emails| || |linked| == |emails| + 1;
    assert forall j :: 0 <= j < |linked| && j != ei ==> linked[j] == emails[j];
    assert linked[ei].userId == userId && linked[ei].content == ContentOf(req);
    var r := FindExistingEmail(linked, userId, req.messageId, req.providerMessageId);
    if Truthy(req.messageId) {
      var p := ByMessageId(userId, req.messageId.value);
      assert p(linked[ei]);
      var f := FirstWhere(linked, p);
      assert f.Some?;
      assert forall j :: 0 <= j < ei ==> linked[j] == emails[j] && !p(emails[j]);
      assert f == Some(ei);
    } else {
      var p := ByProviderMessageId(userId, req.providerMessageId.value);
      assert p(linked[ei]);
      var f := FirstWhere(linked, p);
      assert forall j :: 0 <= j < ei ==> linked[j] == emails[j] && !p(emails[j]);
      assert f == Some(ei);
    }
  }

  /** Idempotence: ingesting the same request a second time rewrites the row
      the first ingestion wrote; the email table keeps its size and the
      response names the same email. */
  lemma {:induction false} SecondIngestionAddsNoEmail(e0: seq<Email>, f0: Id, e1: seq<Email>, f1: Id, e2: seq<Email>,
                                                      userId: Id, req: IngestRequest,
                                                      email1: Id, app1: Id, email2: Id, app2: Id)
    requires !MissingIds(req) && !MissingFields(req)
    requires EmailsAfterIngest(e0, f0, userId, req, e1, email1, app1)
    requires EmailsAfterIngest(e1, f1, userId, req, e2, email2, app2)
    ensures |e2| == |e1|
    ensures email2 == email1
  {
    var k0 := FindExistingEmail(e0, userId, req.messageId, req.providerMessageId);
    var ei := if k0.Some? then k0.value else |e0|;
    ReingestionFindsSameEmail(e0, userId, req, f0, app1);
    assert FindExistingEmail(e1, userId, req.messageId, req.providerMessageId) == Some(ei);
  }

  // ---------------------------------------------------------------------
  // Re-ingestion through the thread lookup

  /** Application ids are unique, as the store keeps them. */
  predicate UniqueAppIds(apps: seq<Application>)
  {
    forall j, k :: 0 <= j < k < |apps| ==> apps[j].id != apps[k].id
  }

  /** Two application tables with the same ids and owners, row by row. */
  predicate SameKeys(apps: seq<Application>, apps2: seq<Application>)
  {
    |apps2| == |apps| && forall j :: 0 <= j < |apps| ==> apps2[j].id == apps[j].id && apps2[j].userId == apps[j].userId
  }

  /** The owned-application lookup reads only ids and owners. */
  lemma OwnedLookupStable(apps: seq<Application>, apps2: seq<Application>, id: Id, userId: Id)
    requires SameKeys(apps, apps2)
    ensures FirstWhere(apps2, OwnedWithId(id, userId)) == FirstWhere(apps, OwnedWithId(id, userId))
  {
    FirstWhereSameHits(apps, apps2, OwnedWithId(id, userId));
  }

  /** With unique ids, looking an owned application up by its id finds it. */
  lemma OwnedLookupFinds(apps: seq<Application>, i: nat, userId: Id)
    requires UniqueAppIds(apps) && i < |apps| && apps[i].userId == userId
    ensures FirstWhere(apps, OwnedWithId(apps[i].id, userId)) == Some(i)
  {
    assert OwnedWithId(apps[i].id, userId)(apps[i]);
  }

  /** One tier, after the row at `ei` is linked to application `i`: a tier
      that fell through still does, or now decides for `i`; a tier that
      decided for `i` still does. */
  lemma TierAfterRelink(emails: seq<Email>, apps: seq<Application>, apps2: seq<Application>, userId: Id,
                        hit: Email -> bool, ei: nat, i: nat)
    requires ei < |emails| && i < |apps| && apps[i].userId == userId
    requires UniqueAppIds(apps) && SameKeys(apps, apps2)
    requires forall j :: 0 <= j < |emails| ==>
      hit(emails[ei := emails[ei].(applicationId := Some(apps[i].id))][j]) == hit(emails[j])
    requires Tier(emails, apps, userId, hit) == FallThrough || Tier(emails, apps, userId, hit) == Decided(Some(i))
    ensures var linked := emails[ei := emails[ei].(applicationId := Some(apps[i].id))];
      && (Tier(linked, apps2, userId, hit) == FallThrough || Tier(linked, apps2, userId, hit) == Decided(Some(i)))
      && (Tier(emails, apps, userId, hit) == Decided(Some(i)) ==> Tier(linked, apps2, userId, hit) == Decided(Some(i)))
  {
    var linked := emails[ei := emails[ei].(applicationId := Some(apps[i].id))];
    FirstWhereSameHits(emails, linked, hit);
    OwnedLookupFinds(apps, i, userId);
    OwnedLookupStable(apps, apps2, apps[i].id, userId);
    match FirstWhere(emails, hit)
    case None =>
    case Some(k) =>
      if k != ei && emails[k].applicationId.Some? {
        OwnedLookupStable(apps, apps2, emails[k].applicationId.value, userId);
      }
  }

  /** Linking the upserted row to the application the thread lookup found
      leaves the lookup's answer unchanged, also when that application is
      updated in place (same ids and owners). */
  lemma ThreadHitStable(emails: seq<Email>, apps: seq<Application>, apps2: seq<Application>, userId: Id,
                        inReplyTo: Option<string>, refs: seq<string>, threadId: Option<string>, ei: nat, i: nat)
    requires ei < |emails| && UniqueAppIds(apps) && SameKeys(apps, apps2)
    requires FindByThread(emails, apps, userId, inReplyTo, refs, threadId) == Some(i)
    ensures FindByThread(emails[ei := emails[ei].(applicationId := Some(apps[i].id))], apps2, userId, inReplyTo, refs, threadId)
         == Some(i)
  {
    var linked := emails[ei := emails[ei].(applicationId := Some(apps[i].id))];
    assert forall j :: 0 <= j < |emails| ==> linked[j].userId == emails[j].userId && linked[j].content == emails[j].content;
    var t1 := if Truthy(inReplyTo) then Tier(emails, apps, userId, RepliedTo(userId, inReplyTo.value)) else FallThrough;
    var t2 := if refs != [] then Tier(emails, apps, userId, Referenced(userId, refs)) else FallThrough;
    if Truthy(inReplyTo) {
      TierAfterRelink(emails, apps, apps2, userId, RepliedTo(userId, inReplyTo.value), ei, i);
    }
    if t1 == FallThrough && refs != [] {
      TierAfterRelink(emails, apps, apps2, userId, Referenced(userId, refs), ei, i);
    }
    if t1 == FallThrough && t2 == FallThrough && Truthy(threadId) {
      TierAfterRelink(emails, apps, apps2, userId, InThread(userId, threadId.value), ei, i);
    }
  }

  /** Idempotence through the thread lookup: when the first ingestion found
      its application through the email thread, ingesting the same request
      again leaves the email table as it was, answers the same email and
      application, and writes no status event. */
  lemma SecondIngestionSameApplication(e0: seq<Email>, f0: Id, a0: seq<Application>, v0: seq<StatusEvent>,
                                       userId: Id, req: IngestRequest, now1: int, now2: int,
                                       e1: seq<Email>, a1: seq<Application>, v1: seq<StatusEvent>,
                                       email1: Id, app1: Id, changed1: bool, st1: Status, f1: Id,
                                       e2: seq<Email>, a2: seq<Application>, v2: seq<StatusEvent>,
                                       email2: Id, app2: Id, changed2: bool, st2: Status)
    requires !MissingIds(req) && !MissingFields(req) && UniqueAppIds(a0)
    requires FindByThread(AfterUpsert(e0, f0, userId, req), a0, userId, req.inReplyTo, req.references,
                          req.providerThreadId).Some?
    requires EmailsAfterIngest(e0, f0, userId, req, e1, email1, app1)
    requires StatusAfterIngest(AfterUpsert(e0, f0, userId, req), f0, userId, req, now1, a0, v0, a1, v1,
                               app1, changed1, st1)
    requires EmailsAfterIngest(e1, f1, userId, req, e2, email2, app2)
    requires StatusAfterIngest(AfterUpsert(e1, f1, userId, req), f1, userId, req, now2, a1, v1, a2, v2,
                               app2, changed2, st2)
    ensures e2 == e1 && email2 == email1
    ensures app2 == app1 && !changed2 && v2 == v1 && |a2| == |a1|
  {
    var staged0 := AfterUpsert(e0, f0, userId, req);
    var ei := UpsertPosition(e0, userId, req);
    var i := FindByThread(staged0, a0, userId, req.inReplyTo, req.references, req.providerThreadId).value;
    ThreadResolved(staged0, f0, userId, req, now1, a0, v0, a1, v1, app1, changed1, st1);
    ReupsertKeepsEmails(e0, f0, userId, req, e1, email1, app1, f1);
    ThreadHitStable(staged0, a0, a1, userId, req.inReplyTo, req.references, req.providerThreadId, ei, i);
    assert Resolve(e1, a1, userId, req, now2) == Some(i);
    SecondIngestionAddsNoEmail(e0, f0, e1, f1, e2, userId, req, email1, app1, email2, app2);
  }

  /** An ingestion that found its application through the thread updates that
      application in place, to the desired status. */
  lemma ThreadResolved(staged: seq<Email>, freshId: Id, userId: Id, req: IngestRequest, now: int,
                       a0: seq<Application>, v0: seq<StatusEvent>, a1: seq<Application>, v1: seq<StatusEvent>,
                       appId: Id, changed: bool, newStatus: Status)
    requires !MissingFields(req)
    requires FindByThread(staged, a0, userId, req.inReplyTo, req.references, req.providerThreadId).Some?
    requires StatusAfterIngest(staged, freshId, userId, req, now, a0, v0, a1, v1, appId, changed, newStatus)
    ensures var i := FindByThread(staged, a0, userId, req.inReplyTo, req.references, req.providerThreadId).value;
      && i < |a0| && appId == a0[i].id && SameKeys(a0, a1) && a1[i].status == ToStatus(req.classification)
  {
    var i := FindByThread(staged, a0, userId, req.inReplyTo, req.references, req.providerThreadId).value;
    assert Resolve(staged, a0, userId, req, now) == Some(i);
  }

  /** After an ingestion, the upsert of the same request finds the row it
      wrote and rewrites it with the content it already has. */
  lemma ReupsertKeepsEmails(e0: seq<Email>, f0: Id, userId: Id, req: IngestRequest,
                            e1: seq<Email>, emailId: Id, appId: Id, f1: Id)
    requires !MissingIds(req) && !MissingFields(req)
    requires EmailsAfterIngest(e0, f0, userId, req, e1, emailId, appId)
    ensures UpsertPosition(e1, userId, req) == UpsertPosition(e0, userId, req)
    ensures AfterUpsert(e1, f1, userId, req) == e1
  {
    ReingestionFindsSameEmail(e0, userId, req, f0, appId);
  }
}
