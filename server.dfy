/** The REST surface around the store: the header-based identification of
    the caller, the listing and detail lookups scoped to that caller, and
    the manual status change. */
module Server {
  import opened Records
  import opened Tables
  import opened Store

  // ---------------------------------------------------------------------
  // Identification: find or create the user named by `x-user-email`

  datatype AuthResult = Unauthorized | Authenticated(user: User)

  function WithEmail(email: string): User -> bool
  {
    (u: User) => u.email == email
  }

  /** The middleware in front of every route. A missing or empty header is
      refused with 401 and changes nothing; otherwise the user with that
      email is looked up and created when there is none. Afterwards that
      user is the one the lookup finds, so the next request creates nobody. */
  method Authenticate(db: Store, header: Option<string>) returns (r: AuthResult)
    requires db.Valid()
    modifies db`users, db`nextId
    ensures db.Valid()
    ensures r.Unauthorized? <==> !Truthy(header)
    ensures r.Unauthorized? ==> db.users == old(db.users) && db.nextId == old(db.nextId)
    ensures r.Authenticated? ==>
      && r.user.email == header.value
      && match FirstWhere(old(db.users), WithEmail(header.value))
         case Some(i) => r.user == old(db.users)[i] && db.users == old(db.users) && db.nextId == old(db.nextId)
         case None => r.user.id == old(db.nextId) && db.users == old(db.users) + [r.user]
    ensures r.Authenticated? ==>
      var found := FirstWhere(db.users, WithEmail(header.value));
      found.Some? && db.users[found.value] == r.user
  {
    if !Truthy(header) {
      return Unauthorized;
    }
    var email := header.value;
    var found := FirstWhere(db.users, WithEmail(email));
    if found.Some? {
      r := Authenticated(db.users[found.value]);
    } else {
      ghost var before := db.users;
      var user := db.CreateUser(email);
      assert forall j :: 0 <= j < |before| ==> db.users[j] == before[j] && !WithEmail(email)(db.users[j]);
      assert WithEmail(email)(db.users[|before|]);
      assert FirstWhere(db.users, WithEmail(email)) == Some(|db.users| - 1);
      r := Authenticated(user);
    }
  }

  /** Two requests with the same header: the second finds the user the
      first one found or created, and adds nobody. */
  method RepeatedAuthentication(db: Store, header: Option<string>) returns (first: AuthResult, second: AuthResult)
    requires db.Valid()
    requires Truthy(header)
    modifies db`users, db`nextId
    ensures db.Valid()
    ensures second == first
    ensures |db.users| <= |old(db.users)| + 1
  {
    first := Authenticate(db, header);
    ghost var between := db.users;
    second := Authenticate(db, header);
    assert db.users == between;
  }

  // ---------------------------------------------------------------------
  // GET /applications and GET /applications/:id

  /** The caller's applications, newest update first. */
  function ListApplications(apps: seq<Application>, userId: Id): (r: seq<Application>)
    ensures SortedDesc(r, UpdatedAt)
    ensures forall a :: multiset(r)[a] == if a.userId == userId then multiset(apps)[a] else 0
  {
    SortDesc(Filter(apps, OwnedBy(userId)), UpdatedAt)
  }

  datatype Detail = Missing | Found(app: Application, emails: seq<Email>, statusEvents: seq<StatusEvent>)

  /** One of the caller's applications with its timeline: its emails, latest
      sent first, and its status events, latest first. Missing (404) when no
      application has that id and belongs to the caller. */
  function ApplicationDetail(apps: seq<Application>, emails: seq<Email>, events: seq<StatusEvent>,
                             userId: Id, appId: Id): (r: Detail)
    ensures r.Missing? <==> forall i :: 0 <= i < |apps| ==> !(apps[i].id == appId && apps[i].userId == userId)
    ensures r.Found? ==> r.app in apps && r.app.id == appId && r.app.userId == userId
    ensures r.Found? ==> SortedDesc(r.emails, SentAt)
    ensures r.Found? ==> forall e :: multiset(r.emails)[e] == if e.applicationId == Some(appId) then multiset(emails)[e] else 0
    ensures r.Found? ==> SortedDesc(r.statusEvents, CreatedAt)
    ensures r.Found? ==> forall ev :: multiset(r.statusEvents)[ev] == if ev.applicationId == appId then multiset(events)[ev] else 0
  {
    match FirstWhere(apps, OwnedWithId(appId, userId))
    case None => Missing
    case Some(i) =>
      var app := apps[i];
      Found(app, SortDesc(Filter(emails, LinkedTo(app.id)), SentAt), SortDesc(Filter(events, EventOf(app.id)), CreatedAt))
  }

  // ---------------------------------------------------------------------
  // PATCH /applications/:id/status

  /** The body check: `status` must be one of the five names, exactly. */
  function ParseStatus(status: Option<string>): (r: Option<Status>)
    ensures forall t :: r == Some(t) <==> status == Some(Name(t))
  {
    if status == Some("APPLIED") then Some(Applied)
    else if status == Some("INTERVIEWING") then Some(Interviewing)
    else if status == Some("REJECTED") then Some(Rejected)
    else if status == Some("OFFER") then Some(Offer)
    else if status == Some("OTHER") then Some(Other)
    else None
  }

  datatype PatchResponse = InvalidStatus | NotFound | Updated(app: Application)

  /** A manual status change by the caller. An invalid status is refused
      with 400 and an application that is missing or not the caller's with
      404, both without any change. Setting the current status changes
      nothing at all; a different status is logged as one "manual" event and
      set, with `now` as last activity. */
  method PatchStatus(db: Store, userId: Id, appId: Id, status: Option<string>, now: int) returns (r: PatchResponse)
    requires db.Valid()
    modifies db`apps, db`events, db`nextId
    ensures db.Valid()
    ensures r.InvalidStatus? <==> ParseStatus(status).None?
    ensures r.NotFound? <==> ParseStatus(status).Some? && FirstWhere(old(db.apps), OwnedWithId(appId, userId)).None?
    ensures !r.Updated? ==> db.apps == old(db.apps) && db.events == old(db.events) && db.nextId == old(db.nextId)
    ensures r.Updated? ==>
      var i := FirstWhere(old(db.apps), OwnedWithId(appId, userId)).value;
      var a := old(db.apps)[i];
      var next := ParseStatus(status).value;
      && a.id == appId && a.userId == userId
      && (a.status == next ==> r.app == a && db.apps == old(db.apps) && db.events == old(db.events) && db.nextId == old(db.nextId))
      && (a.status != next ==>
            && db.apps == old(db.apps)[i := a.(status := next, lastActivityAt := Some(now), updatedAt := now)]
            && db.events == old(db.events) + [StatusEvent(old(db.nextId), a.id, Some(a.status), next, Manual, now)]
            && r.app == db.apps[i])
  {
    var parsed := ParseStatus(status);
    if parsed.None? {
      return InvalidStatus;
    }
    var next := parsed.value;
    var found := FirstWhere(db.apps, OwnedWithId(appId, userId));
    if found.None? {
      return NotFound;
    }
    var i := found.value;
    var appRec := db.apps[i];
    if appRec.status != next {
      var ev := db.CreateStatusEvent(appRec.id, Some(appRec.status), next, Manual, now);
      appRec := appRec.(status := next, lastActivityAt := Some(now), updatedAt := now);
      db.UpdateApplication(i, appRec);
    }
    r := Updated(appRec);
  }
}
