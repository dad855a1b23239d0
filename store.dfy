/** The relational store the API talks to, as four tables in insertion
    order plus the source of fresh ids. Rows are created by appending and
    updated in place by position; nothing is ever deleted. */
module Store {
  import opened Records

  class Store {
    var users: seq<User>
    var emails: seq<Email>
    var apps: seq<Application>
    var events: seq<StatusEvent>
    /** Every id below this one has been handed out. */
    var nextId: nat

    /** Ids are unique within each table and all below `nextId`, and the
        `email` column of users is unique (the lookup key of the auth step). */
    ghost predicate Valid()
      reads this
    {
      && (forall i :: 0 <= i < |users| ==> users[i].id < nextId)
      && (forall i :: 0 <= i < |emails| ==> emails[i].id < nextId)
      && (forall i :: 0 <= i < |apps| ==> apps[i].id < nextId)
      && (forall i :: 0 <= i < |events| ==> events[i].id < nextId)
      && (forall i, j :: 0 <= i < j < |users| ==> users[i].id != users[j].id && users[i].email != users[j].email)
      && (forall i, j :: 0 <= i < j < |emails| ==> emails[i].id != emails[j].id)
      && (forall i, j :: 0 <= i < j < |apps| ==> apps[i].id != apps[j].id)
      && (forall i, j :: 0 <= i < j < |events| ==> events[i].id != events[j].id)
    }

    constructor ()
      ensures Valid()
      ensures users == [] && emails == [] && apps == [] && events == []
    {
      users, emails, apps, events := [], [], [], [];
      nextId := 0;
    }

    /** `user.create`: a new user row. The email column is unique, so the
        caller must have looked the email up first. */
    method CreateUser(email: string) returns (user: User)
      requires Valid()
      requires forall i :: 0 <= i < |users| ==> users[i].email != email
      modifies this`users, this`nextId
      ensures Valid()
      ensures user == User(old(nextId), email)
      ensures users == old(users) + [user] && nextId == old(nextId) + 1
    {
      user := User(nextId, email);
      users := users + [user];
      nextId := nextId + 1;
    }

    /** `email.create`: a new row with a fresh id. */
    method CreateEmail(userId: Id, applicationId: Option<Id>, content: EmailContent) returns (e: Email)
      requires Valid()
      modifies this`emails, this`nextId
      ensures Valid()
      ensures e == Email(old(nextId), userId, applicationId, content)
      ensures emails == old(emails) + [e] && nextId == old(nextId) + 1
    {
      e := Email(nextId, userId, applicationId, content);
      emails := emails + [e];
      nextId := nextId + 1;
    }

    /** `email.update`: row `i` is replaced; its id stays. */
    method UpdateEmail(i: nat, e: Email)
      requires Valid()
      requires i < |emails| && e.id == emails[i].id
      modifies this`emails
      ensures Valid()
      ensures emails == old(emails)[i := e]
    {
      emails := emails[i := e];
    }

    /** `application.create`: a new row with a fresh id, created and
        updated at `now`. */
    method CreateApplication(userId: Id, company: string, roleTitle: string, status: Status,
                             lastActivityAt: Option<int>, now: int) returns (a: Application)
      requires Valid()
      modifies this`apps, this`nextId
      ensures Valid()
      ensures a == Application(old(nextId), userId, company, roleTitle, status, lastActivityAt, now, now)
      ensures apps == old(apps) + [a] && nextId == old(nextId) + 1
    {
      a := Application(nextId, userId, company, roleTitle, status, lastActivityAt, now, now);
      apps := apps + [a];
      nextId := nextId + 1;
    }

    /** `application.update`: row `i` is replaced; its id stays. */
    method UpdateApplication(i: nat, a: Application)
      requires Valid()
      requires i < |apps| && a.id == apps[i].id
      modifies this`apps
      ensures Valid()
      ensures apps == old(apps)[i := a]
    {
      apps := apps[i := a];
    }

    /** `statusEvent.create`: a new event with a fresh id, created at `now`. */
    method CreateStatusEvent(applicationId: Id, fromStatus: Option<Status>, toStatus: Status,
                             reason: Reason, now: int) returns (ev: StatusEvent)
      requires Valid()
      modifies this`events, this`nextId
      ensures Valid()
      ensures ev == StatusEvent(old(nextId), applicationId, fromStatus, toStatus, reason, now)
      ensures events == old(events) + [ev] && nextId == old(nextId) + 1
    {
      ev := StatusEvent(nextId, applicationId, fromStatus, toStatus, reason, now);
      events := events + [ev];
      nextId := nextId + 1;
    }
  }
}
