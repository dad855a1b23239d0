/** The decision logic of the drag-and-drop status board: the grouping of
    applications into one column per status, and what dropping a card on
    a column does. */
module Board {
  import opened Records
  import opened Tables

  /** A column of the board: the applications with status `s`, most
      recently updated first. It is sorted, holds each application with that
      status as often as the list does and nothing else, so no application
      is in two columns. */
  function Column(apps: seq<Application>, s: Status): (r: seq<Application>)
    ensures SortedDesc(r, UpdatedAt)
    ensures forall a :: multiset(r)[a] == if a.status == s then multiset(apps)[a] else 0
    ensures forall a :: a in r ==> a.status == s
  {
    SortDesc(Filter(apps, HasStatus(s)), UpdatedAt)
  }

  lemma {:induction false} FilterSizes(apps: seq<Application>)
    ensures |Filter(apps, HasStatus(Applied))| + |Filter(apps, HasStatus(Interviewing))|
          + |Filter(apps, HasStatus(Rejected))| + |Filter(apps, HasStatus(Offer))|
          + |Filter(apps, HasStatus(Other))| == |apps|
  {
    if apps != [] {
      FilterSizes(apps[..|apps| - 1]);
      LastCounted(apps, Applied);
      LastCounted(apps, Interviewing);
      LastCounted(apps, Rejected);
      LastCounted(apps, Offer);
      LastCounted(apps, Other);
      match apps[|apps| - 1].status
      case Applied => case Interviewing => case Rejected => case Offer => case Other =>
    }
  }

  lemma LastCounted(apps: seq<Application>, s: Status)
    requires apps != []
    ensures |Filter(apps, HasStatus(s))|
         == |Filter(apps[..|apps| - 1], HasStatus(s))| + if apps[|apps| - 1].status == s then 1 else 0
  {
  }

  /** The five columns hold exactly the applications: their sizes add up to
      the number of applications. */
  lemma BucketSizes(apps: seq<Application>)
    ensures |Column(apps, Applied)| + |Column(apps, Interviewing)| + |Column(apps, Rejected)|
          + |Column(apps, Offer)| + |Column(apps, Other)| == |apps|
  {
    FilterSizes(apps);
  }

  lemma FilterSnoc(s: seq<Application>, x: Application, p: Application -> bool)
    ensures Filter(s + [x], p) == Filter(s, p) + (if p(x) then [x] else [])
  {
    assert (s + [x])[..|s|] == s;
  }

  lemma StatusListed(s: Status)
    ensures s in Statuses
  {
    match s
    case Applied => case Interviewing => case Rejected => case Offer => case Other =>
  }

  /** The board after the applications of `prefix` have been pushed onto
      their columns, in list order. */
  ghost predicate Bucketed(board: map<Status, seq<Application>>, prefix: seq<Application>)
  {
    forall s :: s in board && board[s] == Filter(prefix, HasStatus(s))
  }

  /** The board before any application is placed: every column empty. */
  const EmptyColumns: map<Status, seq<Application>> := map[Applied := [], Interviewing := [], Rejected := [], Offer := [], Other := []]

  lemma EmptyBoard(apps: seq<Application>)
    ensures Bucketed(EmptyColumns, apps[..0])
  {
    forall s ensures s in EmptyColumns {
      StatusListed(s);
    }
  }

  /** The column of `a`'s status with `a` pushed onto its end. */
  function Push(board: map<Status, seq<Application>>, a: Application): seq<Application>
    requires a.status in board
  {
    board[a.status] + [a]
  }

  lemma PrefixSnoc(apps: seq<Application>, i: nat)
    requires i < |apps|
    ensures apps[..i + 1] == apps[..i] + [apps[i]]
  {
  }

  lemma ColumnStep(board: map<Status, seq<Application>>, apps: seq<Application>, i: nat, s: Status)
    requires i < |apps| && apps[i].status in board && s in board
    requires board[s] == Filter(apps[..i], HasStatus(s))
    ensures board[apps[i].status := Push(board, apps[i])][s] == Filter(apps[..i + 1], HasStatus(s))
  {
    PrefixSnoc(apps, i);
    FilterSnoc(apps[..i], apps[i], HasStatus(s));
  }

  lemma BucketStep(board: map<Status, seq<Application>>, apps: seq<Application>, i: nat)
    requires i < |apps| && Bucketed(board, apps[..i])
    ensures apps[i].status in board
    ensures Bucketed(board[apps[i].status := Push(board, apps[i])], apps[..i + 1])
  {
    forall s ensures board[apps[i].status := Push(board, apps[i])][s] == Filter(apps[..i + 1], HasStatus(s)) {
      ColumnStep(board, apps, i, s);
    }
  }

  /** The board part-way through sorting the columns `buckets` holds: the
      first `n` columns of `Statuses` are sorted, the others are as built. */
  ghost predicate Arranged(board: map<Status, seq<Application>>, buckets: map<Status, seq<Application>>, n: nat)
  {
    forall j :: 0 <= j < |Statuses| ==>
      Statuses[j] in board && Statuses[j] in buckets &&
      board[Statuses[j]] == if j < n then SortDesc(buckets[Statuses[j]], UpdatedAt) else buckets[Statuses[j]]
  }

  lemma Unsorted(board: map<Status, seq<Application>>)
    requires forall s :: s in board
    ensures Arranged(board, board, 0)
  {
  }

  lemma StatusesDistinct(i: nat, j: nat)
    requires i < |Statuses| && j < |Statuses| && i != j
    ensures Statuses[i] != Statuses[j]
  {
  }

  lemma SortStep(board: map<Status, seq<Application>>, buckets: map<Status, seq<Application>>, n: nat)
    requires n < |Statuses| && Arranged(board, buckets, n)
    ensures Arranged(board[Statuses[n] := SortDesc(board[Statuses[n]], UpdatedAt)], buckets, n + 1)
  {
    var next := board[Statuses[n] := SortDesc(board[Statuses[n]], UpdatedAt)];
    forall j | 0 <= j < |Statuses|
      ensures Statuses[j] in next
      ensures next[Statuses[j]] == if j < n + 1 then SortDesc(buckets[Statuses[j]], UpdatedAt) else buckets[Statuses[j]]
    {
      if j != n {
        StatusesDistinct(j, n);
        assert next[Statuses[j]] == board[Statuses[j]];
      }
    }
  }

  lemma AllSorted(board: map<Status, seq<Application>>, buckets: map<Status, seq<Application>>)
    requires forall s :: s in buckets
    requires Arranged(board, buckets, |Statuses|)
    ensures forall s :: s in board && board[s] == SortDesc(buckets[s], UpdatedAt)
  {
    forall s ensures s in board && board[s] == SortDesc(buckets[s], UpdatedAt) {
      StatusListed(s);
      var j :| 0 <= j < |Statuses| && Statuses[j] == s;
    }
  }

  /** The second loop of `groupByStatus`: every column sorted, most recently
      updated first. */
  method SortColumns(buckets: map<Status, seq<Application>>) returns (board: map<Status, seq<Application>>)
    requires forall s :: s in buckets
    ensures forall s :: s in board && board[s] == SortDesc(buckets[s], UpdatedAt)
  {
    board := buckets;
    Unsorted(board);
    for n := 0 to |Statuses|
      invariant Arranged(board, buckets, n)
    {
      SortStep(board, buckets, n);
      board := board[Statuses[n] := SortDesc(board[Statuses[n]], UpdatedAt)];
    }
    AllSorted(board, buckets);
  }

  lemma SortedBuckets(board: map<Status, seq<Application>>, buckets: map<Status, seq<Application>>, apps: seq<Application>)
    requires Bucketed(buckets, apps)
    requires forall s :: s in board && board[s] == SortDesc(buckets[s], UpdatedAt)
    ensures forall s :: s in board && board[s] == Column(apps, s)
    ensures |board[Applied]| + |board[Interviewing]| + |board[Rejected]| + |board[Offer]| + |board[Other]| == |apps|
  {
    BucketSizes(apps);
  }

  /** `groupByStatus`: one column per status, every status present (empty
      when no application has it); the columns together hold every
      application exactly once. */
  method GroupByStatus(apps: seq<Application>) returns (board: map<Status, seq<Application>>)
    ensures forall s :: s in board && board[s] == Column(apps, s)
    ensures |board[Applied]| + |board[Interviewing]| + |board[Rejected]| + |board[Offer]| + |board[Other]| == |apps|
  {
    var buckets := EmptyColumns;
    EmptyBoard(apps);
    for i := 0 to |apps|
      invariant Bucketed(buckets, apps[..i])
    {
      BucketStep(buckets, apps, i);
      buckets := buckets[apps[i].status := Push(buckets, apps[i])];
    }
    assert apps[..|apps|] == apps;
    board := SortColumns(buckets);
    SortedBuckets(board, buckets, apps);
  }

  /** The end of a drag: the card's application id and the status column it
      was dropped on, if any. */
  datatype DragEnd = DragEnd(activeId: Id, over: Option<Status>)

  /** The request the board then makes: set this application's status. */
  datatype StatusUpdate = StatusUpdate(appId: Id, to: Status)

  function WithId(id: Id): Application -> bool
  {
    (a: Application) => a.id == id
  }

  /** Whether a drop changes a status. Nothing happens without a target
      column, for a card whose application is not on the board, or when the
      target is the status the application already has; otherwise exactly
      one update is made, for that application and the target status. */
  function OnDragEnd(apps: seq<Application>, evt: DragEnd): (r: Option<StatusUpdate>)
    ensures r.Some? <==>
      && evt.over.Some?
      && exists i :: 0 <= i < |apps| && apps[i].id == evt.activeId && apps[i].status != evt.over.value &&
           forall j :: 0 <= j < i ==> apps[j].id != evt.activeId
    ensures r.Some? ==> r.value == StatusUpdate(evt.activeId, evt.over.value)
  {
    if evt.over.None? then None
    else
      match FirstWhere(apps, WithId(evt.activeId))
      case None => None
      case Some(i) =>
        if apps[i].status != evt.over.value then Some(StatusUpdate(evt.activeId, evt.over.value)) else None
  }
}
