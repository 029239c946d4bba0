/** What the dashboard shows and asks for, over runs of the refresh protocol, in terms of the events alone. */
module RefreshView {
  import opened Basics
  import opened RefreshHook
  import D = Daemon

  // --- what the events say -----------------------------------------------------

  /** Mounted or not, by the last event that mounts or unmounts. */
  function MountedAt(start: bool, events: seq<Event>, k: nat): bool
    requires k <= |events|
  {
    if k == 0 then start
    else if events[k - 1].Mount? then true
    else if events[k - 1].Unmount? then false
    else MountedAt(start, events, k - 1)
  }

  /** The filter in force: the last one typed. */
  function QueryAt(start: string, events: seq<Event>, k: nat): string
    requires k <= |events|
  {
    if k == 0 then start
    else if events[k - 1].QueryChanged? then events[k - 1].query
    else QueryAt(start, events, k - 1)
  }

  /** Event `k` sends a request. */
  ghost predicate SentBy(h: Hook, events: seq<Event>, k: nat)
    requires k < |events|
  {
    match events[k]
    case Mount => true
    case OwnerRefresh => true
    case ActSucceeded(skipRefresh) => !skipRefresh && MountedAt(h.mounted, events, k)
    case PollTick => !HeldBack(events, k)
    case DebounceOver => !HeldBack(events, k)
    case QueryChanged(query) => query == "" && !HeldBack(events, k)
    case _ => false
  }

  /** The number of the latest request. */
  ghost function IssuedAt(h: Hook, events: seq<Event>, k: nat): nat
    requires k <= |events|
  {
    if k == 0 then h.latest else IssuedAt(h, events, k - 1) + (if SentBy(h, events, k - 1) then 1 else 0)
  }

  /** Event `k` brings the outcome of the latest request to a dashboard that is there to show it. */
  ghost predicate TakenAt(h: Hook, events: seq<Event>, k: nat)
    requires k < |events|
  {
    && (events[k].Succeeded? || events[k].Failed?)
    && MountedAt(h.mounted, events, k) && events[k].number == IssuedAt(h, events, k)
  }

  /** The outcome of this event is taken over. */
  predicate Takes(h: Hook, e: Event) {
    (e.Succeeded? || e.Failed?) && Current(h, e.number)
  }

  /** One event, as far as what the hook remembers. */
  lemma StepRemembers(h: Hook, e: Event)
    ensures var h' := React(h, e);
            && h'.mounted == (if e.Mount? then true else if e.Unmount? then false else h.mounted)
            && h'.query == (if e.QueryChanged? then e.query else h.query)
            && h'.past.asked == (if h'.latest != h.latest then h.past.asked + [h'.query] else h.past.asked)
            && h'.past.applied ==
               (if Takes(h, e) then h.past.applied + [Applied(e.number, e.Succeeded?)] else h.past.applied)
  {
    hide Headline;
  }

  /** One event, as far as what is shown. */
  lemma StepShows(h: Hook, e: Event)
    ensures var h' := React(h, e);
            && h'.servers == (if e.Succeeded? && Takes(h, e) then e.servers
                              else if e.ListGiven? && h.mounted then e.servers else h.servers)
            && h'.status == (if e.Succeeded? && Takes(h, e) then e.status else h.status)
            && h'.summary == (if !Takes(h, e) then h.summary
                              else if e.Succeeded? then Headline(e.status) else Offline)
  {
    hide Headline;
  }

  lemma StepReports(h: Hook, e: Event)
    ensures var h' := React(h, e);
            && h'.error == (if Takes(h, e) then if e.Succeeded? then None else Some(e.error)
                            else if e.ActStarted? then None
                            else if e.ActFailed? && h.mounted then Some(e.error) else h.error)
            && h'.busy == (if e.ActStarted? then Some(e.key)
                           else if e.ActEnded? && h.mounted then None else h.busy)
  {
    hide Headline;
  }

  lemma {:induction false} RunFollowsEvents(h: Hook, events: seq<Event>, k: nat)
    requires !h.acting && k <= |events|
    ensures After(h, events, k).mounted == MountedAt(h.mounted, events, k)
    ensures After(h, events, k).query == QueryAt(h.query, events, k)
    ensures After(h, events, k).latest == IssuedAt(h, events, k)
    decreases k
  {
    hide React, HeldBack;
    if k > 0 {
      RunFollowsEvents(h, events, k - 1);
      ActingIffHeldBack(h, events, k - 1);
      StepRemembers(After(h, events, k - 1), events[k - 1]);
      SendsExactly(After(h, events, k - 1), events[k - 1]);
    }
  }

  // --- the last to write -------------------------------------------------------

  /** What the last of the first `k` puts has put, or what was there at the start. */
  ghost function LastPut<T>(start: T, put: nat -> Option<T>, k: nat): T {
    if k == 0 then start else if put(k - 1).Some? then put(k - 1).value else LastPut(start, put, k - 1)
  }

  lemma {:induction false} LastPutIs<T>(start: T, put: nat -> Option<T>, j: nat, k: nat)
    requires j < k && put(j).Some? && forall m :: j < m < k ==> put(m).None?
    ensures LastPut(start, put, k) == put(j).value
    decreases k
  {
    if j < k - 1 {
      LastPutIs(start, put, j, k - 1);
    }
  }

  lemma {:induction false} NothingPut<T>(start: T, put: nat -> Option<T>, k: nat)
    requires forall m :: 0 <= m < k ==> put(m).None?
    ensures LastPut(start, put, k) == start
    decreases k
  {
    if k > 0 {
      NothingPut(start, put, k - 1);
    }
  }

  // --- what each event puts up -------------------------------------------------

  /** A list that is taken over, or handed to a mounted dashboard. */
  ghost function ListPut(h: Hook, events: seq<Event>): nat -> Option<seq<D.ServerInfo>> {
    (k: nat) =>
      if k >= |events| then None
      else if events[k].Succeeded? && TakenAt(h, events, k) then Some(events[k].servers)
      else if events[k].ListGiven? && MountedAt(h.mounted, events, k) then Some(events[k].servers)
      else None
  }

  ghost function StatusPut(h: Hook, events: seq<Event>): nat -> Option<Option<D.InterfaceStatus>> {
    (k: nat) =>
      if k < |events| && events[k].Succeeded? && TakenAt(h, events, k) then Some(events[k].status) else None
  }

  /** A success puts up the headline of its status, a failure that the daemon is out of reach. */
  ghost function SummaryPut(h: Hook, events: seq<Event>): nat -> Option<Summary> {
    (k: nat) =>
      if k >= |events| || !TakenAt(h, events, k) then None
      else Some(if events[k].Succeeded? then Headline(events[k].status) else Offline)
  }

  /** A success and the start of an action clear the error; a failure that is taken over and one of an action show
      theirs. */
  ghost function ErrorPut(h: Hook, events: seq<Event>): nat -> Option<Option<string>> {
    (k: nat) =>
      if k >= |events| then None
      else if TakenAt(h, events, k) then Some(if events[k].Succeeded? then None else Some(events[k].error))
      else if events[k].ActStarted? then Some(None)
      else if events[k].ActFailed? && MountedAt(h.mounted, events, k) then Some(Some(events[k].error))
      else None
  }

  /** The spinner of the latest action, until one ends. */
  ghost function BusyPut(h: Hook, events: seq<Event>): nat -> Option<Option<string>> {
    (k: nat) =>
      if k >= |events| then None
      else if events[k].ActStarted? then Some(Some(events[k].key))
      else if events[k].ActEnded? && MountedAt(h.mounted, events, k) then Some(None)
      else None
  }

  /** Over any run: the list is the last one taken over or handed in while mounted; the status is the last one taken
      over; the headline and the error are those of the last outcome or action that has a say; and the spinner is the
      latest action's. */
  lemma {:induction false} ShowsTheLast(h: Hook, events: seq<Event>, k: nat)
    requires !h.acting && k <= |events|
    ensures var now := After(h, events, k);
            && now.servers == LastPut(h.servers, ListPut(h, events), k)
            && now.status == LastPut(h.status, StatusPut(h, events), k)
            && now.summary == LastPut(h.summary, SummaryPut(h, events), k)
            && now.error == LastPut(h.error, ErrorPut(h, events), k)
            && now.busy == LastPut(h.busy, BusyPut(h, events), k)
    decreases k
  {
    hide React, Headline, HeldBack, MountedAt, IssuedAt;
    if k > 0 {
      ShowsTheLast(h, events, k - 1);
      RunFollowsEvents(h, events, k - 1);
      StepShows(After(h, events, k - 1), events[k - 1]);
      StepReports(After(h, events, k - 1), events[k - 1]);
    }
  }

  /** In particular the list that came with the last outcome taken over is the one shown, unless one was handed in
      since, however many older answers come in late. */
  lemma ShowsTheAnswer(h: Hook, events: seq<Event>, j: nat, k: nat)
    requires !h.acting && j < k <= |events| && events[j].Succeeded? && TakenAt(h, events, j)
    requires forall m :: j < m < k ==> !TakenAt(h, events, m) && !events[m].ListGiven?
    ensures var now := After(h, events, k);
            && now.servers == events[j].servers && now.status == events[j].status
            && now.summary == Headline(events[j].status)
  {
    hide Headline, TakenAt, After, MountedAt;
    ShowsTheLast(h, events, k);
    LastPutIs(h.servers, ListPut(h, events), j, k);
    LastPutIs(h.status, StatusPut(h, events), j, k);
    LastPutIs(h.summary, SummaryPut(h, events), j, k);
  }

  // --- what is asked -----------------------------------------------------------

  /** A request is sent with the filter in force when it is sent, and the number it gets says so for good. */
  lemma {:induction false} AskedWithTheFilter(h: Hook, events: seq<Event>, j: nat, k: nat)
    requires !h.acting && |h.past.asked| == h.latest && j < k <= |events| && SentBy(h, events, j)
    ensures var asked := After(h, events, k).past.asked;
            var n := IssuedAt(h, events, j + 1);
            |asked| == IssuedAt(h, events, k) && 1 <= n <= |asked| && asked[n - 1] == QueryAt(h.query, events, j + 1)
    decreases k
  {
    hide React, SentBy, QueryAt;
    AskedLength(h, events, k - 1);
    RunFollowsEvents(h, events, k - 1);
    RunFollowsEvents(h, events, k);
    StepRemembers(After(h, events, k - 1), events[k - 1]);
    if j < k - 1 {
      AskedWithTheFilter(h, events, j, k - 1);
    }
  }

  lemma {:induction false} AskedLength(h: Hook, events: seq<Event>, k: nat)
    requires |h.past.asked| == h.latest && k <= |events|
    ensures |After(h, events, k).past.asked| == After(h, events, k).latest
    decreases k
  {
    hide React;
    if k > 0 {
      AskedLength(h, events, k - 1);
      StepRemembers(After(h, events, k - 1), events[k - 1]);
      SendsExactly(After(h, events, k - 1), events[k - 1]);
    }
  }

  // --- what is taken over ------------------------------------------------------

  /** The outcomes taken over so far, by the events that brought them. */
  ghost function TakenBy(h: Hook, events: seq<Event>, k: nat): seq<Applied>
    requires k <= |events|
  {
    if k == 0 then h.past.applied
    else TakenBy(h, events, k - 1) +
         (if TakenAt(h, events, k - 1) then [Applied(events[k - 1].number, events[k - 1].Succeeded?)] else [])
  }

  /** Exactly the outcomes of the latest request that came to a mounted dashboard are taken over, each once, in
      order. */
  lemma {:induction false} TakesExactly(h: Hook, events: seq<Event>, k: nat)
    requires !h.acting && k <= |events|
    ensures After(h, events, k).past.applied == TakenBy(h, events, k)
    decreases k
  {
    hide React, HeldBack, MountedAt, IssuedAt;
    if k > 0 {
      TakesExactly(h, events, k - 1);
      RunFollowsEvents(h, events, k - 1);
      StepRemembers(After(h, events, k - 1), events[k - 1]);
    }
  }
}
