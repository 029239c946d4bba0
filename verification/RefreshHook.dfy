/** The dashboard's refresh protocol: requests that overlap, fail and come back late, under polls, filters and
    actions. */
module RefreshHook {
  import opened Basics
  import D = Daemon

  datatype Summary = Offline | Disconnected | Never | Stale | Connecting | Alive

  const OFFLINE_THRESHOLD: nat := 3

  // --- the headline ------------------------------------------------------------

  predicate Has(peers: seq<D.PeerStatus>, state: D.ConnState) {
    exists p :: p in peers && p.state == state
  }

  /** The best state of any peer: alive, else connecting, else stale, else never. */
  function Headline(status: Option<D.InterfaceStatus>): Summary {
    if status.None? then Disconnected
    else if Has(status.value.peers, D.Alive) then Alive
    else if Has(status.value.peers, D.Connecting) then Connecting
    else if Has(status.value.peers, D.Stale) then Stale
    else Never
  }

  lemma HasSnoc(peers: seq<D.PeerStatus>, peer: D.PeerStatus)
    ensures forall s :: Has(peers + [peer], s) <==> Has(peers, s) || peer.state == s
  {
    forall s ensures Has(peers + [peer], s) <==> Has(peers, s) || peer.state == s {
      if Has(peers, s) {
        var p :| p in peers && p.state == s;
        assert p in peers + [peer];
      }
      assert peer in peers + [peer];
    }
  }

  method Summarize(status: Option<D.InterfaceStatus>) returns (summary: Summary)
    ensures summary == Headline(status)
  {
    if status.None? {
      return Disconnected;
    }
    var peers := status.value.peers;
    summary := Never;
    for i := 0 to |peers|
      invariant !Has(peers[..i], D.Alive)
      invariant summary == Headline(Some(D.InterfaceStatus(status.value.listenPort, peers[..i])))
    {
      assert peers[..i + 1] == peers[..i] + [peers[i]];
      HasSnoc(peers[..i], peers[i]);
      if peers[i].state == D.Alive {
        assert peers[i] in peers;
        return Alive;
      }
      if peers[i].state == D.Connecting {
        summary := Connecting;
      } else if peers[i].state == D.Stale && summary == Never {
        summary := Stale;
      }
    }
    assert peers[..|peers|] == peers;
  }

  /** The kernel lists peers in no particular order, and the headline does not depend on it. */
  lemma HeadlineIgnoresOrder(port: nat, a: seq<D.PeerStatus>, b: seq<D.PeerStatus>)
    requires multiset(a) == multiset(b)
    ensures Headline(Some(D.InterfaceStatus(port, a))) == Headline(Some(D.InterfaceStatus(port, b)))
  {
    assert forall p :: p in a <==> p in multiset(a);
    assert forall p :: p in b <==> p in multiset(b);
    assert forall s :: Has(a, s) <==> Has(b, s);
  }

  /** How good a connection state is, best first: alive, connecting, stale, never. */
  function Rank(state: D.ConnState): nat {
    match state
    case Alive => 3
    case Connecting => 2
    case Stale => 1
    case Never => 0
  }

  function RankShown(summary: Summary): nat {
    match summary
    case Alive => 3
    case Connecting => 2
    case Stale => 1
    case _ => 0
  }

  /** With a status the headline is the best state of any peer: no peer is better, and one is as good, if there is one
      at all. Without a status it says disconnected. */
  lemma HeadlineIsTheBest(port: nat, peers: seq<D.PeerStatus>)
    ensures Headline(None) == Disconnected
    ensures var shown := Headline(Some(D.InterfaceStatus(port, peers)));
            && shown != Offline && shown != Disconnected
            && (forall p :: p in peers ==> Rank(p.state) <= RankShown(shown))
            && (peers != [] ==> exists p :: p in peers && Rank(p.state) == RankShown(shown))
            && (peers == [] ==> shown == Never)
  {
    forall p | p in peers ensures Rank(p.state) <= RankShown(Headline(Some(D.InterfaceStatus(port, peers)))) {
      assert Has(peers, p.state);
    }
    if peers != [] {
      assert peers[0] in peers;
    }
  }

  // --- the hook ----------------------------------------------------------------

  /** A refresh whose outcome was taken over, by its number. */
  datatype Applied = Applied(number: nat, ok: bool)

  /** `pending` are the requests in flight, `asked` the filter each request was sent with, `offline` how often the
      owner was told that the daemon is gone. */
  datatype History = History(pending: set<nat>, asked: seq<string>, applied: seq<Applied>, offline: nat)

  datatype Hook = Hook(
    latest: nat,
    failures: nat,
    acting: bool,
    mounted: bool,
    query: string,
    servers: seq<D.ServerInfo>,
    status: Option<D.InterfaceStatus>,
    summary: Summary,
    busy: Option<string>,
    error: Option<string>,
    past: History)

  const INITIAL := Hook(0, 0, false, true, "", [], None, Offline, None, None, History({}, [], [], 0))

  datatype Event =
    | Mount
    | Unmount
    | PollTick
    | QueryChanged(query: string)
    | DebounceOver
    | OwnerRefresh
    | Succeeded(number: nat, servers: seq<D.ServerInfo>, status: Option<D.InterfaceStatus>)
    | Failed(number: nat, error: string)
    | ActStarted(key: string)
    | ActSucceeded(skipRefresh: bool)
    | ActFailed(error: string)
    | ActEnded
    | ListGiven(servers: seq<D.ServerInfo>)

  /** A request answers once, after it was issued. */
  predicate Possible(h: Hook, e: Event) {
    (e.Succeeded? || e.Failed?) ==> e.number in h.past.pending
  }

  function Issue(h: Hook): Hook {
    h.(latest := h.latest + 1,
       past := h.past.(pending := h.past.pending + {h.latest + 1}, asked := h.past.asked + [h.query]))
  }

  function IssueUnlessActing(h: Hook): Hook {
    if h.acting then h else Issue(h)
  }

  /** The outcome of a request is taken over only while mounted and only for the latest request. */
  predicate Current(h: Hook, number: nat) {
    h.mounted && number == h.latest
  }

  function Answered(h: Hook, number: nat): Hook {
    h.(past := h.past.(pending := h.past.pending - {number}))
  }

  function TakeSuccess(h: Hook, number: nat, servers: seq<D.ServerInfo>, status: Option<D.InterfaceStatus>): Hook {
    h.(failures := 0, servers := servers, status := status, summary := Headline(status), error := None,
       past := h.past.(applied := h.past.applied + [Applied(number, true)]))
  }

  function TakeFailure(h: Hook, number: nat, error: string): Hook {
    h.(failures := h.failures + 1, summary := Offline, error := Some(error),
       past := h.past.(applied := h.past.applied + [Applied(number, false)],
                       offline := if h.failures + 1 >= OFFLINE_THRESHOLD then h.past.offline + 1 else h.past.offline))
  }

  function React(h: Hook, e: Event): Hook {
    match e
    case Mount => Issue(h.(mounted := true))
    case Unmount => h.(mounted := false)
    case PollTick => IssueUnlessActing(h)
    case QueryChanged(query) =>
      var asking := h.(query := query);
      if query == "" then IssueUnlessActing(asking) else asking
    case DebounceOver => IssueUnlessActing(h)
    case OwnerRefresh => Issue(h)
    case Succeeded(number, servers, status) =>
      if Current(h, number) then TakeSuccess(Answered(h, number), number, servers, status) else Answered(h, number)
    case Failed(number, error) =>
      if Current(h, number) then TakeFailure(Answered(h, number), number, error) else Answered(h, number)
    case ActStarted(key) => h.(busy := Some(key), acting := true, error := None)
    case ActSucceeded(skipRefresh) => if !skipRefresh && h.mounted then Issue(h) else h
    case ActFailed(error) => if h.mounted then h.(error := Some(error)) else h
    case ActEnded => if h.mounted then h.(acting := false, busy := None) else h.(acting := false)
    case ListGiven(servers) => if h.mounted then h.(servers := servers) else h
  }

  /** `useServerList`: the refs and the state, changed in place. */
  class ServerList {
    var latest: nat
    var failures: nat
    var acting: bool
    var mounted: bool
    var query: string
    var servers: seq<D.ServerInfo>
    var status: Option<D.InterfaceStatus>
    var summary: Summary
    var busy: Option<string>
    var error: Option<string>
    ghost var past: History

    ghost function Now(): Hook
      reads this
    {
      Hook(latest, failures, acting, mounted, query, servers, status, summary, busy, error, past)
    }

    constructor ()
      ensures Now() == INITIAL
    {
      latest, failures, acting, mounted, query := 0, 0, false, true, "";
      servers, status, summary, busy, error := [], None, Offline, None, None;
      past := History({}, [], [], 0);
    }

    /** The synchronous half of `refresh`: take a number and send the request. */
    method Send() returns (number: nat)
      modifies this
      ensures Now() == Issue(old(Now())) && number == latest
    {
      latest := latest + 1;
      number := latest;
      past := past.(pending := past.pending + {number}, asked := past.asked + [query]);
    }

    /** The hook hands `refresh` to its owner, who calls it whenever a form was saved. */
    method Refresh() returns (number: nat)
      modifies this
      ensures Now() == React(old(Now()), OwnerRefresh) && number == latest
    {
      number := Send();
    }

    /** The rest of `refresh`, when both requests answered. */
    method Arrive(number: nat, servers: seq<D.ServerInfo>, status: Option<D.InterfaceStatus>)
      modifies this
      ensures Now() == React(old(Now()), Succeeded(number, servers, status))
    {
      hide Headline;
      past := past.(pending := past.pending - {number});
      if !mounted || number != latest {
        return;
      }
      var headline := Summarize(status);
      failures, this.servers, this.status, summary, error := 0, servers, status, headline, None;
      past := past.(applied := past.applied + [Applied(number, true)]);
    }

    /** The rest of `refresh`, when one of them failed; tells whether the owner is to be told. */
    method Miss(number: nat, message: string) returns (tellOffline: bool)
      modifies this
      ensures Now() == React(old(Now()), Failed(number, message))
      ensures tellOffline <==> past.offline == old(past.offline) + 1
    {
      hide Headline;
      past := past.(pending := past.pending - {number});
      if !mounted || number != latest {
        return false;
      }
      failures, summary, error := failures + 1, Offline, Some(message);
      tellOffline := failures >= OFFLINE_THRESHOLD;
      past := past.(applied := past.applied + [Applied(number, false)],
                    offline := if tellOffline then past.offline + 1 else past.offline);
    }

    /** Mounting reads once; unmounting leaves what is in flight to come back to nobody. */
    method Attach()
      modifies this
      ensures Now() == React(old(Now()), Mount)
    {
      mounted := true;
      var _ := Send();
    }

    method Detach()
      modifies this
      ensures Now() == React(old(Now()), Unmount)
    {
      mounted := false;
    }

    method ApplyServers(list: seq<D.ServerInfo>)
      modifies this
      ensures Now() == React(old(Now()), ListGiven(list))
    {
      if mounted {
        servers := list;
      }
    }

    /** A tick of the poll, and the end of the filter's debounce. */
    method Poll()
      modifies this
      ensures Now() == React(old(Now()), PollTick) == React(old(Now()), DebounceOver)
    {
      if !acting {
        var _ := Send();
      }
    }

    method Filter(text: string)
      modifies this
      ensures Now() == React(old(Now()), QueryChanged(text))
    {
      query := text;
      if text == "" && !acting {
        var _ := Send();
      }
    }

    method StartAction(key: string)
      modifies this
      ensures Now() == React(old(Now()), ActStarted(key))
    {
      busy := Some(key);
      acting := true;
      error := None;
    }

    /** What `act` does once its function answered; the refresh it sends is awaited before `EndAction`. */
    method ActionDone(skipRefresh: bool)
      modifies this
      ensures Now() == React(old(Now()), ActSucceeded(skipRefresh))
    {
      if !skipRefresh && mounted {
        var _ := Send();
      }
    }

    method ActionFailed(message: string)
      modifies this
      ensures Now() == React(old(Now()), ActFailed(message))
    {
      if mounted {
        error := Some(message);
      }
    }

    method EndAction()
      modifies this
      ensures Now() == React(old(Now()), ActEnded)
    {
      acting := false;
      if mounted {
        busy := None;
      }
    }
  }

  // --- runs --------------------------------------------------------------------

  function After(h: Hook, events: seq<Event>, k: nat): Hook
    requires k <= |events|
  {
    if k == 0 then h else React(After(h, events, k - 1), events[k - 1])
  }

  predicate Legal(h: Hook, events: seq<Event>) {
    forall k :: 0 <= k < |events| ==> Possible(After(h, events, k), events[k])
  }

  /** How many of the latest outcomes taken over were failures, in a row. */
  function Streak(applied: seq<Applied>): nat {
    if applied == [] || applied[|applied| - 1].ok then 0 else 1 + Streak(applied[..|applied| - 1])
  }

  predicate Increasing(applied: seq<Applied>) {
    forall i, j :: 0 <= i < j < |applied| ==> applied[i].number < applied[j].number
  }

  predicate Consistent(h: Hook) {
    && (forall n :: n in h.past.pending ==> 1 <= n <= h.latest)
    && |h.past.asked| == h.latest
    && (forall a :: a in h.past.applied ==> 1 <= a.number <= h.latest && a.number !in h.past.pending)
    && Increasing(h.past.applied)
    && h.failures == Streak(h.past.applied)
  }

  lemma TakenOver(h: Hook, number: nat, ok: bool)
    requires Consistent(h) && number in h.past.pending && number == h.latest
    ensures Increasing(h.past.applied + [Applied(number, ok)])
    ensures Streak(h.past.applied + [Applied(number, ok)]) == if ok then 0 else h.failures + 1
  {
    var applied := h.past.applied + [Applied(number, ok)];
    assert applied[..|applied| - 1] == h.past.applied;
    forall i, j | 0 <= i < j < |applied| ensures applied[i].number < applied[j].number {
      assert h.past.applied[i] in h.past.applied;
    }
  }

  lemma ReactKeeps(h: Hook, e: Event)
    requires Consistent(h) && Possible(h, e)
    ensures Consistent(React(h, e))
  {
    hide Streak, Increasing, Headline;
    if (e.Succeeded? || e.Failed?) && Current(h, e.number) {
      TakenOver(h, e.number, e.Succeeded?);
    }
  }

  /** Outcomes are taken over in strictly increasing order of issue, and the failure count is the number of failures
      in a row among them, under any interleaving. */
  lemma {:induction false} RunIsConsistent(h: Hook, events: seq<Event>, k: nat)
    requires Consistent(h) && Legal(h, events) && k <= |events|
    ensures Consistent(After(h, events, k))
    decreases k
  {
    hide Consistent, React, Possible;
    if k > 0 {
      RunIsConsistent(h, events, k - 1);
      ReactKeeps(After(h, events, k - 1), events[k - 1]);
    }
  }

  lemma InitialIsConsistent()
    ensures Consistent(INITIAL)
  {
  }

  /** What is shown changes by a refresh only when that refresh is the latest issued and the component is mounted; an
      answer that was superseded or comes after the unmount changes nothing, and its failure does not count. */
  lemma OnlyTheLatestApplies(h: Hook, e: Event)
    requires e.Succeeded? || e.Failed?
    ensures React(h, e).past.applied != h.past.applied <==> Current(h, e.number)
    ensures !Current(h, e.number) ==> React(h, e) == h.(past := h.past.(pending := h.past.pending - {e.number}))
  {
    hide Headline;
    assert forall a :: |h.past.applied + [a]| != |h.past.applied|;
  }

  /** Nothing else takes an outcome over or tells the owner. */
  lemma OthersApplyNothing(h: Hook, e: Event)
    requires !e.Succeeded? && !e.Failed?
    ensures React(h, e).past.applied == h.past.applied && React(h, e).past.offline == h.past.offline
            && React(h, e).failures == h.failures
  {
  }

  /** The outcome of request `n` was taken over. */
  ghost predicate WasApplied(h: Hook, n: nat) {
    exists ok :: Applied(n, ok) in h.past.applied
  }

  lemma ReactSupersedes(h: Hook, e: Event, n: nat)
    requires n < h.latest && !WasApplied(h, n)
    ensures n < React(h, e).latest && !WasApplied(React(h, e), n)
  {
    hide Headline;
    if e.Succeeded? || e.Failed? {
      OnlyTheLatestApplies(h, e);
      if Current(h, e.number) {
        assert React(h, e).past.applied == h.past.applied + [Applied(e.number, e.Succeeded?)];
      }
    } else {
      OthersApplyNothing(h, e);
    }
  }

  /** A request that was overtaken by a newer one before its answer came is never taken over, at any later time. */
  lemma {:induction false} SupersededNeverApplies(h: Hook, events: seq<Event>, j: nat, k: nat, n: nat)
    requires j <= k <= |events| && n < After(h, events, j).latest && !WasApplied(After(h, events, j), n)
    ensures n < After(h, events, k).latest && !WasApplied(After(h, events, k), n)
    decreases k
  {
    hide React, WasApplied;
    if j < k {
      SupersededNeverApplies(h, events, j, k - 1, n);
      ReactSupersedes(After(h, events, k - 1), events[k - 1], n);
    }
  }

  lemma {:induction false} StreakMeans(applied: seq<Applied>, i: nat)
    requires i < Streak(applied)
    ensures i < |applied| && !applied[|applied| - 1 - i].ok
    decreases i
  {
    if i > 0 {
      StreakMeans(applied[..|applied| - 1], i - 1);
    }
  }

  lemma OfflineStep(h: Hook, e: Event)
    requires Consistent(h) && Possible(h, e)
    ensures var h' := React(h, e);
            h'.past.offline != h.past.offline <==>
              h'.past.applied != h.past.applied && Streak(h'.past.applied) >= OFFLINE_THRESHOLD
  {
    hide Headline, Increasing, Streak;
    if !e.Succeeded? && !e.Failed? {
      OthersApplyNothing(h, e);
    } else if Current(h, e.number) {
      TakenOver(h, e.number, e.Succeeded?);
      assert |h.past.applied + [Applied(e.number, e.Succeeded?)]| != |h.past.applied|;
    }
  }

  /** The last three outcomes taken over are failures. */
  predicate ThreeFailed(applied: seq<Applied>) {
    |applied| >= 3 && forall i :: |applied| - 3 <= i < |applied| ==> !applied[i].ok
  }

  lemma StreakOfThree(applied: seq<Applied>)
    ensures Streak(applied) >= 3 <==> ThreeFailed(applied)
  {
    if Streak(applied) >= 3 {
      StreakMeans(applied, 0);
      StreakMeans(applied, 1);
      StreakMeans(applied, 2);
    }
    if ThreeFailed(applied) {
      var n := |applied|;
      assert applied[..n - 1][..n - 2] == applied[..n - 2];
      assert applied[..n - 2][..n - 3] == applied[..n - 3];
      assert Streak(applied[..n - 2]) == 1 + Streak(applied[..n - 3]);
      assert Streak(applied[..n - 1]) == 1 + Streak(applied[..n - 2]);
    }
  }

  /** Over any run, the owner is told that the daemon is gone exactly when an outcome is taken over and it and the two
      before it are failures: three refreshes, each the latest when it failed, with no success taken over in between. */
  lemma OfflineIffThreeFailures(h: Hook, events: seq<Event>, k: nat)
    requires Consistent(h) && Legal(h, events) && k < |events|
    ensures var before, after := After(h, events, k), After(h, events, k + 1);
            after.past.offline != before.past.offline <==>
              after.past.applied != before.past.applied && ThreeFailed(after.past.applied)
  {
    hide Consistent, React, Possible, Streak, ThreeFailed;
    RunIsConsistent(h, events, k);
    OfflineStep(After(h, events, k), events[k]);
    StreakOfThree(After(h, events, k + 1).past.applied);
  }

  // --- actions -----------------------------------------------------------------

  /** A request is sent: on mounting, by an action that is done, by the owner, and by polls and filters that no
      action holds back. */
  predicate Sends(h: Hook, e: Event) {
    match e
    case Mount => true
    case OwnerRefresh => true
    case ActSucceeded(skipRefresh) => !skipRefresh && h.mounted
    case PollTick => !h.acting
    case DebounceOver => !h.acting
    case QueryChanged(query) => query == "" && !h.acting
    case _ => false
  }

  lemma SendsExactly(h: Hook, e: Event)
    ensures React(h, e).latest == if Sends(h, e) then h.latest + 1 else h.latest
  {
    hide Headline;
  }

  /** Some action started before event `k`, and none ended since. */
  ghost predicate HeldBack(events: seq<Event>, k: nat)
    requires k <= |events|
  {
    exists i :: 0 <= i < k && events[i].ActStarted? && forall m :: i < m < k ==> !events[m].ActEnded?
  }

  lemma ActsExactly(h: Hook, e: Event)
    ensures React(h, e).acting == (e.ActStarted? || (!e.ActEnded? && h.acting))
  {
    hide Headline;
  }

  lemma {:induction false} ActingIffHeldBack(h: Hook, events: seq<Event>, k: nat)
    requires !h.acting && k <= |events|
    ensures After(h, events, k).acting <==> HeldBack(events, k)
    decreases k
  {
    hide React;
    if k > 0 {
      ActingIffHeldBack(h, events, k - 1);
      var e := events[k - 1];
      ActsExactly(After(h, events, k - 1), e);
      if HeldBack(events, k - 1) && !e.ActEnded? {
        var i :| 0 <= i < k - 1 && events[i].ActStarted? && forall m :: i < m < k - 1 ==> !events[m].ActEnded?;
        assert forall m :: i < m < k ==> !events[m].ActEnded?;
      }
      if HeldBack(events, k) && !e.ActStarted? {
        var i :| 0 <= i < k && events[i].ActStarted? && forall m :: i < m < k ==> !events[m].ActEnded?;
        assert i < k - 1;
      }
    }
  }

  /** Over any run, exactly which requests race an action: a poll or a filter sends its request unless an action started
      and none has ended since; mounting, the owner and a finished action always send theirs. */
  lemma RaceExactly(h: Hook, events: seq<Event>, k: nat)
    requires !h.acting && k < |events|
    ensures var e := events[k];
            var sent := After(h, events, k + 1).latest != After(h, events, k).latest;
            && (e.PollTick? || e.DebounceOver? || e == QueryChanged("") ==> (sent <==> !HeldBack(events, k)))
            && (e.Mount? || e.OwnerRefresh? ==> sent)
            && (e.ActSucceeded? ==> (sent <==> !e.skipRefresh && After(h, events, k).mounted))
  {
    hide React, HeldBack;
    ActingIffHeldBack(h, events, k);
    SendsExactly(After(h, events, k), events[k]);
  }

  /** Actions that started and have not ended. */
  function InFlight(events: seq<Event>, k: nat): int
    requires k <= |events|
  {
    if k == 0 then 0
    else InFlight(events, k - 1) + (if events[k - 1].ActStarted? then 1 else if events[k - 1].ActEnded? then -1 else 0)
  }

  /** One action at a time, and only what started ends. */
  predicate OneAtATime(events: seq<Event>) {
    forall k :: 0 <= k <= |events| ==> 0 <= InFlight(events, k) <= 1
  }

  /** With one action at a time the guard means what it says: polls and filters are held back exactly while an action
      is in flight. */
  lemma {:induction false} GuardCoversTheAction(h: Hook, events: seq<Event>, k: nat)
    requires !h.acting && OneAtATime(events) && k <= |events|
    ensures After(h, events, k).acting <==> InFlight(events, k) == 1
    decreases k
  {
    hide React;
    if k > 0 {
      GuardCoversTheAction(h, events, k - 1);
      ActsExactly(After(h, events, k - 1), events[k - 1]);
      assert 0 <= InFlight(events, k) <= 1 && 0 <= InFlight(events, k - 1) <= 1;
    }
  }

  /** With two that overlap it does not: the first to end lifts the guard, and a poll is sent while the second is still
      in flight. */
  lemma OverlapLiftsTheGuard(h: Hook, first: string, second: string)
    ensures var events := [ActStarted(first), ActStarted(second), ActEnded, PollTick];
            && InFlight(events, 3) == 1 && !After(h, events, 3).acting
            && After(h, events, 4).latest == After(h, events, 3).latest + 1
  {
    hide Headline;
    var events := [ActStarted(first), ActStarted(second), ActEnded, PollTick];
    assert After(h, events, 1) == React(h, events[0]);
    assert After(h, events, 2) == React(After(h, events, 1), events[1]);
    assert After(h, events, 3) == React(After(h, events, 2), events[2]);
    assert InFlight(events, 1) == 1;
    assert InFlight(events, 2) == 2;
  }

  /** Runs of a freshly mounted dashboard. */
  lemma RunFromInitial(events: seq<Event>, k: nat)
    requires Legal(INITIAL, events) && k <= |events|
    ensures var h := After(INITIAL, events, k);
            Increasing(h.past.applied) && h.failures == Streak(h.past.applied)
  {
    hide After, Increasing, Streak;
    InitialIsConsistent();
    RunIsConsistent(INITIAL, events, k);
  }
}
