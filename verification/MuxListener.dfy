/**
 Handing connections from a multiplexer to an HTTP server while the listener shuts down.

 Models CLIProxyAPI/internal/api/mux_listener.go.  Goroutines inside Put and Accept are counted
 by what they hold; one event is one indivisible action of one goroutine: taking the lock, a
 channel operation, a WaitGroup operation.  A select with several ready cases may take any.
 */
module MuxListener {

  type Conn = nat

  /** Where the one call that closes the listener is. */
  datatype Closing = NotClosing | Locked | Waiting | Draining | Returned

  datatype State = State(
    capacity: nat,
    given: multiset<Conn>,      // every connection ever passed to Put
    starting: multiset<Conn>,   // in Put, before the lock
    inFlight: multiset<Conn>,   // in Put, counted by the WaitGroup, before the select
    returning: nat,             // in Put, still counted, the connection already passed on
    queue: seq<Conn>,
    held: multiset<Conn>,       // in Accept, between the two checks
    delivered: multiset<Conn>,  // returned by Accept
    shut: multiset<Conn>,       // closed by the listener
    refused: multiset<Conn>,    // returned by Put with ErrClosed
    closing: Closing)

  datatype Event =
    | PutCall(c: Conn)
    | PutRefused(c: Conn)
    | PutEnter(c: Conn)
    | PutSend(c: Conn)
    | PutSeesClose(c: Conn)
    | PutDone
    | AcceptTake
    | AcceptDeliver(c: Conn)
    | AcceptShut(c: Conn)
    | CloseLock
    | CloseSignal
    | CloseWaited
    | CloseDrain
    | CloseReturn

  /** The closed field, as the lock holder set it. */
  predicate Closed(s: State) {
    !s.closing.NotClosing?
  }

  /** closeCh is closed. */
  predicate Signalled(s: State) {
    s.closing.Waiting? || s.closing.Draining? || s.closing.Returned?
  }

  predicate LockFree(s: State) {
    !s.closing.Locked?
  }

  /** The WaitGroup counter. */
  function Counter(s: State): nat {
    |s.inFlight| + s.returning
  }

  predicate Enabled(s: State, e: Event) {
    match e
    case PutCall(_) => true
    case PutRefused(c) => c in s.starting && LockFree(s) && Closed(s)
    case PutEnter(c) => c in s.starting && LockFree(s) && !Closed(s)
    case PutSend(c) => c in s.inFlight && |s.queue| < s.capacity
    case PutSeesClose(c) => c in s.inFlight && Signalled(s)
    case PutDone => s.returning > 0
    case AcceptTake => s.queue != []
    case AcceptDeliver(c) => c in s.held && !Signalled(s)
    case AcceptShut(c) => c in s.held && Signalled(s)
    case CloseLock => s.closing.NotClosing?
    case CloseSignal => s.closing.Locked?
    case CloseWaited => s.closing.Waiting? && Counter(s) == 0
    case CloseDrain => s.closing.Draining? && s.queue != []
    case CloseReturn => s.closing.Draining? && s.queue == []
  }

  function Next(s: State, e: Event): State
    requires Enabled(s, e)
  {
    match e
    case PutCall(c) => s.(given := s.given + multiset{c}, starting := s.starting + multiset{c})
    case PutRefused(c) => s.(starting := s.starting - multiset{c}, refused := s.refused + multiset{c})
    case PutEnter(c) => s.(starting := s.starting - multiset{c}, inFlight := s.inFlight + multiset{c})
    case PutSend(c) =>
      s.(inFlight := s.inFlight - multiset{c}, returning := s.returning + 1, queue := s.queue + [c])
    case PutSeesClose(c) =>
      s.(inFlight := s.inFlight - multiset{c}, returning := s.returning + 1, refused := s.refused + multiset{c})
    case PutDone => s.(returning := s.returning - 1)
    case AcceptTake => s.(queue := s.queue[1..], held := s.held + multiset{s.queue[0]})
    case AcceptDeliver(c) => s.(held := s.held - multiset{c}, delivered := s.delivered + multiset{c})
    case AcceptShut(c) => s.(held := s.held - multiset{c}, shut := s.shut + multiset{c})
    case CloseLock => s.(closing := Locked)
    case CloseSignal => s.(closing := Waiting)
    case CloseWaited => s.(closing := Draining)
    case CloseDrain => s.(queue := s.queue[1..], shut := s.shut + multiset{s.queue[0]})
    case CloseReturn => s.(closing := Returned)
  }

  const NONE: multiset<Conn> := multiset{}

  function Initial(buffer: int): State {
    State(if buffer <= 0 then 1 else buffer, NONE, NONE, NONE, 0, [], NONE, NONE, NONE, NONE, NotClosing)
  }

  // ---- safety ------------------------------------------------------------------

  /** Everything a connection can have become. */
  function Accounted(s: State): multiset<Conn> {
    s.starting + s.inFlight + multiset(s.queue) + s.held + s.delivered + s.shut + s.refused
  }

  ghost predicate Inv(s: State) {
    && s.given == Accounted(s)
    && 0 < s.capacity && |s.queue| <= s.capacity
    && (s.closing.Draining? || s.closing.Returned? ==> Counter(s) == 0)
    && (s.closing.Returned? ==> s.queue == [])
  }

  lemma HeadAndTail(q: seq<Conn>)
    requires q != []
    ensures multiset(q) == multiset{q[0]} + multiset(q[1..])
  {
    assert q == [q[0]] + q[1..];
  }

  lemma NextKeepsAccounts(s: State, e: Event)
    requires s.given == Accounted(s) && Enabled(s, e)
    ensures Next(s, e).given == Accounted(Next(s, e))
  {
    if e.AcceptTake? || e.CloseDrain? { HeadAndTail(s.queue); }
  }

  /** Main result, step by step: no connection is lost or doubled, and a closed listener stays empty. */
  lemma NextKeepsInv(s: State, e: Event)
    requires Inv(s) && Enabled(s, e)
    ensures Inv(Next(s, e))
  {
    NextKeepsAccounts(s, e);
    if s.closing.Draining? || s.closing.Returned? { NothingInFlight(s); }
  }

  lemma NothingInFlight(s: State)
    requires Counter(s) == 0
    ensures s.inFlight == multiset{} && s.returning == 0
  {
  }

  // ---- runs ---------------------------------------------------------------------

  /** An interleaving of any number of goroutines, with the states between their actions. */
  ghost predicate Run(buffer: int, states: seq<State>, events: seq<Event>) {
    && |states| == |events| + 1 && states[0] == Initial(buffer)
    && forall i | 0 <= i < |events| :: Enabled(states[i], events[i]) && states[i + 1] == Next(states[i], events[i])
  }

  /** Main result: at every moment each connection given to Put is in exactly one place. */
  lemma {:induction false} EveryConnectionAccounted(buffer: int, states: seq<State>, events: seq<Event>, i: nat)
    requires Run(buffer, states, events) && i < |states|
    ensures Inv(states[i])
    decreases i
  {
    if i > 0 {
      EveryConnectionAccounted(buffer, states, events, i - 1);
      NextKeepsInv(states[i - 1], events[i - 1]);
      assert states[i - 1 + 1] == Next(states[i - 1], events[i - 1]);
    }
  }

  /** When no call is left running, every connection was delivered, shut or refused, as often as it was given. */
  lemma NothingLostAtRest(buffer: int, states: seq<State>, events: seq<Event>, i: nat)
    requires Run(buffer, states, events) && i < |states|
    requires var s := states[i];
      s.closing.Returned? && s.starting == multiset{} && s.held == multiset{}
    ensures states[i].given == states[i].delivered + states[i].shut + states[i].refused
  {
    EveryConnectionAccounted(buffer, states, events, i);
    NothingInFlight(states[i]);
  }

  function Rank(c: Closing): nat {
    match c
    case NotClosing => 4
    case Locked => 3
    case Waiting => 2
    case Draining => 1
    case Returned => 0
  }

  /** How far closing has come, with what it freezes. */
  datatype Progress = Progress(rank: nat, delivered: multiset<Conn>, counter: nat)

  function ProgressOf(s: State): Progress {
    Progress(Rank(s.closing), s.delivered, Counter(s))
  }

  /** Closing only goes forward; once signalled nothing more is delivered, once locked nobody enters. */
  ghost predicate Forward(p: Progress, q: Progress) {
    && q.rank <= p.rank
    && (p.rank <= 2 ==> q.delivered == p.delivered)
    && (p.rank <= 3 ==> q.counter <= p.counter)
  }

  lemma StagesByRank(s: State)
    ensures Signalled(s) <==> Rank(s.closing) <= 2
    ensures Closed(s) <==> Rank(s.closing) <= 3
  {
  }

  lemma NextForward(s: State, e: Event)
    requires Enabled(s, e)
    ensures Forward(ProgressOf(s), ProgressOf(Next(s, e)))
  {
    if Closed(s) { CounterFalls(s, e); }
  }

  lemma {:induction false} StepsForward(ps: seq<Progress>, i: nat, j: nat)
    requires i <= j < |ps| && forall k {:trigger ps[k]} | i < k <= j :: Forward(ps[k - 1], ps[k])
    ensures Forward(ps[i], ps[j])
    decreases j
  {
    if i < j { StepsForward(ps, i, j - 1); }
  }

  lemma ForwardAt(buffer: int, states: seq<State>, events: seq<Event>, k: nat)
    requires Run(buffer, states, events) && 0 < k < |states|
    ensures Forward(ProgressOf(states[k - 1]), ProgressOf(states[k]))
  {
    assert states[k - 1 + 1] == Next(states[k - 1], events[k - 1]);
    NextForward(states[k - 1], events[k - 1]);
  }

  lemma RunForward(buffer: int, states: seq<State>, events: seq<Event>, i: nat, j: nat)
    requires Run(buffer, states, events) && i <= j < |states|
    ensures Forward(ProgressOf(states[i]), ProgressOf(states[j]))
  {
    var ps := seq(|states|, k requires 0 <= k < |states| => ProgressOf(states[k]));
    forall k {:trigger ps[k]} | i < k <= j ensures Forward(ps[k - 1], ps[k]) { ForwardAt(buffer, states, events, k); }
    StepsForward(ps, i, j);
  }

  lemma ClosingGoesOn(buffer: int, states: seq<State>, events: seq<Event>, i: nat, j: nat)
    requires Run(buffer, states, events) && i <= j < |states|
    ensures Rank(states[j].closing) <= Rank(states[i].closing)
    ensures Signalled(states[i]) ==> states[j].delivered == states[i].delivered
    ensures Closed(states[i]) ==> Counter(states[j]) <= Counter(states[i])
  {
    RunForward(buffer, states, events, i, j);
    StagesByRank(states[i]);
  }

  /** After closed is set no Put adds to the WaitGroup any more. */
  lemma CounterFalls(s: State, e: Event)
    requires Enabled(s, e) && Closed(s)
    ensures Counter(Next(s, e)) <= Counter(s) && !e.PutEnter?
  {
    if e.PutSend? || e.PutSeesClose? { assert |s.inFlight - multiset{e.c}| == |s.inFlight| - 1; }
  }

  /** Main result: after Close returned the queue is empty for good and nothing is delivered or in flight. */
  lemma ClosedForGood(buffer: int, states: seq<State>, events: seq<Event>, i: nat, j: nat)
    requires Run(buffer, states, events) && i <= j < |states| && states[i].closing.Returned?
    ensures states[j].closing.Returned? && states[j].queue == [] && Counter(states[j]) == 0
    ensures states[j].delivered == states[i].delivered
    ensures j < |events| ==> !events[j].PutEnter? && !events[j].PutSend? && !events[j].AcceptTake? && !events[j].AcceptDeliver?
  {
    ClosingGoesOn(buffer, states, events, i, j);
    EveryConnectionAccounted(buffer, states, events, j);
    NothingInFlight(states[j]);
  }

  /** What Accept calls hold or the listener has closed. */
  function HeldOrShut(s: State): multiset<Conn> {
    s.held + s.shut
  }

  lemma SecondCheckStep(s: State, e: Event)
    requires Signalled(s) && Enabled(s, e)
    ensures HeldOrShut(s) <= HeldOrShut(Next(s, e))
  {
    if e.AcceptShut? { assert s.held - multiset{e.c} + multiset{e.c} == s.held; }
  }

  lemma SecondCheckAt(buffer: int, states: seq<State>, events: seq<Event>, i: nat, k: nat, c: Conn)
    requires Run(buffer, states, events) && i < k < |states| && Signalled(states[i])
    ensures HeldOrShut(states[k - 1])[c] <= HeldOrShut(states[k])[c]
  {
    ClosingGoesOn(buffer, states, events, i, k - 1);
    assert states[k - 1 + 1] == Next(states[k - 1], events[k - 1]);
    SecondCheckStep(states[k - 1], events[k - 1]);
  }

  lemma {:induction false} StepsUp(counts: seq<nat>, i: nat, j: nat)
    requires i <= j < |counts| && forall k {:trigger counts[k]} | i < k <= j :: counts[k - 1] <= counts[k]
    ensures counts[i] <= counts[j]
    decreases j
  {
    if i < j { StepsUp(counts, i, j - 1); }
  }

  lemma HeldOrShutGrows(buffer: int, states: seq<State>, events: seq<Event>, i: nat, j: nat, c: Conn)
    requires Run(buffer, states, events) && i <= j < |states| && Signalled(states[i])
    ensures HeldOrShut(states[i])[c] <= HeldOrShut(states[j])[c]
  {
    var counts: seq<nat> := seq(|states|, k requires 0 <= k < |states| => HeldOrShut(states[k])[c]);
    forall k {:trigger counts[k]} | i < k <= j ensures counts[k - 1] <= counts[k] {
      SecondCheckAt(buffer, states, events, i, k, c);
    }
    StepsUp(counts, i, j);
  }

  /**
   A connection an Accept call holds when the close is signalled is never delivered: at any
   later moment it is still held or has been closed by the listener.
   */
  lemma SecondCheckStops(buffer: int, states: seq<State>, events: seq<Event>, i: nat, j: nat, c: Conn)
    requires Run(buffer, states, events) && i <= j < |states| && Signalled(states[i])
    ensures states[j].delivered == states[i].delivered && HeldOrShut(states[i])[c] <= HeldOrShut(states[j])[c]
  {
    ClosingGoesOn(buffer, states, events, i, j);
    HeldOrShutGrows(buffer, states, events, i, j, c);
  }

  // ---- Close always gets there ------------------------------------------------------

  /** What is left to do before Close can return. */
  function Work(s: State): nat {
    3 * |s.inFlight| + s.returning + |s.queue| + Rank(s.closing)
  }

  /** Nobody else adds to that work, and while there is some, an action is enabled that does a piece of it. */
  lemma WorkNeverGrows(s: State, e: Event)
    requires Closed(s) && Enabled(s, e)
    ensures Work(Next(s, e)) <= Work(s)
  {
    if e.PutSend? || e.PutSeesClose? { assert |s.inFlight - multiset{e.c}| == |s.inFlight| - 1; }
  }

  lemma CloseNeverStuck(s: State) returns (e: Event)
    requires Closed(s) && !s.closing.Returned?
    ensures Enabled(s, e) && Work(Next(s, e)) < Work(s)
  {
    match s.closing
    case Waiting =>
      if s.returning > 0 {
        e := PutDone;
      } else if s.inFlight != multiset{} {
        var c :| c in s.inFlight;
        e := PutSeesClose(c);
        assert |s.inFlight - multiset{c}| == |s.inFlight| - 1;
      } else {
        e := CloseWaited;
      }
    case Draining => e := if s.queue != [] then CloseDrain else CloseReturn;
    case _ => e := CloseSignal;
  }
}
