/**
 Runs of the release flusher: tickets are issued at any time, also while a flush pass is
 between its snapshot, its sends and their acknowledgements.

 Models flush and MarkDirty of CLIProxyAPI/internal/home/concurrency_release.go as steps; passes
 do not overlap, since one Run loop makes them all.
 */
module ReleaseProtocol {
  import opened ReleaseFlusher

  /** Where the flush pass is; before holds the tickets issued when it took its snapshot. */
  datatype Pass =
    | Resting
    | Passing(pending: map<Group, int>, failed: bool, before: set<Ticket>)
    | Sending(pending: map<Group, int>, failed: bool, before: set<Ticket>, group: Group, sequence: int)
    | Confirmed(pending: map<Group, int>, failed: bool, before: set<Ticket>, group: Group, sequence: int)

  /** sent is every frame handed to Home in order, confirmed those whose send returned no error. */
  datatype State = State(ledger: Ledger, pass: Pass, sent: seq<(Group, int)>, confirmed: set<(Group, int)>)

  datatype Event =
    | MarkDirty(group: Group, sequence: int, ticket: Ticket)
    | Begin(sender: bool)
    | Send(group: Group)
    | SendFailed
    | SendSucceeded
    | Acknowledge
    | Finish

  predicate Enabled(s: State, e: Event) {
    match e
    case MarkDirty(_, _, ticket) => ticket !in s.ledger.issued
    case Begin(_) => s.pass.Resting?
    case Send(group) => s.pass.Passing? && group in s.pass.pending
    case SendFailed => s.pass.Sending?
    case SendSucceeded => s.pass.Sending?
    case Acknowledge => s.pass.Confirmed?
    case Finish => s.pass.Passing? && s.pass.pending == map[]
  }

  ghost function Next(s: State, e: Event): State
    requires Enabled(s, e)
  {
    match e
    case MarkDirty(group, sequence, ticket) =>
      if Accepts(group, sequence) then s.(ledger := Marked(s.ledger, group, sequence, ticket)) else s
    case Begin(sender) =>
      if sender then s.(pass := Passing(Dirty(s.ledger.groups), false, s.ledger.issued.Keys)) else s
    case Send(group) =>
      var p := s.pass;
      s.(pass := Sending(p.pending - {group}, p.failed, p.before, group, p.pending[group]),
         sent := s.sent + [(group, p.pending[group])])
    case SendFailed => s.(pass := Passing(s.pass.pending, true, s.pass.before))
    case SendSucceeded =>
      var p := s.pass;
      s.(pass := Confirmed(p.pending, p.failed, p.before, p.group, p.sequence),
         confirmed := s.confirmed + {(p.group, p.sequence)})
    case Acknowledge =>
      var p := s.pass;
      s.(pass := Passing(p.pending, p.failed, p.before), ledger := Acknowledged(s.ledger, p.group, p.sequence))
    case Finish => s.(pass := Resting)
  }

  const INITIAL := State(Ledger(map[], {}, map[]), Resting, [], {})

  // ---- the invariant ---------------------------------------------------------------

  function Latest(s: State, group: Group): int {
    StateOf(s.ledger.groups, group).latest
  }

  function Acked(s: State, group: Group): int {
    StateOf(s.ledger.groups, group).acked
  }

  /** What a pass still has to do for a group, or is doing. */
  function Planned(p: Pass): map<Group, int> {
    if p.Resting? then map[]
    else if p.Passing? then p.pending
    else p.pending[p.group := p.sequence]
  }

  ghost predicate NotAbove(sent: seq<(Group, int)>, group: Group, sequence: int) {
    forall i | 0 <= i < |sent| && sent[i].0 == group :: sent[i].1 <= sequence
  }

  ghost predicate NeverDecrease(sent: seq<(Group, int)>) {
    forall i, j | 0 <= i < j < |sent| && sent[i].0 == sent[j].0 :: sent[i].1 <= sent[j].1
  }

  /** A pass plans nothing beyond the latest sequence, and nothing below what was sent. */
  ghost predicate PlanOk(s: State, group: Group)
    requires group in Planned(s.pass)
  {
    Planned(s.pass)[group] <= Latest(s, group) && NotAbove(s.sent, group, Planned(s.pass)[group])
  }

  /** A ticket the pass found is completed, planned for, or the pass has failed. */
  ghost predicate Covered(s: State, t: Ticket) {
    t in s.ledger.issued
    && (t in s.ledger.closed || s.pass.Resting? || s.pass.failed
        || (var (group, sequence) := s.ledger.issued[t];
            group in Planned(s.pass) && sequence <= Planned(s.pass)[group]))
  }

  ghost predicate GroupInv(s: State, group: Group) {
    && NotAbove(s.sent, group, Latest(s, group))
    && 0 <= Acked(s, group) <= Latest(s, group)
    && (Acked(s, group) > 0 ==> (group, Acked(s, group)) in s.confirmed)
  }

  ghost predicate Inv(s: State) {
    && Consistent(s.ledger)
    && NeverDecrease(s.sent)
    && (forall group {:trigger GroupInv(s, group)} :: GroupInv(s, group))
    && (forall group {:trigger PlanOk(s, group)} | group in Planned(s.pass) :: PlanOk(s, group))
    && (s.pass.Sending? || s.pass.Confirmed? ==> s.pass.group !in s.pass.pending)
    && (s.pass.Confirmed? ==> (s.pass.group, s.pass.sequence) in s.confirmed)
    && (!s.pass.Resting? ==> forall t {:trigger Covered(s, t)} | t in s.pass.before :: Covered(s, t))
  }

  lemma MarkKeepsInv(s: State, e: Event)
    requires Inv(s) && Enabled(s, e) && e.MarkDirty?
    ensures Inv(Next(s, e))
  {
    var t := Next(s, e);
    if Accepts(e.group, e.sequence) {
      MarkedConsistent(s.ledger, e.group, e.sequence, e.ticket);
      forall group ensures GroupInv(t, group) { assert GroupInv(s, group); }
      forall group | group in Planned(t.pass) ensures PlanOk(t, group) { assert PlanOk(s, group); }
      if !s.pass.Resting? {
        forall u | u in t.pass.before ensures Covered(t, u) { assert Covered(s, u); }
      }
    }
  }

  lemma BeginKeepsInv(s: State, e: Event)
    requires Inv(s) && Enabled(s, e) && e.Begin?
    ensures Inv(Next(s, e))
  {
    var t := Next(s, e);
    forall group ensures GroupInv(t, group) { assert GroupInv(s, group); }
    forall group | group in Planned(t.pass) ensures PlanOk(t, group) { assert GroupInv(s, group); }
    if e.sender {
      forall u | u in t.pass.before ensures Covered(t, u) {
        assert TicketOk(s.ledger, u);
        var (group, sequence) := s.ledger.issued[u];
        if u !in s.ledger.closed { assert GroupOk(s.ledger, group) && WaitersOk(s.ledger, group, sequence); }
      }
    }
  }

  lemma SendKeepsInv(s: State, e: Event)
    requires Inv(s) && Enabled(s, e) && e.Send?
    ensures Inv(Next(s, e))
  {
    var t := Next(s, e);
    assert PlanOk(s, e.group);
    assert Planned(t.pass) == Planned(s.pass);
    forall group ensures GroupInv(t, group) { assert GroupInv(s, group); }
    forall group | group in Planned(t.pass) ensures PlanOk(t, group) { assert PlanOk(s, group); }
    forall u | u in t.pass.before ensures Covered(t, u) { assert Covered(s, u); }
  }

  lemma AnswerKeepsInv(s: State, e: Event)
    requires Inv(s) && Enabled(s, e) && (e.SendFailed? || e.SendSucceeded? || e.Finish?)
    ensures Inv(Next(s, e))
  {
    var t := Next(s, e);
    forall group ensures GroupInv(t, group) { assert GroupInv(s, group); }
    forall group | group in Planned(t.pass) ensures PlanOk(t, group) { assert PlanOk(s, group); }
    if !t.pass.Resting? {
      forall u | u in t.pass.before ensures Covered(t, u) { assert Covered(s, u); }
    }
  }

  lemma AcknowledgeKeepsInv(s: State, e: Event)
    requires Inv(s) && Enabled(s, e) && e.Acknowledge?
    ensures Inv(Next(s, e))
  {
    var t := Next(s, e);
    assert PlanOk(s, s.pass.group);
    AcknowledgedConsistent(s.ledger, s.pass.group, s.pass.sequence);
    forall group ensures GroupInv(t, group) { assert GroupInv(s, group); }
    forall group | group in Planned(t.pass) ensures PlanOk(t, group) { assert PlanOk(s, group); }
    forall u | u in t.pass.before ensures Covered(t, u) {
      assert Covered(s, u) && TicketOk(t.ledger, u);
    }
  }

  lemma NextKeepsInv(s: State, e: Event)
    requires Inv(s) && Enabled(s, e)
    ensures Inv(Next(s, e))
  {
    match e
    case MarkDirty(_, _, _) => MarkKeepsInv(s, e);
    case Begin(_) => BeginKeepsInv(s, e);
    case Send(_) => SendKeepsInv(s, e);
    case Acknowledge => AcknowledgeKeepsInv(s, e);
    case _ => AnswerKeepsInv(s, e);
  }

  // ---- runs -------------------------------------------------------------------------

  ghost predicate Run(states: seq<State>, events: seq<Event>) {
    && |states| == |events| + 1 && states[0] == INITIAL
    && forall i | 0 <= i < |events| :: Enabled(states[i], events[i]) && states[i + 1] == Next(states[i], events[i])
  }

  lemma InitialInv()
    ensures Inv(INITIAL)
  {
    forall group ensures GroupInv(INITIAL, group) {}
  }

  lemma {:induction false} RunInv(states: seq<State>, events: seq<Event>, i: nat)
    requires Run(states, events) && i < |states|
    ensures Inv(states[i])
    decreases i
  {
    if i == 0 {
      InitialInv();
    } else {
      RunInv(states, events, i - 1);
      NextKeepsInv(states[i - 1], events[i - 1]);
      assert states[i - 1 + 1] == Next(states[i - 1], events[i - 1]);
    }
  }

  /** Sequences only grow, tickets stay completed, and the log is only appended to. */
  ghost predicate Grown(s: State, t: State) {
    && (forall group {:trigger Latest(t, group)} {:trigger Acked(t, group)} ::
          Latest(s, group) <= Latest(t, group) && Acked(s, group) <= Acked(t, group))
    && s.ledger.closed <= t.ledger.closed && s.sent <= t.sent && s.confirmed <= t.confirmed
    && (forall u | u in s.ledger.issued :: u in t.ledger.issued && t.ledger.issued[u] == s.ledger.issued[u])
  }

  lemma NextGrows(s: State, e: Event)
    requires Inv(s) && Enabled(s, e)
    ensures Grown(s, Next(s, e))
  {
    if e.Send? { assert s.sent <= Next(s, e).sent; }
  }

  lemma GrownTransitive(r: State, s: State, t: State)
    requires Grown(r, s) && Grown(s, t)
    ensures Grown(r, t)
  {
    assert r.sent <= t.sent by { assert r.sent == s.sent[..|r.sent|] == t.sent[..|r.sent|]; }
    forall group ensures Latest(r, group) <= Latest(t, group) && Acked(r, group) <= Acked(t, group) {
      assert Latest(r, group) <= Latest(s, group) && Acked(r, group) <= Acked(s, group);
    }
  }

  lemma GrowsAt(states: seq<State>, events: seq<Event>, k: nat)
    requires Run(states, events) && 0 < k < |states|
    ensures Grown(states[k - 1], states[k])
  {
    RunInv(states, events, k - 1);
    NextGrows(states[k - 1], events[k - 1]);
    assert states[k - 1 + 1] == Next(states[k - 1], events[k - 1]);
  }

  lemma {:induction false} StepsGrow(states: seq<State>, i: nat, j: nat)
    requires i <= j < |states| && forall k | i < k <= j :: Grown(states[k - 1], states[k])
    ensures Grown(states[i], states[j])
    decreases j
  {
    if i < j {
      StepsGrow(states, i, j - 1);
      GrownTransitive(states[i], states[j - 1], states[j]);
    }
  }

  /** Main result: latest and acknowledged sequences only grow, and a completed ticket stays completed. */
  lemma EverythingGrows(states: seq<State>, events: seq<Event>, i: nat, j: nat)
    requires Run(states, events) && i <= j < |states|
    ensures Grown(states[i], states[j])
  {
    forall k | i < k <= j ensures Grown(states[k - 1], states[k]) { GrowsAt(states, events, k); }
    StepsGrow(states, i, j);
  }

  /** Main result: in every reachable state, what waits is newer than what is acknowledged and not newer than the latest. */
  lemma WaitersBetween(states: seq<State>, events: seq<Event>, i: nat, group: Group, w: int, t: Ticket)
    requires Run(states, events) && i < |states| && group in states[i].ledger.groups
    requires w in states[i].ledger.groups[group].waiters && t in states[i].ledger.groups[group].waiters[w]
    ensures Acked(states[i], group) < w <= Latest(states[i], group)
    ensures t !in states[i].ledger.closed && t in states[i].ledger.issued && states[i].ledger.issued[t] == (group, w)
  {
    RunInv(states, events, i);
    assert GroupOk(states[i].ledger, group) && WaitersOk(states[i].ledger, group, w);
  }

  /** Main result: a ticket is completed only after a successful send of at least its sequence. */
  lemma CompletedAfterSuccess(states: seq<State>, events: seq<Event>, i: nat, t: Ticket)
    requires Run(states, events) && i < |states| && t in states[i].ledger.closed
    ensures t in states[i].ledger.issued
    ensures var (group, sequence) := states[i].ledger.issued[t];
      exists acked :: acked >= sequence && (group, acked) in states[i].confirmed
  {
    RunInv(states, events, i);
    var s := states[i];
    assert TicketOk(s.ledger, t);
    var (group, sequence) := s.ledger.issued[t];
    assert GroupInv(s, group);
  }

  /** Main result: what Home is told of one group never goes back. */
  lemma SentNeverDecrease(states: seq<State>, events: seq<Event>, i: nat)
    requires Run(states, events) && i < |states|
    ensures NeverDecrease(states[i].sent)
  {
    RunInv(states, events, i);
  }

  /** Main result: a pass in which no send failed completes every ticket issued before its snapshot. */
  lemma CleanPassCompletes(states: seq<State>, events: seq<Event>, i: nat)
    requires Run(states, events) && i < |events| && events[i].Finish? && !states[i].pass.failed
    ensures forall t | t in states[i].pass.before :: t in states[i + 1].ledger.closed
  {
    RunInv(states, events, i);
    var s := states[i];
    assert Enabled(s, events[i]) && states[i + 1] == Next(s, events[i]);
    forall t | t in s.pass.before ensures t in s.ledger.closed { assert Covered(s, t); }
  }
}
