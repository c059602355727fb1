/**
 Telling Home which concurrency slots were released: cumulative sequences, and tickets that
 are completed when Home has acknowledged theirs.

 Models CLIProxyAPI/internal/home/concurrency_release.go.  A ticket's channel is closed by
 adding the ticket to closed; closing it twice would panic, so it must not be there before.
 */
module ReleaseFlusher {

  type Ticket = nat

  datatype Group = Group(credential: string, model: string)

  datatype GroupState = GroupState(latest: int, acked: int, waiters: map<int, seq<Ticket>>)

  /** The groups, the tickets completed, and what every ticket was issued for. */
  datatype Ledger = Ledger(groups: map<Group, GroupState>, closed: set<Ticket>, issued: map<Ticket, (Group, int)>)

  function StateOf(groups: map<Group, GroupState>, group: Group): GroupState {
    if group in groups then groups[group] else GroupState(0, 0, map[])
  }

  function WaitersAt(g: GroupState, sequence: int): seq<Ticket> {
    if sequence in g.waiters then g.waiters[sequence] else []
  }

  /** The tickets an acknowledgement of a sequence completes. */
  ghost function Released(g: GroupState, sequence: int): set<Ticket> {
    set w, t | w in g.waiters && w <= sequence && t in g.waiters[w] :: t
  }

  predicate Accepts(group: Group, sequence: int) {
    sequence > 0 && group.credential != "" && group.model != ""
  }

  ghost function Marked(c: Ledger, group: Group, sequence: int, t: Ticket): Ledger {
    var g, issued := StateOf(c.groups, group), c.issued[t := (group, sequence)];
    if sequence <= g.acked then Ledger(c.groups, c.closed + {t}, issued)
    else
      var after := GroupState(if sequence > g.latest then sequence else g.latest, g.acked,
                              g.waiters[sequence := WaitersAt(g, sequence) + [t]]);
      Ledger(c.groups[group := after], c.closed, issued)
  }

  function Remaining(waiters: map<int, seq<Ticket>>, sequence: int): map<int, seq<Ticket>> {
    map w | w in waiters && w > sequence :: waiters[w]
  }

  ghost function Acknowledged(c: Ledger, group: Group, sequence: int): Ledger {
    var g := StateOf(c.groups, group);
    if sequence <= g.acked then c.(groups := c.groups[group := g])
    else
      Ledger(c.groups[group := GroupState(g.latest, sequence, Remaining(g.waiters, sequence))],
             c.closed + Released(g, sequence), c.issued)
  }

  // ---- the invariant -------------------------------------------------------------

  ghost predicate NoRepeats(s: seq<Ticket>) {
    forall i, j | 0 <= i < j < |s| :: s[i] != s[j]
  }

  /** Waiters lie above what is acknowledged and not above the latest sequence, and are still open. */
  ghost predicate GroupOk(c: Ledger, group: Group)
    requires group in c.groups
  {
    var g := c.groups[group];
    && 0 <= g.acked <= g.latest
    && forall w {:trigger WaitersOk(c, group, w)} | w in g.waiters :: WaitersOk(c, group, w)
  }

  ghost predicate WaitersOk(c: Ledger, group: Group, w: int)
    requires group in c.groups && w in c.groups[group].waiters
  {
    var g := c.groups[group];
    && g.acked < w <= g.latest && NoRepeats(g.waiters[w])
    && forall t | t in g.waiters[w] :: t in c.issued && c.issued[t] == (group, w) && t !in c.closed
  }

  /** A ticket is completed exactly if its sequence is acknowledged; otherwise it waits at its place. */
  ghost predicate TicketOk(c: Ledger, t: Ticket)
    requires t in c.issued
  {
    var (group, sequence) := c.issued[t];
    var g := StateOf(c.groups, group);
    && sequence > 0
    && (t in c.closed <==> sequence <= g.acked)
    && (t !in c.closed ==> sequence in g.waiters && t in g.waiters[sequence])
  }

  ghost predicate Consistent(c: Ledger) {
    && c.closed <= c.issued.Keys
    && (forall group {:trigger GroupOk(c, group)} | group in c.groups :: GroupOk(c, group))
    && (forall t {:trigger TicketOk(c, t)} | t in c.issued :: TicketOk(c, t))
  }

  lemma MarkedGroupOk(c: Ledger, group: Group, sequence: int, t: Ticket, h: Group)
    requires Consistent(c) && t !in c.issued && Accepts(group, sequence)
    requires h in Marked(c, group, sequence, t).groups
    ensures GroupOk(Marked(c, group, sequence, t), h)
  {
    var after := Marked(c, group, sequence, t);
    if h in c.groups { assert GroupOk(c, h); }
    forall w | w in after.groups[h].waiters ensures WaitersOk(after, h, w) {
      if h in c.groups && w in c.groups[h].waiters { assert WaitersOk(c, h, w); }
    }
  }

  lemma MarkedConsistent(c: Ledger, group: Group, sequence: int, t: Ticket)
    requires Consistent(c) && t !in c.issued && Accepts(group, sequence)
    ensures Consistent(Marked(c, group, sequence, t))
  {
    var after := Marked(c, group, sequence, t);
    forall h | h in after.groups ensures GroupOk(after, h) { MarkedGroupOk(c, group, sequence, t, h); }
    forall u | u in after.issued ensures TicketOk(after, u) {
      if u != t { assert TicketOk(c, u); }
    }
  }

  lemma AcknowledgedConsistent(c: Ledger, group: Group, sequence: int)
    requires Consistent(c) && sequence <= StateOf(c.groups, group).latest
    ensures Consistent(Acknowledged(c, group, sequence))
    ensures StateOf(c.groups, group).acked < sequence ==> Released(StateOf(c.groups, group), sequence) !! c.closed
  {
    var after, g := Acknowledged(c, group, sequence), StateOf(c.groups, group);
    if group in c.groups { assert GroupOk(c, group); }
    forall u | u in Released(g, sequence)
      ensures u in c.issued && c.issued[u].0 == group && c.issued[u].1 <= sequence && u !in c.closed
    {
      var w :| w in g.waiters && w <= sequence && u in g.waiters[w];
      assert WaitersOk(c, group, w);
    }
    forall h | h in after.groups ensures GroupOk(after, h) {
      if h in c.groups { assert GroupOk(c, h); }
      forall w | w in after.groups[h].waiters ensures WaitersOk(after, h, w) {
        if h in c.groups && w in c.groups[h].waiters { assert WaitersOk(c, h, w); }
      }
    }
    forall u | u in after.issued ensures TicketOk(after, u) { assert TicketOk(c, u); }
  }

  // ---- the flusher ------------------------------------------------------------------

  /** The groups with something to tell, and their latest sequences. */
  ghost function Dirty(groups: map<Group, GroupState>): map<Group, int> {
    map g | g in groups && groups[g].latest > groups[g].acked :: groups[g].latest
  }

  class Flusher {
    var groups: map<Group, GroupState>
    var closed: set<Ticket>
    ghost var issued: map<Ticket, (Group, int)>

    ghost function Now(): Ledger
      reads this
    {
      Ledger(groups, closed, issued)
    }

    constructor ()
      ensures Now() == Ledger(map[], {}, map[]) && Consistent(Now())
    {
      groups, closed, issued := map[], {}, map[];
    }

    /** Closing a closed channel panics. */
    method CloseChannel(t: Ticket)
      requires t !in closed
      modifies this`closed
      ensures closed == old(closed) + {t}
    {
      closed := closed + {t};
    }

    method CloseAll(tickets: seq<Ticket>)
      requires NoRepeats(tickets) && forall t | t in tickets :: t !in closed
      modifies this`closed
      ensures closed == old(closed) + set t | t in tickets
    {
      for i := 0 to |tickets|
        invariant closed == old(closed) + set t | t in tickets[..i]
      {
        assert tickets[i] !in tickets[..i];
        CloseChannel(tickets[i]);
        assert tickets[..i + 1] == tickets[..i] + [tickets[i]];
      }
      assert tickets[..|tickets|] == tickets;
    }

    /** Issues a ticket for a sequence; one that is acknowledged already is completed at once. */
    method MarkDirty(group: Group, sequence: int, ticket: Ticket) returns (ok: bool)
      requires Consistent(Now()) && ticket !in issued
      modifies this
      ensures Consistent(Now()) && (ok <==> Accepts(group, sequence))
      ensures Now() == if ok then Marked(old(Now()), group, sequence, ticket) else old(Now())
    {
      if !Accepts(group, sequence) { return false; }
      MarkedConsistent(Now(), group, sequence, ticket);
      var state := StateOf(groups, group);
      if sequence <= state.acked {
        CloseChannel(ticket);
      } else {
        state := state.(waiters := state.waiters[sequence := WaitersAt(state, sequence) + [ticket]]);
        if sequence > state.latest { state := state.(latest := sequence); }
        groups := groups[group := state];
      }
      issued := issued[ticket := (group, sequence)];
      return true;
    }

    /** Completes and removes the waiters of one sequence, if it is acknowledged. */
    method ReleaseOne(ghost before: Ledger, ghost group: Group, sequence: int, state: GroupState, ghost done: set<int>,
                      waiters: map<int, seq<Ticket>>, w: int)
        returns (left: map<int, seq<Ticket>>)
      requires Consistent(before) && state == StateOf(before.groups, group) && w in state.waiters && w !in done
      requires waiters == Kept(state.waiters, done, sequence)
      requires closed == before.closed + ReleasedIn(state, sequence, done)
      modifies this`closed
      ensures left == Kept(state.waiters, done + {w}, sequence)
      ensures closed == before.closed + ReleasedIn(state, sequence, done + {w})
    {
      NotReleasedYet(before, group, sequence, done, w);
      ReleasedNext(state, sequence, done, w);
      left := waiters;
      if w <= sequence {
        CloseAll(waiters[w]);
        left := waiters - {w};
      }
    }

    /** Completes and removes the waiters up to a sequence, in whatever order the map gives them. */
    method Release(ghost group: Group, sequence: int, state: GroupState) returns (waiters: map<int, seq<Ticket>>)
      requires Consistent(Now()) && state == StateOf(groups, group)
      modifies this`closed
      ensures waiters == Remaining(state.waiters, sequence)
      ensures closed == old(closed) + Released(state, sequence)
    {
      ghost var before := Now();
      waiters := state.waiters;
      var rest := state.waiters.Keys;
      ghost var done: set<int> := {};
      while rest != {}
        invariant rest == state.waiters.Keys - done
        invariant waiters == Kept(state.waiters, done, sequence)
        invariant closed == before.closed + ReleasedIn(state, sequence, done)
        decreases |rest|
      {
        SomeMember(rest);
        var w :| w in rest;
        waiters := ReleaseOne(before, group, sequence, state, done, waiters, w);
        rest, done := rest - {w}, done + {w};
      }
      assert ReleasedIn(state, sequence, done) == Released(state, sequence);
    }

    /** What flush does under the lock once a send succeeded. */
    method Acknowledge(group: Group, sequence: int)
      requires Consistent(Now()) && sequence <= StateOf(groups, group).latest
      modifies this`groups, this`closed
      ensures Consistent(Now()) && Now() == Acknowledged(old(Now()), group, sequence)
    {
      AcknowledgedConsistent(Now(), group, sequence);
      var state := StateOf(groups, group);
      if sequence > state.acked {
        var waiters := Release(group, sequence, state);
        state := state.(acked := sequence, waiters := waiters);
      }
      groups := groups[group := state];
    }

    /** The locked first part of flush. */
    method Snapshot() returns (pending: map<Group, int>)
      ensures pending == Dirty(groups)
    {
      pending := map[];
      var rest := groups.Keys;
      while rest != {}
        invariant rest <= groups.Keys
        invariant pending == map g | g in groups && g !in rest && groups[g].latest > groups[g].acked :: groups[g].latest
        decreases |rest|
      {
        var g :| g in rest;
        if groups[g].latest > groups[g].acked { pending := pending[g := groups[g].latest]; }
        rest := rest - {g};
      }
    }

    /** What Flush waits for: then every ticket ever issued is completed. */
    method Idle() returns (idle: bool)
      requires Consistent(Now())
      ensures idle <==> Dirty(groups) == map[]
      ensures idle ==> forall t | t in issued :: t in closed
    {
      var pending := Snapshot();
      if pending != map[] { return false; }
      forall t | t in issued ensures t in closed {
        assert TicketOk(Now(), t);
        var (group, sequence) := issued[t];
        if group in groups {
          assert GroupOk(Now(), group);
          assert group !in pending;
          if sequence in groups[group].waiters { assert WaitersOk(Now(), group, sequence); }
        }
      }
      return true;
    }
  }

  ghost function Kept(waiters: map<int, seq<Ticket>>, done: set<int>, sequence: int): map<int, seq<Ticket>> {
    map w | w in waiters && (w !in done || w > sequence) :: waiters[w]
  }

  ghost function ReleasedIn(g: GroupState, sequence: int, done: set<int>): set<Ticket> {
    set w, t | w in g.waiters && w in done && w <= sequence && t in g.waiters[w] :: t
  }

  lemma SomeMember(s: set<int>)
    requires s != {}
    ensures exists w :: w in s
  {
    assert (forall w :: w !in s) ==> s == {};
  }

  lemma ReleasedNext(g: GroupState, sequence: int, done: set<int>, w: int)
    requires w in g.waiters
    ensures ReleasedIn(g, sequence, done + {w}) ==
            ReleasedIn(g, sequence, done) + if w <= sequence then set t | t in g.waiters[w] else {}
  {
  }

  /** No ticket waits for two sequences. */
  lemma NotReleasedYet(c: Ledger, group: Group, sequence: int, done: set<int>, w: int)
    requires Consistent(c) && w in StateOf(c.groups, group).waiters && w !in done
    ensures NoRepeats(StateOf(c.groups, group).waiters[w])
    ensures forall t | t in StateOf(c.groups, group).waiters[w] ::
      t !in c.closed && t !in ReleasedIn(StateOf(c.groups, group), sequence, done)
  {
    assert GroupOk(c, group) && WaitersOk(c, group, w);
    forall v, t | v in done && v in c.groups[group].waiters && t in c.groups[group].waiters[v]
      ensures t !in c.groups[group].waiters[w]
    {
      assert WaitersOk(c, group, v);
    }
  }

  // ---- how long to wait after failures ---------------------------------------------------

  /** Interval and largest backoff in force, out of what is configured. */
  datatype Timings = Timings(interval: int, maxBackoff: int)

  function TimingsOf(interval: int, maxBackoff: int, standard: int): Timings {
    var i := if interval <= 0 then standard else interval;
    Timings(i, if maxBackoff < i then i else maxBackoff)
  }

  /** The delay before the next pass, and whether wake-ups are ignored until then. */
  function NextDelay(delay: int, failed: bool, t: Timings): (int, bool) {
    if !failed then (t.interval, false)
    else
      var doubled := delay * 2;
      var raised := if doubled < t.interval then t.interval else doubled;
      (if raised > t.maxBackoff then t.maxBackoff else raised, true)
  }

  function AfterFailures(n: nat, t: Timings): int {
    if n == 0 then t.interval else NextDelay(AfterFailures(n - 1, t), true, t).0
  }

  function Power(n: nat): nat {
    if n == 0 then 1 else 2 * Power(n - 1)
  }

  /** Failures in a row double the delay up to the largest backoff, and one success ends it. */
  lemma {:induction false} DelayDoubles(n: nat, interval: int, maxBackoff: int, standard: int)
    requires standard > 0
    ensures var t := TimingsOf(interval, maxBackoff, standard);
      && 0 < t.interval <= t.maxBackoff
      && AfterFailures(n, t) == (if t.interval * Power(n) < t.maxBackoff then t.interval * Power(n) else t.maxBackoff)
      && NextDelay(AfterFailures(n, t), false, t) == (t.interval, false)
  {
    var t := TimingsOf(interval, maxBackoff, standard);
    if n > 0 {
      DelayDoubles(n - 1, interval, maxBackoff, standard);
      Doubled(t.interval, Power(n - 1));
    }
  }

  lemma Doubled(a: int, b: nat)
    requires a > 0
    ensures a * (2 * b) == 2 * (a * b) >= 0
  {
  }
}
