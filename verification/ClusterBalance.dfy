/**
 Moving a client to another Home node on request: a plan is claimed, tried, and its outcome is
 reported until it is acknowledged.

 Models CLIProxyAPI/internal/home/cluster_balance.go and what NewLifetime of client.go carries
 over.  The remote may answer anything: replies are parameters, and so is whether the client is
 fit to move at each point where that is asked.  Calls do not overlap.
 */
module ClusterBalance {
  import opened Wrappers
  import Text

  datatype Node = Node(ip: string, port: int, clients: int)

  datatype Plan = Plan(id: string, term: int, target: Node)

  datatype Outcome = Success | Failure

  /** A reply that was decoded, one that could not be, an explicit refusal of the command, an error. */
  datatype Reply = Answer(ok: bool) | Garbled | Unsupported | Failed

  datatype Command =
    | Enable
    | Claim(plan: Plan, granted: bool)
    | Ping(node: Node, ok: bool)
    | Report(id: string, outcome: Outcome, acknowledged: bool)

  // ---- what may be sent ---------------------------------------------------------------

  /** What the commands so far add up to: the plan that is claimed and not yet acknowledged. */
  datatype Book = NoPlan | Open(plan: Plan, reached: bool, told: Option<Outcome>)

  predicate Allowed(b: Book, c: Command) {
    match c
    case Enable => true
    case Claim(_, _) => b.NoPlan?
    case Ping(node, _) => b.Open? && node == b.plan.target
    case Report(id, outcome, _) =>
      && b.Open? && id == b.plan.id && (b.told == None || b.told == Some(outcome))
      && (outcome.Success? ==> b.reached)
  }

  function Noted(b: Book, c: Command): Book
    requires Allowed(b, c)
  {
    match c
    case Enable => b
    case Claim(plan, granted) => if granted then Open(plan, false, None) else b
    case Ping(_, ok) => if ok then b.(reached := true) else b
    case Report(_, outcome, acknowledged) => if acknowledged then NoPlan else b.(told := Some(outcome))
  }

  predicate Legal(log: seq<Command>)
    decreases |log|, 0
  {
    log == [] || (Legal(log[..|log| - 1]) && Allowed(BookOf(log[..|log| - 1]), log[|log| - 1]))
  }

  function BookOf(log: seq<Command>): Book
    requires Legal(log)
    decreases |log|, 1
  {
    if log == [] then NoPlan else Noted(BookOf(log[..|log| - 1]), log[|log| - 1])
  }

  lemma LegalAppend(log: seq<Command>, c: Command)
    requires Legal(log) && Allowed(BookOf(log), c)
    ensures Legal(log + [c]) && BookOf(log + [c]) == Noted(BookOf(log), c)
  {
    assert (log + [c])[..|log|] == log;
  }

  /** Every prefix of a legal log is legal, and every command was allowed when it was sent. */
  lemma {:induction false} LegalAt(log: seq<Command>, k: nat)
    requires Legal(log) && k <= |log|
    ensures Legal(log[..k])
    ensures k < |log| ==> Allowed(BookOf(log[..k]), log[k]) && Legal(log[..k + 1]) &&
                          BookOf(log[..k + 1]) == Noted(BookOf(log[..k]), log[k])
    decreases |log|
  {
    if k == |log| {
      assert log[..k] == log;
    } else {
      var before := log[..|log| - 1];
      LegalAt(before, k);
      assert before[..k] == log[..k];
      if k < |before| {
        assert before[..k + 1] == log[..k + 1];
      } else {
        assert log[..k + 1] == log && log[..k] == before;
      }
    }
  }

  predicate Granted(c: Command) {
    c.Claim? && c.granted
  }

  /** Main result: no CLAIM is sent while an earlier claimed plan is unacknowledged. */
  lemma AcknowledgedBetween(log: seq<Command>, i: nat, j: nat) returns (a: nat)
    requires Legal(log) && i < j < |log| && Granted(log[i]) && log[j].Claim?
    ensures i < a < j && log[a].Report? && log[a].acknowledged && log[a].id == log[i].plan.id
  {
    var plan := log[i].plan;
    LegalAt(log, i);
    a := i + 1;
    while !(log[a].Report? && log[a].acknowledged)
      invariant i < a <= j && PlanOpen(log, a, plan)
      decreases j - a
    {
      WhileOpen(log, a, plan);
      a := a + 1;
    }
    WhileOpen(log, a, plan);
  }

  /** After this much of the log the plan is claimed and not acknowledged. */
  ghost predicate PlanOpen(log: seq<Command>, k: nat, plan: Plan) {
    k <= |log| && Legal(log[..k]) && BookOf(log[..k]).Open? && BookOf(log[..k]).plan == plan
  }

  lemma WhileOpen(log: seq<Command>, k: nat, plan: Plan)
    requires Legal(log) && k < |log| && PlanOpen(log, k, plan)
    ensures !log[k].Claim? && (log[k].Report? ==> log[k].id == plan.id)
    ensures !(log[k].Report? && log[k].acknowledged) ==> PlanOpen(log, k + 1, plan)
  {
    LegalAt(log, k);
  }

  /** Main result: all reports about one claimed plan name the same plan and the same outcome. */
  lemma OneOutcome(log: seq<Command>, i: nat, j: nat)
    requires Legal(log) && i < j < |log| && log[i].Report? && log[j].Report?
    requires forall k | i < k < j :: !Granted(log[k])
    ensures log[i].id == log[j].id && log[i].outcome == log[j].outcome
  {
    LegalAt(log, i);
    var k := i + 1;
    while k < j
      invariant i < k <= j && Legal(log[..k]) && ToldOnly(BookOf(log[..k]), log[i])
    {
      ToldGoesOn(log, k, log[i]);
      k := k + 1;
    }
    LegalAt(log, j);
  }

  /** Whatever plan is open is the one of this report, with its outcome. */
  ghost predicate ToldOnly(b: Book, report: Command)
    requires report.Report?
  {
    b.NoPlan? || (b.plan.id == report.id && b.told == Some(report.outcome))
  }

  lemma ToldGoesOn(log: seq<Command>, k: nat, report: Command)
    requires Legal(log) && k < |log| && !Granted(log[k]) && report.Report?
    requires Legal(log[..k]) && ToldOnly(BookOf(log[..k]), report)
    ensures Legal(log[..k + 1]) && ToldOnly(BookOf(log[..k + 1]), report)
  {
    LegalAt(log, k);
  }

  lemma BookAt(log: seq<Command>, k: nat)
    requires Legal(log) && k < |log|
    ensures Legal(log[..k]) && Legal(log[..k + 1]) && Allowed(BookOf(log[..k]), log[k])
    ensures BookOf(log[..k + 1]) == Noted(BookOf(log[..k]), log[k])
  {
    LegalAt(log, k);
  }

  /** An open plan was claimed last, and if its target was reached, a ping to it was answered since. */
  lemma OpenSince(log: seq<Command>, k: nat) returns (c: nat, p: nat)
    requires Legal(log) && k <= |log|
    ensures Legal(log[..k])
    ensures BookOf(log[..k]).Open? ==> c < k && log[c] == Claim(BookOf(log[..k]).plan, true)
    ensures BookOf(log[..k]).Open? ==> forall m | c < m < k :: !Granted(log[m])
    ensures BookOf(log[..k]).Open? && BookOf(log[..k]).reached ==>
      c < p < k && log[p] == Ping(BookOf(log[..k]).plan.target, true)
  {
    c, p := 0, 0;
    LegalAt(log, k);
    if k > 0 {
      BookAt(log, k - 1);
      c, p := OpenSince(log, k - 1);
      if Granted(log[k - 1]) { c := k - 1; }
      if log[k - 1].Ping? && log[k - 1].ok { p := k - 1; }
    }
  }

  /** Main result: success is reported only after the target of that plan answered a ping. */
  lemma SuccessAfterPing(log: seq<Command>, j: nat) returns (c: nat, p: nat)
    requires Legal(log) && j < |log| && log[j].Report? && log[j].outcome.Success?
    ensures c < p < j && Granted(log[c]) && log[c].plan.id == log[j].id && log[p] == Ping(log[c].plan.target, true)
    ensures forall m | c < m < j :: !Granted(log[m])
  {
    LegalAt(log, j);
    c, p := OpenSince(log, j);
  }

  // ---- the client ---------------------------------------------------------------------------

  datatype Ended = Nothing | Error | MoveRequested

  predicate SamePlace(a: Node, b: Node) {
    a.ip == Text.Trim(b.ip) && a.port == b.port
  }

  class Client {
    var moving: bool
    var returning: bool
    var target: Node
    var origin: Node
    var current: Node                // the configured Home
    var request: Option<Plan>
    var result: Option<Outcome>
    var registered: bool
    var unsupported: bool
    ghost var Log: seq<Command>

    /** Moving means a claimed plan that reached its target and was not reported. */
    ghost predicate Valid()
      reads this
    {
      && Legal(Log)
      && match BookOf(Log) {
           case NoPlan => !moving && result == None
           case Open(plan, reached, told) =>
             && request == Some(plan)
             && if moving then result == None && reached && told == None && target == plan.target
                else result.Some? && (told == None || told == result) && (result == Some(Success) ==> reached)
         }
    }

    constructor (home: Node)
      ensures Valid() && Log == [] && current == home
    {
      moving, returning, registered, unsupported := false, false, false, false;
      target, origin, current := Node("", 0, 0), Node("", 0, 0), home;
      request, result, Log := None, None, [];
    }

    ghost method Send(c: Command)
      requires Legal(Log) && Allowed(BookOf(Log), c)
      modifies this`Log
      ensures Legal(Log) && Log == old(Log) + [c] && BookOf(Log) == Noted(old(BookOf(Log)), c)
    {
      LegalAppend(Log, c);
      Log := Log + [c];
    }

    /** Registers for balancing if needed, and reports an outcome that is not acknowledged yet. */
    method Sync(fit: bool, enable: Reply, report: Reply) returns (failed: bool)
      requires Valid()
      modifies this`registered, this`unsupported, this`request, this`result, this`Log
      ensures Valid() && old(Log) <= Log
      ensures !fit || moving || old(unsupported) ==> Log == old(Log) && result == old(result) && !failed
      ensures result == old(result) || (result == None && Log != old(Log) &&
        Log[|Log| - 1] == Report(old(request).value.id, old(result).value, true))
    {
      if !fit || moving || unsupported { return false; }
      if !registered {
        failed := Register(enable);
        if !registered { return; }
      }
      if result.None? { return false; }
      failed := ReportResult(report);
    }

    /** Asks Home for balancing; only an explicit refusal switches it off. */
    method Register(enable: Reply) returns (failed: bool)
      requires Valid() && !registered
      modifies this`registered, this`unsupported, this`Log
      ensures Valid() && Log == old(Log) + [Enable]
      ensures registered <==> enable == Answer(true)
      ensures unsupported == (old(unsupported) || enable.Unsupported?)
      ensures failed <==> enable.Garbled? || enable.Failed?
    {
      Send(Enable);
      if enable.Unsupported? {
        unsupported := true;
        return false;
      }
      if !enable.Answer? { return true; }
      registered := enable.ok;
      return false;
    }

    /** Reports the outcome; it is kept until Home acknowledges it. */
    method ReportResult(report: Reply) returns (failed: bool)
      requires Valid() && result.Some? && !moving
      modifies this`request, this`result, this`Log
      ensures Valid() && Log == old(Log) + [Report(old(request).value.id, old(result).value, report == Answer(true))]
      ensures result == if report == Answer(true) then None else old(result)
      ensures failed <==> !report.Answer?
    {
      Send(Report(request.value.id, result.value, report == Answer(true)));
      if !report.Answer? { return true; }
      if report.ok { result, request := None, None; }
      return false;
    }

    /**
     Carries out an instruction: claims the plan, pings its target and decides to move there.
     fit says whether the client may move, asked before the claim, after the ping, and in the
     reports; the payload is None if it does not decode.
     */
    method Execute(payload: Option<Plan>, fit: seq<bool>, cancelled: seq<bool>, claim: Reply, ping: bool, enable: Reply,
                   report: Reply) returns (r: Ended)
      requires Valid() && |fit| == 4 && |cancelled| == 2
      modifies this
      ensures Valid() && old(Log) <= Log && current == old(current)
      ensures r.MoveRequested? <==> moving && !old(moving)
      ensures moving ==> old(moving) || (payload.Some? && target.ip == Text.Trim(payload.value.target.ip) && ping)
      ensures old(moving) || old(result).Some? ==> Log == old(Log) && moving == old(moving) && result == old(result)
      ensures r.MoveRequested? ==> origin == Node(Text.Trim(current.ip), current.port, 0) && !SamePlace(target, current)
      ensures !r.MoveRequested? ==> origin == old(origin) && target == old(target)
    {
      if payload.None? { return Error; }
      var plan := payload.value;
      plan := plan.(target := plan.target.(ip := Text.Trim(plan.target.ip)));
      if plan.id == "" || plan.term <= 0 || plan.target.ip == "" || plan.target.port <= 0 || plan.target.port > 65535 {
        return Nothing;
      }
      var eligible := fit[0] && !moving && registered && result.None? && !SamePlace(plan.target, current);
      if !eligible || cancelled[0] { return Nothing; }
      Send(Claim(plan, claim == Answer(true)));
      if !claim.Answer? { return Error; }
      if !claim.ok { return Nothing; }
      request, result := Some(plan), Some(Failure);
      r := TryTarget(plan, fit[1..], cancelled[1], ping, enable, report);
    }

    /** A claimed plan counts as failed until its target answered and the move was decided. */
    method TryTarget(plan: Plan, fit: seq<bool>, cancelled: bool, ping: bool, enable: Reply,
                     report: Reply) returns (r: Ended)
      requires Valid() && !moving && |fit| == 3
      requires BookOf(Log) == Open(plan, false, None) && result == Some(Failure)
      modifies this
      ensures Valid() && old(Log) <= Log && current == old(current)
      ensures r.MoveRequested? <==> moving
      ensures moving ==> target == plan.target && ping && origin == Node(Text.Trim(current.ip), current.port, 0)
      ensures !moving ==> origin == old(origin) && target == old(target)
    {
      Send(Ping(plan.target, ping));
      if !ping {
        var failed := Sync(fit[0], enable, report);
        if failed { return Error; }
        var recovered := !cancelled && fit[1] && !moving && result.None?;
        return if recovered then Nothing else Error;
      }
      if cancelled || !fit[1] {
        var failed := Sync(fit[2], enable, report);
        return if failed then Error else Nothing;
      }
      origin := Node(Text.Trim(current.ip), current.port, 0);
      target, result, moving := plan.target, None, true;
      return MoveRequested;
    }

    /** The new node answers: the move succeeded, and that is reported. */
    method Finish(fit: bool, enable: Reply, report: Reply) returns (failed: bool)
      requires Valid()
      modifies this
      ensures Valid() && old(Log) <= Log && !moving && !returning && current == old(current)
      ensures old(moving) && Log == old(Log) ==> result == Some(Success) && request == old(request)
    {
      if moving { moving, result := false, Some(Success); }
      returning := false;
      failed := Sync(fit, enable, report);
    }

    /** The new node cannot be used: back to where the client came from. */
    method Fail()
      requires Valid()
      modifies this
      ensures Valid() && Log == old(Log) && !moving && request == old(request) && origin == old(origin)
      ensures !old(moving) ==> result == old(result) && current == old(current) && returning == old(returning)
      ensures old(moving) ==> result == Some(Failure) && returning
      ensures old(moving) && Text.Trim(origin.ip) != "" && origin.port > 0 ==> SamePlace(current.(ip := Text.Trim(current.ip)), origin)
    {
      if !moving { return; }
      moving, returning, result := false, true, Some(Failure);
      SwitchTo(origin);
    }

    method SwitchTo(node: Node)
      modifies this`current
      ensures Text.Trim(node.ip) != "" && node.port > 0 ==> SamePlace(current.(ip := Text.Trim(current.ip)), node)
    {
      var host := Text.Trim(node.ip);
      if host == "" || node.port <= 0 { return; }
      if Text.Trim(current.ip) == host && current.port == node.port { return; }
      Text.TrimTwice(node.ip);
      current := Node(host, node.port, 0);
    }

    /** The supervisor replaces the lifetime; a move in progress goes on at its target. */
    method NewLifetime()
      requires Valid()
      modifies this
      ensures Valid() && Log == old(Log) && moving == old(moving) && request == old(request) && result == old(result)
      ensures !registered && !unsupported && origin == old(origin) && target == old(target)
      ensures if moving then current == Node(target.ip, target.port, 0) else current == old(current)
    {
      registered, unsupported := false, false;
      if moving { current := Node(target.ip, target.port, 0); }
    }
  }

  // ---- choosing a node ---------------------------------------------------------------------------

  predicate Usable(node: Node, current: Node, excludeCurrent: bool) {
    node.ip != "" && 0 < node.port <= 65535 &&
    !(excludeCurrent && node.ip == Text.Trim(current.ip) && node.port == current.port)
  }

  /** The usable nodes with the fewest clients, in order. */
  ghost predicate LeastLoaded(choices: seq<Node>, nodes: seq<Node>, current: Node, excludeCurrent: bool) {
    && (forall n | n in nodes && Usable(n, current, excludeCurrent) ::
          choices != [] && choices[0].clients <= n.clients && (n.clients == choices[0].clients ==> n in choices))
    && (forall n | n in choices ::
          n in nodes && Usable(n, current, excludeCurrent) && n.clients == choices[0].clients)
  }

  /** Draws one of the least loaded nodes; each of them can be drawn. */
  method Choose(nodes: seq<Node>, current: Node, excludeCurrent: bool, draw: real) returns (r: Option<Node>,
                ghost among: seq<Node>)
    requires 0.0 <= draw < 1.0
    ensures LeastLoaded(among, nodes, current, excludeCurrent)
    ensures r.None? <==> forall n | n in nodes :: !Usable(n, current, excludeCurrent)
    ensures r.Some? ==> r.value in nodes && Usable(r.value, current, excludeCurrent)
    ensures r.Some? ==> forall n | n in nodes && Usable(n, current, excludeCurrent) :: r.value.clients <= n.clients
    ensures r.Some? ==> exists i | 0 <= i < |among| ::
      r.value == among[i] && i as real <= draw * |among| as real < (i + 1) as real
  {
    var choices: seq<Node> := [];
    for i := 0 to |nodes|
      invariant LeastLoaded(choices, nodes[..i], current, excludeCurrent)
    {
      var node := nodes[i];
      assert nodes[..i + 1] == nodes[..i] + [node];
      if Usable(node, current, excludeCurrent) {
        if |choices| == 0 || node.clients < choices[0].clients {
          choices := [node];
        } else if node.clients == choices[0].clients {
          choices := choices + [node];
        }
      }
    }
    assert nodes[..|nodes|] == nodes;
    among := choices;
    if |choices| == 0 { return None, among; }
    var i := (draw * |choices| as real).Floor;
    DrawInRange(draw, |choices|);
    assert choices[i] in choices;
    return Some(choices[i]), among;
  }

  lemma DrawInRange(draw: real, n: nat)
    requires 0.0 <= draw < 1.0 && n > 0
    ensures 0 <= (draw * n as real).Floor < n
  {
    assert draw * n as real < 1.0 * n as real;
  }
}
