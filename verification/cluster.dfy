/** The nodes of one cluster and everything ever sent between them. Messages are never removed, so
    a run may lose, repeat and reorder them freely. */
module Cluster {
  import opened RaftTypes
  import opened AbstractLog
  import opened ProgressSpec
  import opened NodeSpec

  datatype State = State(nodes: map<nat, Node>, sent: set<Message>)

  /** A change a leader may make to a peer's record outside the two acknowledgement rules. None of
      them touches `matched`. */
  datatype Tuning =
    | TuneProbe
    | TuneReplicate
    | TuneResume
    | TunePause
    | TuneFreeTo(upTo: nat)
    | TuneActive(active: bool)

  function Tuned(pr: Pr, t: Tuning): Pr {
    match t
    case TuneProbe => pr.BecomeProbe()
    case TuneReplicate => pr.BecomeReplicate()
    case TuneResume => pr.(paused := false)
    case TunePause => pr.(paused := true)
    case TuneFreeTo(upTo) => pr.FreeTo(upTo)
    case TuneActive(active) => pr.(recentActive := active)
  }

  datatype Action =
    | Deliver(m: Message, ch: Choice)
    | Timeout
    | Propose(es: seq<Entry>)
    | Replicating(to: nat)
    | Beat(to: nat, context: Bytes)
    | Tune(peer: nat, tuning: Tuning)
    | Apply(idx: nat)
    | Crash(hs: HardState, applied: nat)

  /** The local message that starts a campaign. */
  function HupMessage(n: Node): Message { Message(MsgHup, INVALID_ID, n.id, 0) }

  /** When an action may happen at a node: what was sent to it, what its role allows, and for a
      restart a hard state it once wrote (same term and vote, possibly an older commit mark). */
  ghost predicate Enabled(s: State, n: Node, a: Action) {
    match a
    case Deliver(m, _) => m in s.sent && m.to == n.id
    case Timeout => true
    case Propose(_) => n.role == Leader
    case Replicating(to) => n.role == Leader && to != n.id
    case Beat(to, _) => n.role == Leader && to != n.id
    case Tune(peer, _) => n.role == Leader && peer in n.prs && peer != n.id
    case Apply(idx) => n.log.CanApply(idx)
    case Crash(hs, applied) =>
      && hs.term == n.term && hs.vote == n.vote && hs.commit <= n.log.committed
      && applied <= hs.commit
  }

  ghost function Perform(n: Node, a: Action): Outcome
    requires n.WellFormed()
  {
    match a
    case Deliver(m, ch) => Step(n, m, ch)
    case Timeout => Step(n, HupMessage(n), Choice(false, false, false))
    case Propose(es) => Done(AppendEntry(n, es), {})
    case Replicating(to) => SendAppend(n, to)
    case Beat(to, context) => SendHeartbeat(n, to, context)
    case Tune(peer, tuning) =>
      if peer in n.prs then Done(n.(prs := n.prs[peer := Tuned(n.prs[peer], tuning)]), {}) else Done(n, {})
    case Apply(idx) => Done(n.(log := n.log.AppliedTo(idx)), {})
    case Crash(hs, applied) => Restart(n, hs, applied)
  }

  /** A node that never ran: term 0, empty log, no vote. */
  ghost predicate Fresh(n: Node, i: nat, voters: set<nat>) {
    && n.id == i && n.voters == voters && n.prs.Keys == voters
    && n.role == Follower && n.term == 0 && n.vote == INVALID_ID && n.leaderId == INVALID_ID && n.votes == map[]
    && n.log == Log(0, 0, [], 0, 0)
  }

  ghost predicate Init(s: State, voters: set<nat>) {
    && voters != {} && INVALID_ID !in voters
    && s.nodes.Keys == voters && s.sent == {}
    && forall i :: i in s.nodes ==> Fresh(s.nodes[i], i, voters)
  }

  ghost predicate NextBy(s: State, s': State, i: nat, a: Action) {
    && i in s.nodes && s.nodes[i].WellFormed() && Enabled(s, s.nodes[i], a)
    && var o := Perform(s.nodes[i], a);
       o.Done? && s' == State(s.nodes[i := o.node], s.sent + o.out)
  }

  ghost predicate Next(s: State, s': State) {
    exists i, a :: NextBy(s, s', i, a)
  }

  type Run = seq<State>

  ghost predicate StepAt(r: Run, k: nat)
    requires k + 1 < |r|
  {
    Next(r[k], r[k + 1])
  }

  ghost predicate IsRun(r: Run, voters: set<nat>) {
    && r != [] && Init(r[0], voters)
    && forall k :: 0 <= k < |r| - 1 ==> StepAt(r, k)
  }
}
