/** What an answer does in a run: a candidate counts it, and a node that learns of a later term from it
    steps down. */
module Responses {
  import opened RaftTypes
  import opened AbstractLog
  import opened ProgressSpec
  import opened Quorum
  import opened NodeSpec
  import opened Cluster
  import opened SentMessages
  import opened Deliveries
  import L = Elections

  // ---- answers to a candidate ----

  /** The answer is one the node waits for: to its requests, and of its term, or of the term it would enter. */
  predicate Awaited(n: Node, m: Message) {
    || (n.role == Candidate && m.mtype == MsgRequestVoteResponse && m.term == n.term)
    || (n.role == PreCandidate && m.mtype == MsgRequestPreVoteResponse
        && (m.term == n.term || (m.term > n.term && !m.reject)))
  }

  /** Only the first answer of a voter is heeded. */
  function Heeded(n: Node, m: Message): map<nat, bool> {
    if m.from in n.votes then n.votes else n.votes[m.from := !m.reject]
  }

  function InFavour(votes: map<nat, bool>): set<nat> { set v | v in votes && votes[v] }

  /** A follower of no one, in the term it was in and with the vote it gave. */
  ghost predicate SteppedDown(n: Node, o: Outcome, term: nat) {
    && o.Done? && o.out == {} && o.node.id == n.id && o.node.role == Follower && o.node.leaderId == INVALID_ID
    && o.node.term == term && o.node.vote == (if term == n.term then n.vote else INVALID_ID)
    && o.node.log == n.log && o.node.votes == map[]
  }

  /** With a majority in favour a candidate leads its term, opens it with an empty entry and sends that to
      everyone; a pre-candidate enters the next term and asks everyone for real, or leads it if there is no
      one else. Short of one, the node gives up or waits on, having taken note. */
  ghost predicate Counted(n: Node, m: Message, ch: Choice, o: Outcome) {
    if |InFavour(Heeded(n, m))| >= Majority(|n.voters|) then
      if n.role == Candidate then n.term >= 1 && L.Wins(o, n.(term := n.term - 1))
      else if n.voters == {n.id} then L.Wins(o, n)
      else L.Goes(o, n, {n.id}, false)
    else if ch.giveUp then SteppedDown(n, o, n.term)
    else o == Done(n.(votes := Heeded(n, m)), {})
  }

  lemma ElectionGoes(c: Node, n: Node)
    requires L.FromOne(c) && c.id == n.id && c.voters == n.voters && c.log == n.log && c.term == n.term
    requires c.role != Leader && n.id in n.voters
    ensures var o := CampaignElection(c); if n.voters == {n.id} then L.Wins(o, n) else L.Goes(o, n, {n.id}, false)
  {
    var d := RegisterVote(BecomeCandidate(c), c.id, true);
    L.OwnVote(d);
    if Elected(d) { L.AloneTells(d); }
    L.Begins(c, n);
  }

  lemma CountedAs(n: Node, m: Message, ch: Choice)
    requires Sound(n) && n.id in n.voters && Awaited(n, m)
    ensures Counted(n, m, ch, CountVote(n, m, ch))
  {
    var c := RegisterVote(n, m.from, !m.reject);
    assert c == n.(votes := Heeded(n, m)) && Backers(c) == InFavour(Heeded(n, m));
    if Elected(c) {
      if n.role == PreCandidate { ElectionGoes(c, n); } else { L.LeadsAndSays(c, n.(term := n.term - 1)); }
    }
  }

  lemma AwaitedIsCounted(n: Node, m: Message, ch: Choice)
    requires n.WellFormed() && Awaited(n, m) && m.term >= 1
    ensures Step(n, m, ch) == CountVote(n, m, ch)
  {
    assert Enter(n, m, ch) == Proceed(n);
  }

  /** In every run an awaited answer is counted. */
  lemma AnswerDelivered(r: Run, voters: set<nat>, k: nat, i: nat, m: Message, ch: Choice)
    requires IsRun(r, voters) && k < |r| && Arrives(r[k], i, m) && Awaited(r[k].nodes[i], m)
    ensures r[k].nodes[i].WellFormed() && Counted(r[k].nodes[i], m, ch, Step(r[k].nodes[i], m, ch))
  {
    ArrivesSafely(r, voters, k, i, m, ch);
    IsVoter(r, voters, k, i);
    AwaitedIsCounted(r[k].nodes[i], m, ch);
    CountedAs(r[k].nodes[i], m, ch);
  }

  // ---- news of a later term ----

  /** An answer that tells of a later term; a granted pre-vote names a term that no one need have entered. */
  predicate Later(n: Node, m: Message) {
    && m.term > n.term
    && (m.mtype in {MsgAppendResponse, MsgHeartbeatResponse, MsgRequestVoteResponse}
        || (m.mtype == MsgRequestPreVoteResponse && m.reject))
  }

  lemma LaterEffect(n: Node, m: Message, ch: Choice)
    requires n.WellFormed() && Later(n, m)
    ensures SteppedDown(n, Step(n, m, ch), m.term)
  {
  }

  /** In every run an answer of a later term takes the node there, free to vote, whatever it was. */
  lemma NewsDelivered(r: Run, voters: set<nat>, k: nat, i: nat, m: Message, ch: Choice)
    requires IsRun(r, voters) && k < |r| && Arrives(r[k], i, m) && Later(r[k].nodes[i], m)
    ensures r[k].nodes[i].WellFormed() && SteppedDown(r[k].nodes[i], Step(r[k].nodes[i], m, ch), m.term)
  {
    ArrivesSafely(r, voters, k, i, m, ch);
    LaterEffect(r[k].nodes[i], m, ch);
  }
}
