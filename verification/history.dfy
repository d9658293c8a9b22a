/** What a proof remembers about a run: who led each term with which log, how every vote was cast,
    and how far every node ever acknowledged a leader's log. None of it is visible to the nodes. */
module History {
  import opened RaftTypes
  import opened ProgressSpec
  import opened NodeSpec

  datatype Vote = Vote(cand: nat, log: seq<Entry>)

  datatype Win = Win(leader: nat, quorum: set<nat>)

  /** `led`: the longest log the leader of a term ever had.
      `wins`: who won a term, with the votes of which quorum.
      `voted`: whom a node chose in a term, and its own log then.
      `camp`: the log a node campaigned with in a term.
      `acked`: how much of a term's leader log a node acknowledged in that term. */
  datatype Hist = Hist(
    led: map<nat, seq<Entry>>,
    wins: map<nat, Win>,
    voted: map<(nat, nat), Vote>,
    camp: map<(nat, nat), seq<Entry>>,
    acked: map<(nat, nat), nat>)

  function Acked(g: Hist, i: nat, t: nat): nat {
    if (i, t) in g.acked then g.acked[(i, t)] else 0
  }

  /** The first `k` entries exist on both sides and are the same. */
  ghost predicate Same(a: seq<Entry>, b: seq<Entry>, k: nat) {
    k <= |a| && k <= |b| && forall x :: 0 <= x < k ==> a[x] == b[x]
  }

  function LastTermOf(es: seq<Entry>): nat {
    if es == [] then 0 else es[|es| - 1].term
  }

  predicate UpToDate(es: seq<Entry>, other: seq<Entry>) {
    LastTermOf(es) > LastTermOf(other) || (LastTermOf(es) == LastTermOf(other) && |es| >= |other|)
  }

  // ---- logs ----

  /** Entry `k` sits at index `k + 1` and was copied, with everything before it, from the log of the
      leader of its term. */
  ghost predicate GoodEntry(g: Hist, es: seq<Entry>, k: nat, bound: int)
    requires k < |es|
  {
    && es[k].index == k + 1 && 1 <= es[k].term <= bound
    && es[k].term in g.led && Same(es, g.led[es[k].term], k + 1)
  }

  ghost predicate GoodLog(g: Hist, es: seq<Entry>, bound: int) {
    forall k :: 0 <= k < |es| ==> GoodEntry(g, es, k, bound)
  }

  // ---- what is chosen ----

  ghost function AckSet(g: Hist, voters: set<nat>, t: nat, k: nat): set<nat> {
    set q | q in voters && Acked(g, q, t) >= k
  }

  /** A majority acknowledged the first `k` entries of the leader of term `t`, the last of which the
      leader wrote itself. */
  ghost predicate Chosen(g: Hist, voters: set<nat>, t: nat, k: nat) {
    && t in g.led && 1 <= k <= |g.led[t]| && g.led[t][k - 1].term == t
    && |AckSet(g, voters, t, k)| >= Majority(|voters|)
  }

  /** The first `c` entries of `es` were chosen in a term up to `bound`. */
  ghost predicate CommittedBy(g: Hist, voters: set<nat>, es: seq<Entry>, c: nat, t: nat, k: nat, bound: int) {
    t <= bound && Chosen(g, voters, t, k) && c <= k && Same(es, g.led[t], c)
  }

  ghost predicate CommitOk(g: Hist, voters: set<nat>, es: seq<Entry>, c: nat, bound: int) {
    c == 0 || exists t: nat, k: nat :: CommittedBy(g, voters, es, c, t, k, bound)
  }

  // ---- what acknowledging binds a node to ----

  /** A leader of a term in `(t, bound]` whose log departs from the first `k` entries of term `t`'s. */
  ghost predicate Departs(g: Hist, t: nat, k: nat, u: nat, bound: int) {
    t in g.led && t < u <= bound && u in g.led && !Same(g.led[t], g.led[u], k)
  }

  /** `es` still holds the first `k` entries of term `t`'s leader, unless a later leader departed. */
  ghost predicate Kept(g: Hist, es: seq<Entry>, t: nat, k: nat, bound: int) {
    t in g.led && (Same(g.led[t], es, k) || exists u: nat :: Departs(g, t, k, u, bound))
  }

  /** `es` keeps whatever node `i` acknowledged in the terms up to `bound`. */
  ghost predicate KeepOk(g: Hist, i: nat, es: seq<Entry>, bound: int) {
    forall t: nat, k: nat :: t <= bound && 0 < k <= Acked(g, i, t) ==> Kept(g, es, t, k, bound)
  }

  // ---- the history by itself ----

  ghost predicate LedOk(g: Hist) {
    && g.led.Keys == g.wins.Keys
    && forall t :: t in g.led ==> t >= 1 && GoodLog(g, g.led[t], t)
  }

  ghost predicate WinOk(g: Hist, voters: set<nat>, t: nat)
    requires t in g.wins
  {
    var w := g.wins[t];
    && w.leader in voters && w.quorum <= voters && |w.quorum| >= Majority(|voters|)
    && (forall q :: q in w.quorum ==> (q, t) in g.voted && g.voted[(q, t)].cand == w.leader)
    && (w.leader, t) in g.camp && t in g.led
    && Same(g.camp[(w.leader, t)], g.led[t], |g.camp[(w.leader, t)]|)
  }

  ghost predicate WinsOk(g: Hist, voters: set<nat>) {
    forall t :: t in g.wins ==> WinOk(g, voters, t)
  }

  ghost predicate VoteOk(g: Hist, voters: set<nat>, j: nat, t: nat)
    requires (j, t) in g.voted
  {
    var v := g.voted[(j, t)];
    && j in voters && GoodLog(g, v.log, t)
    && (v.cand, t) in g.camp && UpToDate(g.camp[(v.cand, t)], v.log)
  }

  ghost predicate VotesOk(g: Hist, voters: set<nat>) {
    forall j, t :: (j, t) in g.voted ==> VoteOk(g, voters, j, t)
  }

  ghost predicate CampsOk(g: Hist, voters: set<nat>) {
    forall j, t :: (j, t) in g.camp ==> j in voters && t >= 1 && GoodLog(g, g.camp[(j, t)], t - 1)
  }

  ghost predicate AcksOk(g: Hist, voters: set<nat>) {
    forall j: nat, t: nat :: Acked(g, j, t) > 0 ==> j in voters && t in g.led && Acked(g, j, t) <= |g.led[t]|
  }

  /** When a vote that can still elect was cast, the voter held what it had acknowledged in earlier
      terms, or a leader in between had departed from it. */
  ghost predicate PastOk(g: Hist) {
    forall j, t ::
      (j, t) in g.voted && (t in g.wins ==> j in g.wins[t].quorum) ==> KeepOk(g, j, g.voted[(j, t)].log, t - 1)
  }

  ghost predicate HistOk(g: Hist, voters: set<nat>) {
    LedOk(g) && WinsOk(g, voters) && VotesOk(g, voters) && CampsOk(g, voters) && AcksOk(g, voters) && PastOk(g)
  }

  // ---- a node against the history ----

  ghost predicate Shape(voters: set<nat>, i: nat, n: Node) {
    && i in voters && n.id == i && n.voters == voters && (forall j :: j in n.prs <==> j in voters)
    && n.log.base == 0 && n.log.baseTerm == 0
    && n.log.applied <= n.log.committed <= |n.log.ents|
  }

  ghost predicate BallotOk(g: Hist, i: nat, n: Node) {
    && (n.vote != INVALID_ID ==> (i, n.term) in g.voted && g.voted[(i, n.term)].cand == n.vote)
    && (n.vote == INVALID_ID ==> (i, n.term) !in g.voted)
  }

  /** Nothing is remembered about node `i` beyond its own term. */
  ghost predicate NotAhead(g: Hist, i: nat, term: nat) {
    && (forall t :: (i, t) in g.voted ==> t <= term)
    && (forall t :: (i, t) in g.camp ==> t <= term)
    && (forall t :: t in g.wins && g.wins[t].leader == i ==> t <= term)
    && (forall t: nat :: Acked(g, i, t) > 0 ==> t <= term)
  }

  ghost predicate CandidateOk(g: Hist, voters: set<nat>, i: nat, n: Node) {
    n.role == Candidate ==>
      && (i, n.term) in g.camp && g.camp[(i, n.term)] == n.log.ents
      && (n.term in g.wins ==> g.wins[n.term].leader != i)
      && (forall j :: j in n.votes && n.votes[j] ==>
            j in voters && (j, n.term) in g.voted && g.voted[(j, n.term)].cand == i)
  }

  ghost predicate PeerOk(g: Hist, n: Node, j: nat)
    requires j in n.prs
  {
    n.prs[j].matched <= Acked(g, j, n.term) && 1 <= n.prs[j].nextIdx <= |n.log.ents| + 1 &&
    n.prs[j].state != Snapshotting
  }

  ghost predicate LeaderOk(g: Hist, i: nat, n: Node) {
    n.role == Leader ==>
      && n.term in g.wins && g.wins[n.term].leader == i
      && n.term in g.led && g.led[n.term] == n.log.ents
      && forall j :: j in n.prs ==> PeerOk(g, n, j)
  }

  ghost predicate NodeOk(g: Hist, voters: set<nat>, i: nat, n: Node) {
    && Shape(voters, i, n)
    && GoodLog(g, n.log.ents, n.term)
    && BallotOk(g, i, n)
    && NotAhead(g, i, n.term)
    && CandidateOk(g, voters, i, n)
    && LeaderOk(g, i, n)
    && KeepOk(g, i, n.log.ents, n.term)
    && CommitOk(g, voters, n.log.ents, n.log.committed, n.term)
  }

  // ---- a message against the history ----

  ghost predicate RequestOk(g: Hist, m: Message) {
    (m.from, m.term) in g.camp && m.index == |g.camp[(m.from, m.term)]| &&
    m.logTerm == LastTermOf(g.camp[(m.from, m.term)])
  }

  ghost predicate GrantOk(g: Hist, m: Message) {
    (m.from, m.term) in g.voted && g.voted[(m.from, m.term)].cand == m.to
  }

  ghost predicate AppendOk(g: Hist, voters: set<nat>, m: Message) {
    && m.term in g.led
    && var l := g.led[m.term];
       && m.index + |m.entries| <= |l|
       && (forall x :: 0 <= x < |m.entries| ==> m.entries[x] == l[m.index + x])
       && m.logTerm == (if m.index == 0 then 0 else l[m.index - 1].term)
       && CommitOk(g, voters, l, m.commit, m.term)
  }

  ghost predicate HeartbeatOk(g: Hist, voters: set<nat>, m: Message) {
    && m.term in g.led && m.commit <= Acked(g, m.to, m.term)
    && CommitOk(g, voters, g.led[m.term], m.commit, m.term)
  }

  ghost predicate MsgOk(g: Hist, voters: set<nat>, m: Message) {
    && m.term >= 1 && m.from in voters
    && match m.mtype
       case MsgRequestVote => RequestOk(g, m)
       case MsgRequestVoteResponse => m.reject || GrantOk(g, m)
       case MsgAppend => AppendOk(g, voters, m)
       case MsgAppendResponse => m.reject || m.index <= Acked(g, m.from, m.term)
       case MsgHeartbeat => HeartbeatOk(g, voters, m)
       case MsgHup => false
       case _ => true
  }

  // ---- growth ----

  /** `g'` remembers everything `g` does; leader logs only grew, by entries of their own term. */
  ghost predicate LedGrows(a: seq<Entry>, b: seq<Entry>, t: nat) {
    Same(a, b, |a|) && forall x :: |a| <= x < |b| ==> b[x].term == t
  }

  ghost predicate Grows(g: Hist, g': Hist) {
    && (forall t :: t in g.led ==> t in g'.led && LedGrows(g.led[t], g'.led[t], t))
    && (forall t :: t in g.wins ==> t in g'.wins && g'.wins[t] == g.wins[t])
    && (forall j, t :: (j, t) in g.voted ==> (j, t) in g'.voted && g'.voted[(j, t)] == g.voted[(j, t)])
    && (forall j, t :: (j, t) in g.camp ==> (j, t) in g'.camp && g'.camp[(j, t)] == g.camp[(j, t)])
    && (forall j: nat, t: nat :: Acked(g, j, t) <= Acked(g', j, t))
  }

  /** Only what concerns node `i` was added. */
  ghost predicate OnlyAbout(g: Hist, g': Hist, i: nat) {
    && (forall t :: t in g'.wins && t !in g.wins ==> g'.wins[t].leader == i)
    && (forall t :: t in g.led && t in g'.led && t in g.wins && g.wins[t].leader != i ==> g'.led[t] == g.led[t])
    && (forall j, t :: (j, t) in g'.voted && (j, t) !in g.voted ==> j == i)
    && (forall j, t :: (j, t) in g'.camp && (j, t) !in g.camp ==> j == i)
    && (forall j: nat, t: nat :: j != i ==> Acked(g', j, t) == Acked(g, j, t))
  }
}
