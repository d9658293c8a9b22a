/** The probing loop of replication: a leader asks, a follower answers. With a resume before each
    exchange the follower's log begins with the leader's after a bounded number of them, whatever the
    record; without one, exactly the exchanges that bring news keep the loop going. */
module Replication {
  import opened RaftTypes
  import opened SizeLimit
  import opened AbstractLog
  import opened ProgressSpec
  import opened NodeSpec
  import opened LogProperties

  datatype Pair = Pair(leader: Node, follower: Node) {
    function Peer(): Pr
      requires follower.id in leader.prs
    {
      leader.prs[follower.id]
    }
  }

  /** The leader's record of the follower claims only what the follower holds. The next index may lie
      anywhere in the log, also at or below what is matched. */
  ghost predicate Honest(pr: Pr, f: Log, leader: seq<Entry>) {
    && 1 <= pr.nextIdx <= |leader| + 1
    && pr.matched <= |leader| && (pr.matched <= f.committed || Holds(f, leader, pr.matched))
  }

  /** A node that may hear from the leader of `term`: it is not ahead, and does not lead that term. */
  ghost predicate Hears(f: Node, term: nat) {
    f.WellFormed() && f.term <= term && (f.role == Leader ==> f.term < term)
  }

  /** A leader whose log starts at index 1, and a peer that may hear it: Log Matching between the two logs
      and agreement on what the peer has committed. */
  ghost predicate Paired(p: Pair) {
    && p.leader.WellFormed() && p.leader.role == Leader && p.leader.term >= 1
    && Hears(p.follower, p.leader.term)
    && p.leader.log.base == 0 && p.leader.log.baseTerm == 0
    && p.follower.id in p.leader.prs && p.follower.id != p.leader.id
    && Follows(p.follower.log, p.leader.log.ents)
    && Honest(p.Peer(), p.follower.log, p.leader.log.ents)
  }

  /** The peer is being probed. */
  ghost predicate Linked(p: Pair) { Paired(p) && p.Peer().state == Probe }

  /** One exchange: `send_append`, the delivery of the request to the peer, and that of its answer to
      the leader. */
  ghost predicate ExchangeBy(p: Pair, q: Pair, n: Node, req: Message, resp: Message) {
    && p.follower.WellFormed() && n.WellFormed()
    && SendAppend(p.leader, p.follower.id) == Done(n, {req})
    && req.to == p.follower.id && Step(p.follower, req, AS_MEANT) == Done(q.follower, {resp})
    && resp.to == n.id && Step(n, resp, AS_MEANT) == Done(q.leader, {})
  }

  ghost predicate Exchange(p: Pair, q: Pair) {
    exists n: Node, req: Message, resp: Message :: ExchangeBy(p, q, n, req, resp)
  }

  /** The pair after `Progress::resume` on the leader's record. */
  function Resumed(p: Pair): Pair
    requires p.follower.id in p.leader.prs
  {
    p.(leader := p.leader.(prs := p.leader.prs[p.follower.id := p.Peer().(paused := false)]))
  }

  /** A resume and then an exchange. */
  ghost predicate Round(p: Pair, q: Pair) {
    p.follower.id in p.leader.prs && Exchange(Resumed(p), q)
  }

  /** How many rounds can still be needed: the way of the next index to what is matched, from either
      side, and the indices not yet known to match. */
  ghost function Gap(p: Pair): nat
    requires Linked(p)
  {
    GapOf(p.Peer(), |p.leader.log.ents|)
  }

  ghost function GapOf(pr: Pr, last: nat): int {
    (if pr.nextIdx > pr.matched then pr.nextIdx - 1 - pr.matched else pr.matched + 1 - pr.nextIdx) + last - pr.matched
  }

  ghost predicate CaughtUp(p: Pair) {
    && p.follower.id in p.leader.prs && p.Peer().matched == |p.leader.log.ents|
    && Holds(p.follower.log, p.leader.log.ents, |p.leader.log.ents|)
  }

  // ---- asking ----

  /** The batch for a peer that expects `next`: a cut of the leader's log, empty only at its end. */
  lemma BatchIsCut(n: Node, next: nat) returns (c: Cut)
    requires n.WellFormed() && n.log.base == 0 && 1 <= next <= |n.log.ents| + 1
    ensures c.idx == next - 1 <= c.e <= |n.log.ents| && c.commit == n.log.committed
    ensures c.idx == c.e ==> c.idx == |n.log.ents|
    ensures Batch(n, next) == Ok(n.log.ents[c.idx..c.e])
  {
    var l := n.log;
    if next > l.LastIndex() {
      c := Cut(next - 1, next - 1, l.committed);
    } else {
      assert l.Range(next, l.LastIndex() + 1) == l.ents[next - 1..];
      LimitKeepsOne(l.ents[next - 1..], n.maxMsgSize);
      var es := LimitSize(l.ents[next - 1..], n.maxMsgSize);
      c := Cut(next - 1, next - 1 + |es|, l.committed);
      assert es == l.ents[c.idx..c.e];
    }
  }

  lemma Asked(p: Pair) returns (n: Node, req: Message, c: Cut)
    requires Linked(p) && !p.Peer().paused
    ensures SendAppend(p.leader, p.follower.id) == Done(n, {req})
    ensures c.idx == p.Peer().nextIdx - 1 <= c.e <= |p.leader.log.ents|
    ensures c.idx == c.e ==> c.idx == |p.leader.log.ents|
    ensures req.mtype == MsgAppend && req.index == c.idx && req.commit == c.commit == p.leader.log.committed
    ensures req.to == p.follower.id && req.from == p.leader.id && req.term == p.leader.term
    ensures req.logTerm == TermIn(p.leader.log.ents, c.idx) && req.entries == p.leader.log.ents[c.idx..c.e]
    ensures Batch(p.leader, p.Peer().nextIdx) == Ok(p.leader.log.ents[c.idx..c.e])
    ensures n == p.leader.(prs := p.leader.prs[p.follower.id := p.Peer().(paused := c.idx < c.e)])
  {
    var next := p.Peer().nextIdx;
    c := BatchIsCut(p.leader, next);
    var es := p.leader.log.ents[c.idx..c.e];
    req := AppendMessage(p.leader, p.follower.id, next, es);
    assert SendTo(p.leader, p.follower.id) == Sending(p.Peer().(paused := c.idx < c.e), {req});
    n := p.leader.(prs := p.leader.prs[p.follower.id := p.Peer().(paused := c.idx < c.e)]);
  }

  lemma LimitKeepsOne(es: seq<Entry>, max: nat)
    requires es != []
    ensures LimitSize(es, max) <= es && LimitSize(es, max) != []
  {
    assert es[..0] == [] && TotalSize([]) == 0;
  }

  // ---- answering ----

  /** The peer as the follower that handles the append: a candidate, or a node of a lower term, first
      becomes one. */
  function Heard(f: Node, term: nat, leader: nat): Node {
    if f.term < term || f.role != Follower then BecomeFollower(f, term, leader) else f
  }

  lemma HearsAppend(f: Node, m: Message)
    requires m.mtype == MsgAppend && m.term >= 1 && Hears(f, m.term)
    ensures var h := Heard(f, m.term, m.from);
            && Step(f, m, AS_MEANT) == HandleAppend(h, m, AS_MEANT)
            && h.WellFormed() && h.role == Follower && h.term == m.term && h.id == f.id && h.log == f.log
  {
  }

  lemma LeaderHears(n: Node, m: Message)
    requires n.WellFormed() && n.role == Leader && n.term == m.term >= 1 && m.mtype == MsgAppendResponse
    ensures Step(n, m, AS_MEANT) == HandleAppendResponse(n, m)
  {
  }

  /** The follower will refuse what the leader sends next. */
  ghost predicate WillReject(p: Pair)
    requires Paired(p)
  {
    var idx := p.Peer().nextIdx - 1;
    idx >= p.follower.log.committed && !p.follower.log.MatchTerm(idx, TermIn(p.leader.log.ents, idx))
  }

  /** The index an acceptance of a batch up to `e` will acknowledge. */
  ghost function WillAck(p: Pair, e: nat): nat
    requires Paired(p)
  {
    if p.Peer().nextIdx - 1 < p.follower.log.committed then p.follower.log.committed else e
  }

  /** The commit mark of the follower afterwards: an acceptance takes the leader's over, as far as the batch
      goes. */
  ghost function WillCommit(p: Pair, e: nat): nat
    requires Paired(p)
  {
    var mark := p.follower.log.committed;
    if p.Peer().nextIdx - 1 < mark || WillReject(p) then mark else Max(mark, Min(p.leader.log.committed, e))
  }

  /** What an answer may say: a rejection with a hint, never about an index known to be held; or an
      acknowledgement of what is held. */
  ghost predicate Fair(pr: Pr, c: Cut, leader: seq<Entry>, before: Log, f: Log, resp: Message) {
    if resp.reject then
      resp.index == c.idx > pr.matched && resp.rejectHint >= pr.matched && f == before
    else
      && resp.index <= |leader| && Holds(f, leader, resp.index)
      && (resp.index == c.e || c.idx < resp.index)
      && (pr.matched <= f.committed || Holds(f, leader, pr.matched))
  }

  /** Three answers: what is committed already, what was accepted, or a rejection with a hint. The
      follower keeps following, and its log grows to the end of the batch at most. */
  lemma Answered(p: Pair, req: Message, c: Cut) returns (f: Node, resp: Message)
    requires Paired(p)
    requires c.idx == p.Peer().nextIdx - 1 <= c.e <= |p.leader.log.ents|
    requires req.mtype == MsgAppend && req.index == c.idx && req.commit == c.commit
    requires req.from == p.leader.id && req.term == p.leader.term && c.commit == p.leader.log.committed
    requires req.logTerm == TermIn(p.leader.log.ents, c.idx) && req.entries == p.leader.log.ents[c.idx..c.e]
    ensures Step(p.follower, req, AS_MEANT) == Done(f, {resp})
    ensures f.WellFormed() && f.role == Follower && f.term == p.leader.term
    ensures resp.mtype == MsgAppendResponse && resp.to == p.leader.id && resp.term == p.leader.term
    ensures resp.from == f.id == p.follower.id && Follows(f.log, p.leader.log.ents)
    ensures f.log.base == p.follower.log.base && f.log.LastIndex() <= Max(p.follower.log.LastIndex(), c.e)
    ensures Fair(p.Peer(), c, p.leader.log.ents, p.follower.log, f.log, resp)
    ensures resp.reject <==> WillReject(p)
    ensures !resp.reject ==> resp.index == WillAck(p, c.e)
    ensures f.log.committed == WillCommit(p, c.e)
  {
    HearsAppend(p.follower, req);
    var l, fl, h := p.leader.log.ents, p.follower.log, Heard(p.follower, req.term, req.from);
    f := h;
    if c.idx < fl.committed {
      resp := Message(MsgAppendResponse, req.from, f.id, f.term, index := fl.committed);
    } else if fl.MatchTerm(c.idx, TermIn(l, c.idx)) {
      f := Accepts(h, l, req, c, p.Peer().matched);
      resp := Message(MsgAppendResponse, req.from, f.id, f.term, index := c.e);
    } else {
      NeverRejectsHeld(p, c.idx);
      resp := Message(MsgAppendResponse, req.from, f.id, f.term, index := c.idx, reject := true,
                      rejectHint := fl.LastIndex());
      assert fl.MaybeAppend(req.index, req.logTerm, req.commit, req.entries) == Rejected;
    }
  }

  /** The answer to a cut that matches. */
  lemma Accepts(f: Node, l: seq<Entry>, req: Message, c: Cut, m: nat) returns (f': Node)
    requires Follows(f.log, l) && c.From(f.log, l) && c.Accepts(f.log, l) && f.log.committed <= c.idx
    requires m <= |l| && (m <= f.log.committed || Holds(f.log, l, m))
    requires req.index == c.idx && req.commit == c.commit
    requires req.logTerm == TermIn(l, c.idx) && req.entries == l[c.idx..c.e]
    ensures HandleAppend(f, req, AS_MEANT) ==
            Done(f', {Message(MsgAppendResponse, req.from, f.id, f.term, index := c.e)})
    ensures f' == f.(log := f'.log) && Follows(f'.log, l) && f'.log.base == f.log.base && Holds(f'.log, l, c.e)
    ensures f'.log.LastIndex() <= Max(f.log.LastIndex(), c.e)
    ensures f'.log.committed == Max(f.log.committed, Min(c.commit, c.e))
    ensures m <= f'.log.committed || Holds(f'.log, l, m)
  {
    CutOutcome(f.log, l, c);
    AfterFollows(f.log, l, c);
    StillHolds(f.log, l, c, m);
    f' := f.(log := After(f.log, l, c));
  }

  /** An accepted append takes nothing away that the leader counts on. */
  lemma StillHolds(fl: Log, l: seq<Entry>, c: Cut, m: nat)
    requires Follows(fl, l) && c.From(fl, l) && c.Accepts(fl, l) && m <= |l|
    requires m <= fl.committed || Holds(fl, l, m)
    ensures var f := After(fl, l, c); m <= f.committed || Holds(f, l, m)
  {
    if m > fl.committed { AfterHolds(fl, l, c, m); }
  }

  /** A term that does not match lies beyond everything the follower is known to hold; index 0, and
      the follower's own base, always match. */
  lemma NeverRejectsHeld(p: Pair, idx: nat)
    requires Paired(p) && idx <= |p.leader.log.ents| && p.follower.log.committed <= idx
    requires !p.follower.log.MatchTerm(idx, TermIn(p.leader.log.ents, idx))
    ensures idx > p.Peer().matched && p.follower.log.LastIndex() >= p.Peer().matched
  {
    var l, f, m := p.leader.log.ents, p.follower.log, p.Peer().matched;
    assert !Holds(f, l, idx) by { if Holds(f, l, idx) && idx > f.base { HoldsMatches(f, l, idx, idx); } }
    if m > f.committed && idx <= m { HoldsBelow(f, l, m, idx); }
  }

  // ---- one whole exchange ----

  lemma Reacted(n: Node, resp: Message) returns (q: Node)
    requires n.WellFormed() && n.role == Leader && n.term == resp.term >= 1
    requires resp.mtype == MsgAppendResponse && resp.from in n.prs
    ensures Step(n, resp, AS_MEANT) == Done(q, {})
    ensures q.WellFormed() && q == n.(log := q.log, prs := n.prs[resp.from := Reaction(n.prs[resp.from], resp)])
    ensures q.log.(committed := n.log.committed) == n.log
  {
    LeaderHears(n, resp);
    q := HandleAppendResponse(n, resp).node;
  }

  function Reaction(pr: Pr, resp: Message): Pr {
    if resp.reject then pr.MaybeDecrTo(resp.index, resp.rejectHint) else pr.MaybeUpdate(resp.index)
  }

  lemma ExchangeEnds(p: Pair, n: Node, req: Message, sent: Pr, f: Node, resp: Message) returns (q: Pair)
    requires p.leader.WellFormed() && p.leader.role == Leader && p.leader.term >= 1
    requires p.follower.WellFormed() && p.follower.id in p.leader.prs
    requires SendAppend(p.leader, p.follower.id) == Done(n, {req}) && req.to == p.follower.id
    requires n == p.leader.(prs := p.leader.prs[p.follower.id := sent])
    requires Step(p.follower, req, AS_MEANT) == Done(f, {resp}) && resp.to == p.leader.id
    requires resp.mtype == MsgAppendResponse && resp.from == p.follower.id && resp.term == p.leader.term
    ensures Exchange(p, q) && q.follower == f
    ensures q.leader.WellFormed() && q.leader == p.leader.(log := q.leader.log, prs := q.leader.prs)
    ensures q.leader.log.(committed := p.leader.log.committed) == p.leader.log
    ensures q.leader.prs == p.leader.prs[p.follower.id := Reaction(sent, resp)]
  {
    var l := Reacted(n, resp);
    q := Pair(l, f);
    assert ExchangeBy(p, q, n, req, resp);
  }

  /** The parts of an exchange: the cut sent, the answer, and the two nodes afterwards. */
  lemma ExchangeParts(p: Pair) returns (q: Pair, c: Cut, resp: Message)
    requires Linked(p) && !p.Peer().paused
    ensures Exchange(p, q)
    ensures c.idx == p.Peer().nextIdx - 1 <= c.e <= |p.leader.log.ents|
    ensures c.idx == c.e ==> c.idx == |p.leader.log.ents|
    ensures Batch(p.leader, p.Peer().nextIdx) == Ok(p.leader.log.ents[c.idx..c.e])
    ensures q.follower.id == p.follower.id && Hears(q.follower, p.leader.term)
    ensures q.follower.log.base == p.follower.log.base
    ensures q.follower.log.LastIndex() <= Max(p.follower.log.LastIndex(), c.e)
    ensures Follows(q.follower.log, p.leader.log.ents)
    ensures Fair(p.Peer(), c, p.leader.log.ents, p.follower.log, q.follower.log, resp)
    ensures resp.reject <==> WillReject(p)
    ensures !resp.reject ==> resp.index == WillAck(p, c.e)
    ensures q.follower.log.committed == WillCommit(p, c.e)
    ensures q.leader.WellFormed() && q.leader == p.leader.(log := q.leader.log, prs := q.leader.prs)
    ensures q.leader.log.(committed := p.leader.log.committed) == p.leader.log
    ensures q.leader.prs == p.leader.prs[p.follower.id := Reaction(p.Peer().(paused := c.idx < c.e), resp)]
  {
    var n, req;
    n, req, c := Asked(p);
    var f;
    f, resp := Answered(p, req, c);
    q := ExchangeEnds(p, n, req, p.Peer().(paused := c.idx < c.e), f, resp);
  }

  /** Every exchange with a peer that is not paused can take place. It keeps the two logs linked and
      the leader's entries as they are, closes the gap by at least one, and leaves the peer unpaused
      exactly if it was rejected, acknowledged something new, or sent nothing. */
  lemma ExchangeProgress(p: Pair) returns (q: Pair, c: Cut)
    requires Linked(p) && !p.Peer().paused
    ensures Exchange(p, q) && Linked(q)
    ensures q.leader == p.leader.(log := q.leader.log, prs := q.leader.prs) && q.follower.id == p.follower.id
    ensures q.leader.prs == p.leader.prs[p.follower.id := q.Peer()]
    ensures q.leader.log.ents == p.leader.log.ents && q.follower.log.base == p.follower.log.base
    ensures q.follower.log.LastIndex() <= Max(p.follower.log.LastIndex(), c.e)
    ensures q.follower.log.committed == WillCommit(p, c.e)
    ensures Gap(q) < Gap(p) || Gap(q) == Gap(p) == 0
    ensures c.idx == p.Peer().nextIdx - 1 <= c.e <= |p.leader.log.ents|
    ensures Batch(p.leader, p.Peer().nextIdx) == Ok(p.leader.log.ents[c.idx..c.e])
    ensures q.Peer().paused <==> !WillReject(p) && WillAck(p, c.e) <= p.Peer().matched && c.idx < c.e
    ensures q.Peer().matched == if WillReject(p) then p.Peer().matched else Max(p.Peer().matched, WillAck(p, c.e))
    ensures p.Peer().nextIdx > p.Peer().matched ==> q.Peer().nextIdx > q.Peer().matched
    ensures !WillReject(p) ==> q.Peer() == p.Peer().(paused := c.idx < c.e).MaybeUpdate(WillAck(p, c.e))
  {
    var resp;
    q, c, resp := ExchangeParts(p);
    HonestAfter(p.Peer().(paused := c.idx < c.e), c, p.leader.log.ents, p.follower.log, q.follower.log, resp);
  }

  lemma HonestAfter(pr: Pr, c: Cut, leader: seq<Entry>, before: Log, f: Log, resp: Message)
    requires Honest(pr, before, leader) && pr.state == Probe && (pr.paused <==> c.idx < c.e)
    requires c.idx == pr.nextIdx - 1 <= c.e <= |leader| && (c.idx == c.e ==> c.idx == |leader|)
    requires Follows(f, leader) && Fair(pr, c, leader, before, f, resp)
    ensures var r, last := Reaction(pr, resp), |leader|;
            && r.state == Probe && Honest(r, f, leader)
            && (GapOf(r, last) < GapOf(pr, last) || GapOf(r, last) == GapOf(pr, last) == 0)
            && (r.paused <==> !resp.reject && resp.index <= pr.matched && c.idx < c.e)
            && (r.matched == if resp.reject then pr.matched else Max(pr.matched, resp.index))
            && (pr.nextIdx > pr.matched ==> r.nextIdx > r.matched)
  {
  }

  lemma ExchangeUnique(p: Pair, q: Pair, q': Pair)
    requires Exchange(p, q) && Exchange(p, q')
    ensures q == q'
  {
    var n: Node, req: Message, resp: Message :| ExchangeBy(p, q, n, req, resp);
    var n': Node, req': Message, resp': Message :| ExchangeBy(p, q', n', req', resp');
    assert {req} == {req'} && req in {req'};
    assert {resp} == {resp'} && resp in {resp'};
  }

  lemma NoGapCaughtUp(p: Pair)
    requires Linked(p) && Gap(p) == 0
    ensures CaughtUp(p)
  {
    var l, f, m := p.leader.log.ents, p.follower.log, p.Peer().matched;
    if !Holds(f, l, m) { HoldsBelow(f, l, f.committed, m); }
  }

  // ---- whether the loop goes on by itself ----

  /** The next exchange brings news: it will be rejected, it will acknowledge more than is matched, or
      it sends nothing. */
  ghost predicate BringsNews(p: Pair)
    requires Linked(p)
  {
    var batch := Batch(p.leader, p.Peer().nextIdx);
    || WillReject(p)
    || (batch.Ok? && (batch.value == [] || WillAck(p, p.Peer().nextIdx - 1 + |batch.value|) > p.Peer().matched))
  }

  /** Exactly the exchanges that bring news leave the peer ready for another. */
  lemma PausesExactly(p: Pair, q: Pair)
    requires Linked(p) && Exchange(p, q)
    ensures q.follower.id in q.leader.prs && (!q.Peer().paused <==> BringsNews(p))
  {
    ExchangeUnpaused(p, q);
    var q', c := ExchangeProgress(p);
    ExchangeUnique(p, q, q');
  }

  /** A paused peer is sent nothing, so there is no exchange with it. */
  lemma ExchangeUnpaused(p: Pair, q: Pair)
    requires Linked(p) && Exchange(p, q)
    ensures !p.Peer().paused
  {
    var n: Node, req: Message, resp: Message :| ExchangeBy(p, q, n, req, resp);
    assert req in SendAppend(p.leader, p.follower.id).out;
  }

  /** While the next index is above what is matched every exchange brings news. */
  lemma AheadBringsNews(p: Pair)
    requires Linked(p) && p.Peer().matched < p.Peer().nextIdx
    ensures BringsNews(p)
  {
    var c := BatchIsCut(p.leader, p.Peer().nextIdx);
  }

  /** So where the next exchange brings none it is the last one for good, unless the leader resumes. */
  lemma StallsWithoutNews(p: Pair) returns (q: Pair)
    requires Linked(p) && !p.Peer().paused && !BringsNews(p)
    ensures Exchange(p, q) && Linked(q) && q.Peer().matched == p.Peer().matched
    ensures q.leader.log.ents == p.leader.log.ents && q.leader.id == p.leader.id && q.follower.id == p.follower.id
    ensures var batch := Batch(p.leader, p.Peer().nextIdx);
            && batch.Ok?
            && q.follower.log.LastIndex() <= Max(p.follower.log.LastIndex(), p.Peer().nextIdx - 1 + |batch.value|)
    ensures forall r :: !Exchange(q, r)
  {
    var c;
    q, c := ExchangeProgress(p);
    PausesExactly(p, q);
    forall r ensures !Exchange(q, r) {
      if Exchange(q, r) { ExchangeUnpaused(q, r); }
    }
  }

  // ---- any number of rounds ----

  ghost predicate Rounds(ps: seq<Pair>) {
    ps != [] && forall k :: 0 <= k < |ps| - 1 ==> Round(ps[k], ps[k + 1])
  }

  lemma ResumedLinked(p: Pair)
    requires Linked(p)
    ensures Linked(Resumed(p)) && Gap(Resumed(p)) == Gap(p) && !Resumed(p).Peer().paused
  {
  }

  /** Every round is possible and closes the gap. */
  lemma RoundProgress(p: Pair) returns (q: Pair)
    requires Linked(p)
    ensures Round(p, q) && Linked(q)
    ensures q.leader.id == p.leader.id && q.leader.term == p.leader.term && q.follower.id == p.follower.id
    ensures q.leader.prs == p.leader.prs[p.follower.id := q.Peer()]
    ensures q.leader.log.ents == p.leader.log.ents && q.follower.log.base == p.follower.log.base
    ensures Gap(q) < Gap(p) || Gap(q) == Gap(p) == 0
  {
    ResumedLinked(p);
    var c;
    q, c := ExchangeProgress(Resumed(p));
    ResumedOverwritten(p, q.Peer());
  }

  lemma ResumedOverwritten(p: Pair, pr: Pr)
    requires p.follower.id in p.leader.prs
    ensures Resumed(p).leader.prs[p.follower.id := pr] == p.leader.prs[p.follower.id := pr]
  {
  }

  /** Replication converges from every honest record: after as many rounds as the gap counts, or more,
      the follower holds the whole leader log, and the leader knows it. */
  lemma {:induction false} Converges(ps: seq<Pair>)
    requires Rounds(ps) && Linked(ps[0]) && |ps| > Gap(ps[0])
    ensures Linked(ps[|ps| - 1]) && CaughtUp(ps[|ps| - 1])
    ensures ps[|ps| - 1].leader.log.ents == ps[0].leader.log.ents
    ensures ps[|ps| - 1].follower.log.base == ps[0].follower.log.base
    decreases |ps|
  {
    if |ps| == 1 {
      NoGapCaughtUp(ps[0]);
    } else {
      var q := RoundProgress(ps[0]);
      assert Round(ps[0], ps[0 + 1]);
      ExchangeUnique(Resumed(ps[0]), ps[1], q);
      var rest := ps[1..];
      forall k | 0 <= k < |rest| - 1 ensures Round(rest[k], rest[k + 1]) {
        assert Round(ps[k + 1], ps[k + 1 + 1]);
      }
      Converges(rest);
    }
  }

  ghost predicate Exchanges(ps: seq<Pair>) {
    ps != [] && forall k :: 0 <= k < |ps| - 1 ==> Exchange(ps[k], ps[k + 1])
  }

  lemma ResumedSame(p: Pair)
    requires p.follower.id in p.leader.prs && !p.Peer().paused
    ensures Resumed(p) == p
  {
    assert p.leader.prs[p.follower.id := p.Peer()] == p.leader.prs;
  }

  lemma UnaidedRound(p: Pair, q: Pair)
    requires Linked(p) && Exchange(p, q) && !p.Peer().paused && p.Peer().matched < p.Peer().nextIdx
    ensures Round(p, q) && Linked(q) && !q.Peer().paused && q.Peer().matched < q.Peer().nextIdx
  {
    var q', c := ExchangeProgress(p);
    ExchangeUnique(p, q, q');
    AheadBringsNews(p);
    PausesExactly(p, q);
    ResumedSame(p);
  }

  /** Without any resume the exchanges are rounds all the same, from a record whose next index is above
      what is matched: no exchange pauses the peer, and the next index stays above. */
  lemma {:induction false} UnaidedAreRounds(ps: seq<Pair>)
    requires Exchanges(ps) && Linked(ps[0])
    requires !ps[0].Peer().paused && ps[0].Peer().matched < ps[0].Peer().nextIdx
    ensures Rounds(ps)
    decreases |ps|
  {
    if |ps| > 1 {
      assert Exchange(ps[0], ps[0 + 1]);
      UnaidedRound(ps[0], ps[1]);
      var rest := ps[1..];
      forall k | 0 <= k < |rest| - 1 ensures Exchange(rest[k], rest[k + 1]) {
        assert Exchange(ps[k + 1], ps[k + 1 + 1]);
      }
      UnaidedAreRounds(rest);
      forall k | 0 <= k < |ps| - 1 ensures Round(ps[k], ps[k + 1]) {
        if k > 0 { assert Round(rest[k - 1], rest[k - 1 + 1]); }
      }
    }
  }

  /** For a follower with nothing compacted this is equality of the first entries; a fresh probe needs no
      resume and at most two exchanges for each entry of the leader's log. */
  lemma ConvergesFromScratch(ps: seq<Pair>)
    requires Exchanges(ps) && Linked(ps[0]) && ps[0].follower.log.base == 0
    requires ps[0].Peer().matched == 0 && !ps[0].Peer().paused && |ps| > 2 * |ps[0].leader.log.ents|
    ensures var l := ps[0].leader.log.ents;
            |ps[|ps| - 1].follower.log.ents| >= |l| && ps[|ps| - 1].follower.log.ents[..|l|] == l
  {
    UnaidedAreRounds(ps);
    Converges(ps);
  }
}
