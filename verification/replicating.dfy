/** Replication to a peer that is believed to keep up: batches go out one after the other without waiting,
    and whatever is lost of them the exchanges still converge. */
module Replicating {
  import opened RaftTypes
  import opened SizeLimit
  import opened AbstractLog
  import opened ProgressSpec
  import opened NodeSpec
  import opened LogProperties
  import opened Replication

  /** A leader replicating to a peer. */
  ghost predicate Streaming(p: Pair) { Paired(p) && p.Peer().state == Replicate }

  /** The peer's record once a batch up to `e` is sent. */
  function Streamed(pr: Pr, e: nat): Pr {
    if pr.nextIdx - 1 < e then pr.(nextIdx := e + 1, ins := pr.ins + [e]) else pr
  }

  lemma Streams(p: Pair) returns (n: Node, req: Message, c: Cut)
    requires Streaming(p) && !p.Peer().IsPaused()
    ensures SendAppend(p.leader, p.follower.id) == Done(n, {req})
    ensures c.idx == p.Peer().nextIdx - 1 <= c.e <= |p.leader.log.ents|
    ensures c.idx == c.e ==> c.idx == |p.leader.log.ents|
    ensures req.mtype == MsgAppend && req.index == c.idx && req.commit == c.commit == p.leader.log.committed
    ensures req.to == p.follower.id && req.from == p.leader.id && req.term == p.leader.term
    ensures req.logTerm == TermIn(p.leader.log.ents, c.idx) && req.entries == p.leader.log.ents[c.idx..c.e]
    ensures n == p.leader.(prs := p.leader.prs[p.follower.id := Streamed(p.Peer(), c.e)])
  {
    var next := p.Peer().nextIdx;
    c := BatchIsCut(p.leader, next);
    var es := p.leader.log.ents[c.idx..c.e];
    req := AppendMessage(p.leader, p.follower.id, next, es);
    assert es != [] ==> es[|es| - 1].index == c.e;
    assert SendTo(p.leader, p.follower.id) == Sending(Streamed(p.Peer(), c.e), {req});
    n := p.leader.(prs := p.leader.prs[p.follower.id := Streamed(p.Peer(), c.e)]);
  }

  /** What is left to do: twice the indices not known to match, and how far the next index is from the one
      behind them; one rejection takes it there from above, however far. */
  function LeftOf(pr: Pr, last: nat): int {
    2 * (last - pr.matched)
    + if pr.nextIdx > pr.matched + 1 then 1 else if pr.nextIdx == pr.matched + 1 then 0 else pr.matched + 2 - pr.nextIdx
  }

  ghost function Left(p: Pair): int
    requires Streaming(p)
  {
    LeftOf(p.Peer(), |p.leader.log.ents|)
  }

  /** The record before a batch was sent and after the answer to it. */
  ghost predicate Advances(pr: Pr, r: Pr, last: nat) {
    && r.state == Replicate && r.cap == pr.cap && r.matched >= pr.matched
    && (LeftOf(r, last) < LeftOf(pr, last) || (LeftOf(r, last) == LeftOf(pr, last) == 0))
  }

  lemma AnswerAdvances(pr: Pr, c: Cut, leader: seq<Entry>, before: Log, f: Log, resp: Message)
    requires Honest(pr, before, leader) && pr.state == Replicate
    requires c.idx == pr.nextIdx - 1 <= c.e <= |leader| && (c.idx == c.e ==> c.idx == |leader|)
    requires Follows(f, leader) && Fair(pr, c, leader, before, f, resp)
    ensures var r := Reaction(Streamed(pr, c.e), resp);
            Honest(r, f, leader) && Advances(pr, r, |leader|) && (resp.reject ==> r.nextIdx == pr.matched + 1)
  {
  }

  lemma StreamParts(p: Pair) returns (q: Pair, c: Cut, resp: Message)
    requires Streaming(p) && !p.Peer().IsPaused()
    ensures Exchange(p, q)
    ensures c.idx == p.Peer().nextIdx - 1 <= c.e <= |p.leader.log.ents|
    ensures c.idx == c.e ==> c.idx == |p.leader.log.ents|
    ensures q.follower.id == p.follower.id && Hears(q.follower, p.leader.term)
    ensures q.follower.log.base == p.follower.log.base && Follows(q.follower.log, p.leader.log.ents)
    ensures Fair(p.Peer(), c, p.leader.log.ents, p.follower.log, q.follower.log, resp)
    ensures resp.reject <==> WillReject(p)
    ensures q.leader.WellFormed() && q.leader == p.leader.(log := q.leader.log, prs := q.leader.prs)
    ensures q.leader.log.(committed := p.leader.log.committed) == p.leader.log
    ensures q.leader.prs == p.leader.prs[p.follower.id := Reaction(Streamed(p.Peer(), c.e), resp)]
  {
    var n, req;
    n, req, c := Streams(p);
    var f;
    f, resp := Answered(p, req, c);
    q := ExchangeEnds(p, n, req, Streamed(p.Peer(), c.e), f, resp);
  }

  /** Every exchange with a peer that has room in its window can take place, keeps the two paired, and leaves
      less to do; a rejection takes the next index right behind what is matched. */
  lemma StreamProgress(p: Pair) returns (q: Pair)
    requires Streaming(p) && !p.Peer().IsPaused()
    ensures Exchange(p, q) && Streaming(q) && q.follower.id == p.follower.id
    ensures q.leader.log.ents == p.leader.log.ents && q.follower.log.base == p.follower.log.base
    ensures q.Peer().cap == p.Peer().cap && q.Peer().matched >= p.Peer().matched
    ensures Left(q) < Left(p) || Left(q) == Left(p) == 0
    ensures WillReject(p) ==> q.Peer().nextIdx == q.Peer().matched + 1
  {
    var c, resp;
    q, c, resp := StreamParts(p);
    AnswerAdvances(p.Peer(), c, p.leader.log.ents, p.follower.log, q.follower.log, resp);
  }

  // ---- lost batches ----

  /** What follows right behind what the peer is known to hold is never refused. */
  lemma NotRefusedTwice(p: Pair)
    requires Streaming(p) && p.Peer().nextIdx == p.Peer().matched + 1
    ensures !WillReject(p)
  {
    if WillReject(p) { NeverRejectsHeld(p, p.Peer().matched); }
  }

  /** A lost batch costs one exchange: the next is refused, and the one after that taken. */
  lemma LossCostsOne(p: Pair, q: Pair)
    requires Streaming(p) && WillReject(p) && Exchange(p, q)
    ensures Streaming(q) && !WillReject(q)
  {
    var s := Exchanged(p, q);
    NotRefusedTwice(q);
  }

  /** A peer with a full window is sent nothing. */
  lemma ExchangeHasRoom(p: Pair, q: Pair)
    requires p.follower.id in p.leader.prs && Exchange(p, q)
    ensures !p.Peer().IsPaused()
  {
    var n: Node, req: Message, resp: Message :| ExchangeBy(p, q, n, req, resp);
    assert req in SendAppend(p.leader, p.follower.id).out;
  }

  lemma Exchanged(p: Pair, q: Pair) returns (s: Pair)
    requires Streaming(p) && Exchange(p, q)
    ensures s == q && Streaming(q) && q.follower.id == p.follower.id
    ensures q.leader.log.ents == p.leader.log.ents && q.follower.log.base == p.follower.log.base
    ensures q.Peer().cap == p.Peer().cap && (Left(q) < Left(p) || Left(q) == Left(p) == 0)
    ensures WillReject(p) ==> q.Peer().nextIdx == q.Peer().matched + 1
  {
    ExchangeHasRoom(p, q);
    s := StreamProgress(p);
    ExchangeUnique(p, q, s);
  }

  // ---- any number of exchanges ----

  /** The pair after `Inflights::free_to` on the leader's record. */
  function Freed(p: Pair, upTo: nat): Pair
    requires p.follower.id in p.leader.prs
  {
    p.(leader := p.leader.(prs := p.leader.prs[p.follower.id := p.Peer().FreeTo(upTo)]))
  }

  /** Some of the window is freed, or none, and then there is an exchange. */
  ghost predicate Turn(p: Pair, q: Pair) {
    p.follower.id in p.leader.prs && exists upTo :: Exchange(Freed(p, upTo), q)
  }

  lemma FreedStreams(p: Pair, upTo: nat)
    requires Streaming(p)
    ensures Streaming(Freed(p, upTo)) && Left(Freed(p, upTo)) == Left(p)
    ensures Freed(p, upTo).leader.log == p.leader.log && Freed(p, upTo).follower == p.follower
    ensures Freed(p, upTo).Peer() == p.Peer().FreeTo(upTo)
  {
  }

  lemma TurnProgress(p: Pair, q: Pair)
    requires Streaming(p) && Turn(p, q)
    ensures Streaming(q) && q.leader.log.ents == p.leader.log.ents && q.follower.log.base == p.follower.log.base
    ensures Left(q) < Left(p) || Left(q) == Left(p) == 0
  {
    var upTo :| Exchange(Freed(p, upTo), q);
    FreedStreams(p, upTo);
    var s := Exchanged(Freed(p, upTo), q);
  }

  lemma {:induction false} AllFreed(ins: seq<nat>) returns (upTo: nat)
    ensures forall x :: x in ins ==> x <= upTo
  {
    if ins == [] {
      upTo := 0;
    } else {
      var rest := AllFreed(ins[1..]);
      upTo := Max(ins[0], rest);
      forall x | x in ins ensures x <= upTo { if x != ins[0] { assert x in ins[1..]; } }
    }
  }

  lemma {:induction false} FreesAll(ins: seq<nat>, upTo: nat)
    requires forall x :: x in ins ==> x <= upTo
    ensures FreedTo(ins, upTo) == []
  {
    if ins != [] {
      assert ins[0] in ins;
      forall x | x in ins[1..] ensures x <= upTo { assert x in ins; }
      FreesAll(ins[1..], upTo);
    }
  }

  /** A turn is always possible where the window has room for something at all. */
  lemma TurnPossible(p: Pair) returns (q: Pair)
    requires Streaming(p) && p.Peer().cap > 0
    ensures Turn(p, q)
  {
    var upTo := AllFreed(p.Peer().ins);
    FreesAll(p.Peer().ins, upTo);
    FreedStreams(p, upTo);
    q := StreamProgress(Freed(p, upTo));
  }

  ghost predicate Turns(ps: seq<Pair>) {
    ps != [] && forall k :: 0 <= k < |ps| - 1 ==> Turn(ps[k], ps[k + 1])
  }

  lemma NothingLeft(p: Pair)
    requires Streaming(p) && Left(p) == 0
    ensures CaughtUp(p)
  {
    var l, f, m := p.leader.log.ents, p.follower.log, p.Peer().matched;
    if !Holds(f, l, m) { HoldsBelow(f, l, f.committed, m); }
  }

  /** Replication without waiting converges as well, from every honest record and whatever was lost: after
      as many turns as there is left to do, or more, the follower holds the whole leader log, and the leader
      knows it. */
  lemma {:induction false} StreamingConverges(ps: seq<Pair>)
    requires Turns(ps) && Streaming(ps[0]) && |ps| > Left(ps[0])
    ensures Streaming(ps[|ps| - 1]) && CaughtUp(ps[|ps| - 1])
    ensures ps[|ps| - 1].leader.log.ents == ps[0].leader.log.ents
    decreases |ps|
  {
    if |ps| == 1 {
      NothingLeft(ps[0]);
    } else {
      assert Turn(ps[0], ps[0 + 1]);
      TurnProgress(ps[0], ps[1]);
      var rest := ps[1..];
      forall k | 0 <= k < |rest| - 1 ensures Turn(rest[k], rest[k + 1]) { assert Turn(ps[k + 1], ps[k + 1 + 1]); }
      StreamingConverges(rest);
    }
  }
}
