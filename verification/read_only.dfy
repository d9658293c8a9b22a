/** `ReadOnly`: a map of waiting read requests and a queue of their contexts that together stand for
    one first-in first-out line of requests. */
module ReadIndex {
  import opened RaftTypes

  datatype ReadStatus = ReadStatus(req: Message, index: nat, acks: set<nat>) {
    ghost predicate Keyed() { req.entries != [] }

    /** The context a request is known by: the data of its first entry. */
    function Key(): Bytes
      requires Keyed()
    {
      req.entries[0].data
    }
  }

  // ---- the line of requests ----

  ghost predicate Line(q: seq<ReadStatus>) {
    && (forall k :: 0 <= k < |q| ==> q[k].Keyed())
    && (forall a, b :: 0 <= a < b < |q| ==> q[a].Key() != q[b].Key())
  }

  ghost predicate Waiting(q: seq<ReadStatus>, ctx: Bytes)
    requires Line(q)
  {
    exists k :: 0 <= k < |q| && q[k].Key() == ctx
  }

  /** A request whose context already waits is ignored. */
  ghost function Added(q: seq<ReadStatus>, index: nat, req: Message): seq<ReadStatus>
    requires Line(q) && req.entries != []
  {
    if Waiting(q, req.entries[0].data) then q else q + [ReadStatus(req, index, {})]
  }

  ghost function Acked(q: seq<ReadStatus>, ctx: Bytes, from: nat): seq<ReadStatus>
    requires Line(q)
  {
    seq(|q|, k requires 0 <= k < |q| =>
      if q[k].Key() == ctx then q[k].(acks := q[k].acks + {from}) else q[k])
  }

  /** How many requests an acknowledged context releases: itself and all that came before. */
  ghost function Releases(q: seq<ReadStatus>, ctx: Bytes): (n: nat)
    requires Line(q)
    ensures n <= |q|
    ensures n == 0 <==> !Waiting(q, ctx)
    ensures n > 0 ==> q[n - 1].Key() == ctx
  {
    if Waiting(q, ctx) then
      var k :| 0 <= k < |q| && q[k].Key() == ctx;
      k + 1
    else 0
  }

  // ---- runs ----

  datatype ReadOp =
    | Add(index: nat, req: Message)
    | Ack(context: Bytes, from: nat)
    | Advance(context: Bytes)

  /** Who still waits and everything released so far, in order. */
  datatype Books = Books(queue: seq<ReadStatus>, released: seq<ReadStatus>)

  ghost predicate Sound(ops: seq<ReadOp>) {
    forall p :: 0 <= p < |ops| && ops[p].Add? ==> ops[p].req.entries != []
  }

  ghost function Do(b: Books, op: ReadOp): (r: Books)
    requires Line(b.queue) && (op.Add? ==> op.req.entries != [])
    ensures Line(r.queue)
  {
    match op
    case Add(index, req) => Books(Added(b.queue, index, req), b.released)
    case Ack(ctx, from) => Books(Acked(b.queue, ctx, from), b.released)
    case Advance(ctx) =>
      var n := Releases(b.queue, ctx);
      Books(b.queue[n..], b.released + b.queue[..n])
  }

  ghost function After(ops: seq<ReadOp>): (b: Books)
    requires Sound(ops)
    ensures Line(b.queue)
    decreases |ops|
  {
    if ops == [] then Books([], [])
    else Do(After(ops[..|ops| - 1]), ops[|ops| - 1])
  }

  /** The nodes that acknowledged `ctx` between two moments of the run. */
  ghost function AcksBetween(ops: seq<ReadOp>, from: nat, until: nat, ctx: Bytes): set<nat> {
    set p | from <= p < until && p < |ops| && ops[p].Ack? && ops[p].context == ctx :: ops[p].from
  }

  /** The `k`-th request ever accepted: first those released, then those waiting. */
  ghost function Nth(b: Books, k: nat): ReadStatus
    requires k < |b.released| + |b.queue|
  {
    (b.released + b.queue)[k]
  }

  /** `s` is the request added at moment `at`, with exactly the acknowledgements sent until `until`. */
  ghost predicate Traced(ops: seq<ReadOp>, s: ReadStatus, at: nat, until: nat) {
    && at < until <= |ops| && ops[at].Add? && ops[at].req.entries != []
    && s.req == ops[at].req && s.index == ops[at].index
    && s.acks == AcksBetween(ops, at, until, s.req.entries[0].data)
  }

  /** `adds` are the moments at which a request was accepted, `outs` those at which one left. */
  ghost predicate Explained(ops: seq<ReadOp>, b: Books, adds: seq<nat>, outs: seq<nat>) {
    && |adds| == |b.released| + |b.queue| && |outs| == |b.released|
    && (forall k, l :: 0 <= k < l < |adds| ==> adds[k] < adds[l])
    && (forall k :: 0 <= k < |outs| ==>
          outs[k] < |ops| && ops[outs[k]].Advance? && Traced(ops, Nth(b, k), adds[k], outs[k]))
    && (forall k :: |outs| <= k < |adds| ==> Traced(ops, Nth(b, k), adds[k], |ops|))
    && (forall k, l :: 0 <= k < l < |outs| ==> outs[k] <= outs[l])
  }

  lemma AcksExtend(ops: seq<ReadOp>, op: ReadOp, from: nat, until: nat, ctx: Bytes)
    ensures until <= |ops| ==> AcksBetween(ops + [op], from, until, ctx) == AcksBetween(ops, from, until, ctx)
    ensures until == |ops| && from < until ==>
              AcksBetween(ops + [op], from, until + 1, ctx) ==
              AcksBetween(ops, from, until, ctx) + if op.Ack? && op.context == ctx then {op.from} else {}
  {
    var longer := ops + [op];
    if until <= |ops| {
      forall x | x in AcksBetween(ops, from, until, ctx) ensures x in AcksBetween(longer, from, until, ctx) {
        var p :| from <= p < until && p < |ops| && ops[p].Ack? && ops[p].context == ctx && ops[p].from == x;
        assert longer[p] == ops[p];
      }
    }
    if until == |ops| && from < until {
      forall x | x in AcksBetween(ops, from, until, ctx) ensures x in AcksBetween(longer, from, until + 1, ctx) {
        var p :| from <= p < until && p < |ops| && ops[p].Ack? && ops[p].context == ctx && ops[p].from == x;
        assert longer[p] == ops[p];
      }
      assert longer[until] == op;
    }
  }

  lemma TracedExtend(ops: seq<ReadOp>, op: ReadOp, s: ReadStatus, at: nat, until: nat)
    requires Traced(ops, s, at, until)
    ensures Traced(ops + [op], s, at, until)
    ensures until == |ops| ==>
              var heard := if op.Ack? && op.context == s.req.entries[0].data then {op.from} else {};
              Traced(ops + [op], s.(acks := s.acks + heard), at, until + 1)
  {
    AcksExtend(ops, op, at, until, s.req.entries[0].data);
  }

  /** Conservation and first-in first-out over every run: what was ever accepted is, in the order of
      its acceptance, what was released followed by what waits. Each accepted request is released at
      most once, and then with exactly the acknowledgements it received while it waited. */
  lemma {:induction false} Conservation(ops: seq<ReadOp>) returns (adds: seq<nat>, outs: seq<nat>)
    requires Sound(ops)
    ensures Explained(ops, After(ops), adds, outs)
    ensures forall p :: 0 <= p < |ops| && ops[p].Add? && p !in adds ==>
              Waiting(After(ops[..p]).queue, ops[p].req.entries[0].data)
    decreases |ops|
  {
    if ops == [] {
      adds, outs := [], [];
    } else {
      var before, op := ops[..|ops| - 1], ops[|ops| - 1];
      assert ops == before + [op];
      var adds0, outs0 := Conservation(before);
      forall p | 0 <= p < |before| ensures ops[..p] == before[..p] { }
      adds, outs := ExplainStep(before, op, After(before), adds0, outs0);
    }
  }

  lemma ExplainStep(ops: seq<ReadOp>, op: ReadOp, b: Books, adds: seq<nat>, outs: seq<nat>)
    returns (adds': seq<nat>, outs': seq<nat>)
    requires Line(b.queue) && Explained(ops, b, adds, outs) && (op.Add? ==> op.req.entries != [])
    ensures Explained(ops + [op], Do(b, op), adds', outs')
    ensures adds' == if op.Add? && !Waiting(b.queue, op.req.entries[0].data) then adds + [|ops|] else adds
  {
    match op
    case Add(index, req) => adds' := ExplainAdd(ops, index, req, b, adds, outs); outs' := outs;
    case Ack(ctx, from) => ExplainAck(ops, ctx, from, b, adds, outs); adds', outs' := adds, outs;
    case Advance(ctx) => outs' := ExplainAdvance(ops, ctx, b, adds, outs); adds' := adds;
  }

  lemma AddsPast(ops: seq<ReadOp>, b: Books, adds: seq<nat>, outs: seq<nat>, k: nat)
    requires Explained(ops, b, adds, outs) && k < |adds|
    ensures adds[k] < |ops|
  {
    assert Traced(ops, Nth(b, k), adds[k], if k < |outs| then outs[k] else |ops|);
  }

  lemma ExplainAdd(ops: seq<ReadOp>, index: nat, req: Message, b: Books, adds: seq<nat>, outs: seq<nat>)
    returns (adds': seq<nat>)
    requires Line(b.queue) && Explained(ops, b, adds, outs) && req.entries != []
    ensures Explained(ops + [Add(index, req)], Do(b, Add(index, req)), adds', outs)
    ensures adds' == if Waiting(b.queue, req.entries[0].data) then adds else adds + [|ops|]
  {
    ExplainNothing(ops, Add(index, req), b, adds, outs);
    adds' := adds;
    if !Waiting(b.queue, req.entries[0].data) {
      adds' := adds + [|ops|];
      ExplainNew(ops + [Add(index, req)], index, req, b, adds, outs);
    }
  }

  /** A step that changes nothing. */
  lemma ExplainNothing(ops: seq<ReadOp>, op: ReadOp, b: Books, adds: seq<nat>, outs: seq<nat>)
    requires Explained(ops, b, adds, outs) && op.Add?
    ensures Explained(ops + [op], b, adds, outs)
    ensures forall k :: 0 <= k < |adds| ==> adds[k] < |ops|
  {
    var longer := ops + [op];
    forall k | 0 <= k < |adds| ensures adds[k] < |ops| { AddsPast(ops, b, adds, outs, k); }
    forall k | 0 <= k < |outs| ensures Traced(longer, Nth(b, k), adds[k], outs[k]) && longer[outs[k]].Advance? {
      TracedExtend(ops, op, Nth(b, k), adds[k], outs[k]);
    }
    forall k | |outs| <= k < |adds| ensures Traced(longer, Nth(b, k), adds[k], |longer|) {
      var s := Nth(b, k);
      TracedExtend(ops, op, s, adds[k], |ops|);
      assert s.acks + {} == s.acks;
    }
  }

  lemma ExplainNew(ops: seq<ReadOp>, index: nat, req: Message, b: Books, adds: seq<nat>, outs: seq<nat>)
    requires ops != [] && ops[|ops| - 1] == Add(index, req) && req.entries != []
    requires Explained(ops, b, adds, outs) && forall k :: 0 <= k < |adds| ==> adds[k] < |ops| - 1
    ensures Explained(ops, Books(b.queue + [ReadStatus(req, index, {})], b.released), adds + [|ops| - 1], outs)
  {
    var s := ReadStatus(req, index, {});
    var b' := Books(b.queue + [s], b.released);
    assert AcksBetween(ops, |ops| - 1, |ops|, req.entries[0].data) == {};
    assert Traced(ops, s, |ops| - 1, |ops|);
    forall k | 0 <= k < |adds| ensures Nth(b', k) == Nth(b, k) { }
  }

  lemma ExplainAck(ops: seq<ReadOp>, ctx: Bytes, from: nat, b: Books, adds: seq<nat>, outs: seq<nat>)
    requires Line(b.queue) && Explained(ops, b, adds, outs)
    ensures Explained(ops + [Ack(ctx, from)], Do(b, Ack(ctx, from)), adds, outs)
  {
    var op := Ack(ctx, from);
    var longer, b' := ops + [op], Do(b, op);
    forall k | 0 <= k < |outs| ensures Traced(longer, Nth(b', k), adds[k], outs[k]) && longer[outs[k]].Advance? {
      assert Nth(b', k) == Nth(b, k);
      TracedExtend(ops, op, Nth(b, k), adds[k], outs[k]);
    }
    forall k | |outs| <= k < |adds| ensures Traced(longer, Nth(b', k), adds[k], |longer|) {
      var s := b.queue[k - |outs|];
      assert Nth(b, k) == s && Nth(b', k) == b'.queue[k - |outs|];
      TracedExtend(ops, op, s, adds[k], |ops|);
      assert s.acks + {} == s.acks;
    }
  }

  lemma ExplainAdvance(ops: seq<ReadOp>, ctx: Bytes, b: Books, adds: seq<nat>, outs: seq<nat>)
    returns (outs': seq<nat>)
    requires Line(b.queue) && Explained(ops, b, adds, outs)
    ensures Explained(ops + [Advance(ctx)], Do(b, Advance(ctx)), adds, outs')
  {
    var op := Advance(ctx);
    var longer, b' := ops + [op], Do(b, op);
    var n := Releases(b.queue, ctx);
    outs' := outs + seq(n, k => |ops|);
    assert b'.released + b'.queue == b.released + b.queue;
    forall k | 0 <= k < |outs'| ensures Traced(longer, Nth(b', k), adds[k], outs'[k]) && longer[outs'[k]].Advance? {
      assert Nth(b', k) == Nth(b, k);
      if k < |outs| {
        TracedExtend(ops, op, Nth(b, k), adds[k], outs[k]);
      } else {
        assert Traced(ops, Nth(b, k), adds[k], |ops|);
        TracedExtend(ops, op, Nth(b, k), adds[k], |ops|);
        assert longer[|ops|] == op;
      }
    }
    forall k | |outs'| <= k < |adds| ensures Traced(longer, Nth(b', k), adds[k], |longer|) {
      var s := Nth(b, k);
      assert Nth(b', k) == s;
      TracedExtend(ops, op, s, adds[k], |ops|);
      assert s.acks + {} == s.acks;
    }
  }

  // ---- the two structures ----

  class ReadOnly {
    var pending: map<Bytes, ReadStatus>
    var queue: seq<Bytes>

    /** The queue lists every key of the map once, and each status is filed under its own context. */
    ghost predicate Valid()
      reads this
    {
      && (forall a, b :: 0 <= a < b < |queue| ==> queue[a] != queue[b])
      && (forall c :: c in queue <==> c in pending)
      && (forall c :: c in pending ==> pending[c].Keyed() && pending[c].Key() == c)
    }

    ghost function Waiters(): seq<ReadStatus>
      reads this
      requires Valid()
    {
      seq(|queue|, k requires 0 <= k < |queue| reads this requires Valid() => pending[queue[k]])
    }

    constructor ()
      ensures Valid() && Waiters() == []
    {
      pending := map[];
      queue := [];
    }

    method AddRequest(index: nat, msg: Message)
      requires Valid() && msg.entries != []
      modifies this
      ensures Valid() && Waiters() == Added(old(Waiters()), index, msg)
    {
      ghost var was := Waiters();
      var key := msg.entries[0].data;
      if key in pending {
        var k :| 0 <= k < |queue| && queue[k] == key;
        assert was[k].Key() == key;
        return;
      }
      assert !Waiting(was, key);
      pending := pending[key := ReadStatus(msg, index, {})];
      queue := queue + [key];
      assert Waiters() == was + [ReadStatus(msg, index, {})];
    }

    method RecvAck(msg: Message) returns (acks: set<nat>)
      requires Valid()
      modifies this`pending
      ensures Valid() && Waiters() == Acked(old(Waiters()), msg.context, msg.from)
      ensures acks == if msg.context in old(pending) then old(pending)[msg.context].acks + {msg.from, msg.to} else {}
    {
      if msg.context in pending {
        var status := pending[msg.context];
        status := status.(acks := status.acks + {msg.from});
        pending := pending[msg.context := status];
        acks := status.acks + {msg.to};
      } else {
        acks := {};
      }
    }

    /** Releases the prefix of the line that ends at the acknowledged context. That a queued context
        is always found in the map is part of what is proved: the source's panic cannot happen. */
    method Advance(ctx: Bytes) returns (rss: seq<ReadStatus>)
      requires Valid()
      modifies this
      ensures Valid()
      ensures rss == old(Waiters())[..Releases(old(Waiters()), ctx)]
      ensures Waiters() == old(Waiters())[Releases(old(Waiters()), ctx)..]
    {
      ghost var was := Waiters();
      rss := [];
      var i := 0;
      while i < |queue| && queue[i] != ctx
        invariant 0 <= i <= |queue|
        invariant forall k :: 0 <= k < i ==> queue[k] != ctx
      {
        assert queue[i] in pending;
        i := i + 1;
      }
      if i == |queue| {
        assert !Waiting(was, ctx);
        return;
      }
      assert was[i].Key() == ctx;
      var k := 0;
      while k <= i
        invariant 0 <= k <= i + 1 && Valid()
        invariant |queue| == |was| - k && rss == was[..k] && Waiters() == was[k..]
      {
        var status := PopFront();
        rss := rss + [status];
        k := k + 1;
      }
    }

    method PopFront() returns (status: ReadStatus)
      requires Valid() && queue != []
      modifies this
      ensures Valid() && |queue| == old(|queue|) - 1
      ensures status == old(Waiters())[0] && Waiters() == old(Waiters())[1..]
    {
      var rs := queue[0];
      Popped(queue, queue[1..], rs);
      status := pending[rs];
      queue := queue[1..];
      pending := pending - {rs};
    }

    static lemma Popped(all: seq<Bytes>, rest: seq<Bytes>, rs: Bytes)
      requires all != [] && rest == all[1..] && rs == all[0]
      requires forall a, b :: 0 <= a < b < |all| ==> all[a] != all[b]
      ensures forall c :: c in rest <==> c in all && c != rs
    {
      forall c | c in all && c != rs ensures c in rest {
        var k :| 0 <= k < |all| && all[k] == c;
        assert rest[k - 1] == c;
      }
    }
  }
}
