/** The ways a history grows, each keeping it consistent: a vote is cast, a candidacy begins, a term
    is won, a leader's log gets longer, an append is acknowledged. */
module HistorySteps {
  import opened RaftTypes
  import opened ProgressSpec
  import opened Quorum
  import opened History
  import opened HistoryLemmas

  ghost predicate Advance(g: Hist, g': Hist, i: nat) {
    Grows(g, g') && OnlyAbout(g, g', i)
  }

  lemma AdvanceTrans(a: Hist, b: Hist, c: Hist, i: nat)
    requires Advance(a, b, i) && Advance(b, c, i)
    ensures Advance(a, c, i)
  {
    GrowsTrans(a, b, c);
    OnlyAboutTrans(a, b, c, i);
  }

  lemma AdvanceRefl(g: Hist, i: nat)
    ensures Advance(g, g, i)
  {
  }

  // ---- what was recorded stays consistent ----

  lemma OldWins(g: Hist, g': Hist, voters: set<nat>, t: nat)
    requires Grows(g, g') && WinsOk(g, voters) && t in g.wins
    ensures WinOk(g', voters, t)
  {
    assert WinOk(g, voters, t);
    assert LedGrows(g.led[t], g'.led[t], t);
  }

  lemma OldVotes(g: Hist, g': Hist, voters: set<nat>, j: nat, t: nat)
    requires Grows(g, g') && VotesOk(g, voters) && (j, t) in g.voted
    ensures VoteOk(g', voters, j, t)
  {
    assert VoteOk(g, voters, j, t);
    GoodLogGrows(g, g', g.voted[(j, t)].log, t, t);
  }

  lemma OldCamps(g: Hist, g': Hist, voters: set<nat>)
    requires Grows(g, g') && CampsOk(g, voters)
    ensures forall j, t :: (j, t) in g.camp ==> GoodLog(g', g.camp[(j, t)], t - 1)
  {
    forall j, t | (j, t) in g.camp ensures GoodLog(g', g.camp[(j, t)], t - 1) {
      GoodLogGrows(g, g', g.camp[(j, t)], t - 1, t - 1);
    }
  }

  lemma OldLed(g: Hist, g': Hist, t: nat)
    requires Grows(g, g') && LedOk(g) && t in g.led && g'.led[t] == g.led[t]
    ensures GoodLog(g', g'.led[t], t)
  {
    GoodLogGrows(g, g', g.led[t], t, t);
  }

  lemma OldPast(g: Hist, g': Hist, voters: set<nat>, j: nat, t: nat)
    requires Grows(g, g') && LedOk(g) && AcksOk(g, voters) && PastOk(g)
    requires (j, t) in g.voted && (t in g'.wins ==> j in g'.wins[t].quorum)
    requires forall u: nat :: u < t ==> Acked(g', j, u) == Acked(g, j, u)
    ensures KeepOk(g', j, g.voted[(j, t)].log, t - 1)
  {
    assert t in g.wins ==> g'.wins[t] == g.wins[t];
    assert KeepOk(g, j, g.voted[(j, t)].log, t - 1);
    KeepOkGrows(g, g', voters, j, g.voted[(j, t)].log, t - 1, t - 1);
  }

  // ---- a vote is cast ----

  function WithVote(g: Hist, i: nat, t: nat, v: Vote): Hist {
    g.(voted := g.voted[(i, t) := v])
  }

  /** In a term nobody has won yet, duties up to the term are duties below it. */
  lemma KeepOkBelow(g: Hist, i: nat, es: seq<Entry>, t: nat)
    requires KeepOk(g, i, es, t) && t !in g.led
    ensures KeepOk(g, i, es, t - 1)
  {
    var below := t - 1;
    forall u: nat, k: nat | u <= below && 0 < k <= Acked(g, i, u) ensures Kept(g, es, u, k, below) {
      assert Kept(g, es, u, k, t);
      if !Same(g.led[u], es, k) {
        var w: nat :| Departs(g, u, k, w, t);
        assert Departs(g, u, k, w, below);
      }
    }
  }

  /** Leaders, their logs and what was acknowledged are untouched. */
  ghost predicate SameLeaders(g: Hist, g': Hist) {
    g'.led == g.led && g'.wins == g.wins && g'.acked == g.acked
  }

  lemma SameLeadersOk(g: Hist, g': Hist, voters: set<nat>)
    requires HistOk(g, voters) && Grows(g, g') && SameLeaders(g, g')
    ensures LedOk(g') && WinsOk(g', voters) && AcksOk(g', voters)
  {
    forall u | u in g'.wins ensures WinOk(g', voters, u) { OldWins(g, g', voters, u); }
    forall u | u in g'.led ensures GoodLog(g', g'.led[u], u) { OldLed(g, g', u); }
    assert forall j: nat, u: nat :: Acked(g', j, u) == Acked(g, j, u);
  }

  lemma VoteAdvances(g: Hist, i: nat, t: nat, v: Vote)
    requires (i, t) !in g.voted
    ensures Advance(g, WithVote(g, i, t, v), i)
  {
    var g' := WithVote(g, i, t, v);
    assert forall u :: u in g.led ==> LedGrows(g.led[u], g'.led[u], u);
    assert forall j: nat, u: nat :: Acked(g', j, u) == Acked(g, j, u);
  }

  lemma CastVote(g: Hist, voters: set<nat>, i: nat, t: nat, v: Vote)
    requires HistOk(g, voters) && i in voters && (i, t) !in g.voted
    requires GoodLog(g, v.log, t) && (v.cand, t) in g.camp && UpToDate(g.camp[(v.cand, t)], v.log)
    requires KeepOk(g, i, v.log, t)
    ensures HistOk(WithVote(g, i, t, v), voters) && Advance(g, WithVote(g, i, t, v), i)
  {
    var g' := WithVote(g, i, t, v);
    VoteAdvances(g, i, t, v);
    SameLeadersOk(g, g', voters);
    forall j, u | (j, u) in g'.voted ensures VoteOk(g', voters, j, u) {
      if (j, u) in g.voted { OldVotes(g, g', voters, j, u); } else { GoodLogGrows(g, g', v.log, t, t); }
    }
    OldCamps(g, g', voters);
    CastVotePast(g, voters, i, t, v);
  }

  lemma AckedAsBefore(g: Hist, i: nat, t: nat, v: Vote)
    ensures forall j: nat, u: nat :: Acked(WithVote(g, i, t, v), j, u) == Acked(g, j, u)
  {
  }

  lemma NewPast(g: Hist, g': Hist, voters: set<nat>, i: nat, t: nat, v: Vote)
    requires LedOk(g) && AcksOk(g, voters) && KeepOk(g, i, v.log, t) && Grows(g, g')
    requires t !in g.led && forall u: nat :: Acked(g', i, u) == Acked(g, i, u)
    ensures KeepOk(g', i, v.log, t - 1)
  {
    KeepOkBelow(g, i, v.log, t);
    KeepOkGrows(g, g', voters, i, v.log, t - 1, t - 1);
  }

  lemma CastVotePast(g: Hist, voters: set<nat>, i: nat, t: nat, v: Vote)
    requires LedOk(g) && AcksOk(g, voters) && PastOk(g) && WinsOk(g, voters)
    requires (i, t) !in g.voted && KeepOk(g, i, v.log, t)
    requires Grows(g, WithVote(g, i, t, v))
    ensures PastOk(WithVote(g, i, t, v))
  {
    var g' := WithVote(g, i, t, v);
    AckedAsBefore(g, i, t, v);
    forall j, u | (j, u) in g'.voted && (u in g'.wins ==> j in g'.wins[u].quorum)
      ensures KeepOk(g', j, g'.voted[(j, u)].log, u - 1)
    {
      if (j, u) in g.voted {
        OldPast(g, g', voters, j, u);
      } else {
        NewPast(g, g', voters, i, t, v);
      }
    }
  }

  // ---- a candidacy begins ----

  function WithCampaign(g: Hist, i: nat, t: nat, es: seq<Entry>): Hist {
    g.(camp := g.camp[(i, t) := es])
  }

  lemma CampaignAdvances(g: Hist, i: nat, t: nat, es: seq<Entry>)
    requires (i, t) !in g.camp
    ensures Advance(g, WithCampaign(g, i, t, es), i)
  {
    var g' := WithCampaign(g, i, t, es);
    assert forall u :: u in g.led ==> LedGrows(g.led[u], g'.led[u], u);
    assert forall j: nat, u: nat :: Acked(g', j, u) == Acked(g, j, u);
  }

  lemma SamePast(g: Hist, g': Hist, voters: set<nat>)
    requires HistOk(g, voters) && Grows(g, g') && SameLeaders(g, g') && g'.voted == g.voted
    ensures PastOk(g')
  {
    assert forall j: nat, u: nat :: Acked(g', j, u) == Acked(g, j, u);
    forall j, u | (j, u) in g'.voted && (u in g'.wins ==> j in g'.wins[u].quorum)
      ensures KeepOk(g', j, g'.voted[(j, u)].log, u - 1)
    {
      OldPast(g, g', voters, j, u);
    }
  }

  lemma BeginCampaign(g: Hist, voters: set<nat>, i: nat, t: nat, es: seq<Entry>)
    requires HistOk(g, voters) && i in voters && (i, t) !in g.camp && t >= 1 && GoodLog(g, es, t - 1)
    ensures HistOk(WithCampaign(g, i, t, es), voters) && Advance(g, WithCampaign(g, i, t, es), i)
  {
    var g' := WithCampaign(g, i, t, es);
    CampaignAdvances(g, i, t, es);
    SameLeadersOk(g, g', voters);
    forall j, u | (j, u) in g'.voted ensures VoteOk(g', voters, j, u) { OldVotes(g, g', voters, j, u); }
    OldCamps(g, g', voters);
    GoodLogGrows(g, g', es, t - 1, t - 1);
    SamePast(g, g', voters);
  }

  // ---- an append is acknowledged, a leader appends, a term is won ----

  /** Term `t`'s leader `i` now has the log `es`, all of which it acknowledges itself. */
  function WithLed(g: Hist, i: nat, t: nat, es: seq<Entry>): Hist {
    g.(led := g.led[t := es], acked := g.acked[(i, t) := |es|])
  }

  function WithWin(g: Hist, i: nat, t: nat, quorum: set<nat>, es: seq<Entry>): Hist {
    WithLed(g, i, t, es).(wins := g.wins[t := Win(i, quorum)])
  }

  /** A leader's log stays good when entries of its own term are added at the right indices. */
  lemma LongerLedGood(g: Hist, g': Hist, es: seq<Entry>, es': seq<Entry>, t: nat)
    requires Grows(g, g') && GoodLog(g, es, t) && t >= 1
    requires Same(es, es', |es|) && t in g'.led && g'.led[t] == es'
    requires forall x :: |es| <= x < |es'| ==> es'[x].term == t && es'[x].index == x + 1
    ensures GoodLog(g', es', t)
  {
    GoodLogGrows(g, g', es, t, t);
    forall x | 0 <= x < |es'| ensures GoodEntry(g', es', x, t) {
      if x < |es| { assert GoodEntry(g', es, x, t); }
    }
  }

  lemma LedGrowsHist(g: Hist, g': Hist, voters: set<nat>, i: nat, t: nat)
    requires HistOk(g, voters) && Grows(g, g')
    requires g'.voted == g.voted && g'.camp == g.camp && i in voters
    requires g'.led.Keys == g'.wins.Keys == g.led.Keys + {t} && t >= 1
    requires forall u :: u in g.led && u != t ==> g'.led[u] == g.led[u]
    requires GoodLog(g', g'.led[t], t) && WinOk(g', voters, t)
    requires forall j: nat, u: nat :: !(j == i && u == t) ==> Acked(g', j, u) == Acked(g, j, u)
    requires Acked(g', i, t) <= |g'.led[t]|
    requires forall u :: (i, u) in g.voted ==> u <= t
    ensures HistOk(g', voters)
  {
    forall u | u in g'.wins ensures WinOk(g', voters, u) {
      if u in g.wins { OldWins(g, g', voters, u); }
    }
    forall j, u | (j, u) in g'.voted ensures VoteOk(g', voters, j, u) { OldVotes(g, g', voters, j, u); }
    OldCamps(g, g', voters);
    forall u | u in g'.led ensures GoodLog(g', g'.led[u], u) {
      if u != t { OldLed(g, g', u); }
    }
    LedGrowsAcks(g, g', voters, i, t);
    forall j, u | (j, u) in g'.voted && (u in g'.wins ==> j in g'.wins[u].quorum)
      ensures KeepOk(g', j, g'.voted[(j, u)].log, u - 1)
    {
      OldPast(g, g', voters, j, u);
    }
  }

  lemma LedGrowsAcks(g: Hist, g': Hist, voters: set<nat>, i: nat, t: nat)
    requires AcksOk(g, voters) && Grows(g, g') && i in voters && t in g'.led
    requires forall j: nat, u: nat :: !(j == i && u == t) ==> Acked(g', j, u) == Acked(g, j, u)
    requires Acked(g', i, t) <= |g'.led[t]|
    ensures AcksOk(g', voters)
  {
    forall j: nat, u: nat | Acked(g', j, u) > 0
      ensures j in voters && u in g'.led && Acked(g', j, u) <= |g'.led[u]|
    {
      if !(j == i && u == t) {
        assert Acked(g, j, u) > 0;
        assert LedGrows(g.led[u], g'.led[u], u);
      }
    }
  }

  function WithAck(g: Hist, i: nat, t: nat, k: nat): Hist {
    g.(acked := g.acked[(i, t) := Max(k, Acked(g, i, t))])
  }

  lemma AckAdvances(g: Hist, i: nat, t: nat, k: nat)
    ensures Advance(g, WithAck(g, i, t, k), i)
    ensures forall j: nat, u: nat :: !(j == i && u == t) ==> Acked(WithAck(g, i, t, k), j, u) == Acked(g, j, u)
  {
    var g' := WithAck(g, i, t, k);
    assert forall u :: u in g.led ==> LedGrows(g.led[u], g'.led[u], u);
  }

  lemma Acknowledge(g: Hist, voters: set<nat>, i: nat, t: nat, k: nat)
    requires HistOk(g, voters) && i in voters && t in g.led && k <= |g.led[t]|
    requires forall u :: (i, u) in g.voted ==> u <= t
    ensures HistOk(WithAck(g, i, t, k), voters) && Advance(g, WithAck(g, i, t, k), i)
  {
    var g' := WithAck(g, i, t, k);
    AckAdvances(g, i, t, k);
    OldLed(g, g', t);
    OldWins(g, g', voters, t);
    LedGrowsHist(g, g', voters, i, t);
  }

  lemma WithLedGrows(g: Hist, i: nat, t: nat, es: seq<Entry>)
    requires t in g.led ==> LedGrows(g.led[t], es, t)
    requires t in g.wins ==> g.wins[t].leader == i
    requires Acked(g, i, t) <= |es|
    ensures Advance(g, WithLed(g, i, t, es), i)
    ensures forall j: nat, u: nat :: !(j == i && u == t) ==> Acked(WithLed(g, i, t, es), j, u) == Acked(g, j, u)
    ensures Acked(WithLed(g, i, t, es), i, t) == |es|
  {
    var g' := WithLed(g, i, t, es);
    forall u | u in g.led ensures u in g'.led && LedGrows(g.led[u], g'.led[u], u) { }
  }

  lemma Lengthen(g: Hist, voters: set<nat>, i: nat, t: nat, es: seq<Entry>)
    requires HistOk(g, voters) && i in voters && t in g.wins && g.wins[t].leader == i
    requires LedGrows(g.led[t], es, t) && forall x :: |g.led[t]| <= x < |es| ==> es[x].index == x + 1
    requires forall u :: (i, u) in g.voted ==> u <= t
    ensures HistOk(WithLed(g, i, t, es), voters) && Advance(g, WithLed(g, i, t, es), i)
  {
    var g' := WithLed(g, i, t, es);
    assert Acked(g, i, t) <= |g.led[t]|;
    WithLedGrows(g, i, t, es);
    LongerLedGood(g, g', g.led[t], es, t);
    OldWins(g, g', voters, t);
    LedGrowsHist(g, g', voters, i, t);
  }

  /** Nobody else can have won a term in which a majority voted for `i`. */
  lemma TermIsFree(g: Hist, voters: set<nat>, i: nat, t: nat, quorum: set<nat>)
    requires WinsOk(g, voters) && quorum <= voters && |quorum| >= Majority(|voters|)
    requires forall q :: q in quorum ==> (q, t) in g.voted && g.voted[(q, t)].cand == i
    requires t in g.wins ==> g.wins[t].leader != i
    ensures t !in g.wins
  {
    if t in g.wins {
      assert WinOk(g, voters, t);
      var q := QuorumsMeet(quorum, g.wins[t].quorum, voters);
    }
  }

  lemma WithWinGrows(g: Hist, i: nat, t: nat, quorum: set<nat>, es: seq<Entry>)
    requires t !in g.led && t !in g.wins && Acked(g, i, t) == 0
    ensures Advance(g, WithWin(g, i, t, quorum, es), i)
    ensures forall j: nat, u: nat ::
              !(j == i && u == t) ==> Acked(WithWin(g, i, t, quorum, es), j, u) == Acked(g, j, u)
    ensures Acked(WithWin(g, i, t, quorum, es), i, t) == |es|
  {
    WithLedGrows(g, i, t, es);
  }

  /** The log a term is won with, and what its winner appended since, is a good one. */
  lemma WonLog(g: Hist, g': Hist, t: nat, es: seq<Entry>, es': seq<Entry>)
    requires GoodLog(g, es, t - 1) && t >= 1
    requires Grows(g, g') && t in g'.led && g'.led[t] == es' && LedGrows(es, es', t)
    requires forall x :: |es| <= x < |es'| ==> es'[x].index == x + 1
    ensures GoodLog(g', es', t)
  {
    GoodLogGrows(g, g, es, t - 1, t);
    LongerLedGood(g, g', es, es', t);
  }

  lemma WonWell(g: Hist, voters: set<nat>, i: nat, t: nat, quorum: set<nat>, es: seq<Entry>)
    requires i in voters && quorum <= voters && |quorum| >= Majority(|voters|)
    requires forall q :: q in quorum ==> (q, t) in g.voted && g.voted[(q, t)].cand == i
    requires (i, t) in g.camp && Same(g.camp[(i, t)], es, |g.camp[(i, t)]|)
    ensures var g' := WithWin(g, i, t, quorum, es);
            && WinOk(g', voters, t) && g'.led.Keys == g.led.Keys + {t} && g'.wins.Keys == g.wins.Keys + {t}
            && forall u :: u in g.led && u != t ==> g'.led[u] == g.led[u]
  {
  }

  lemma WinTerm(g: Hist, voters: set<nat>, i: nat, t: nat, quorum: set<nat>, es: seq<Entry>, es': seq<Entry>)
    requires HistOk(g, voters) && i in voters && t !in g.wins && t >= 1
    requires quorum <= voters && |quorum| >= Majority(|voters|)
    requires forall q :: q in quorum ==> (q, t) in g.voted && g.voted[(q, t)].cand == i
    requires (i, t) in g.camp && g.camp[(i, t)] == es && LedGrows(es, es', t)
    requires forall x :: |es| <= x < |es'| ==> es'[x].index == x + 1
    requires forall u :: (i, u) in g.voted ==> u <= t
    ensures HistOk(WithWin(g, i, t, quorum, es'), voters) && Advance(g, WithWin(g, i, t, quorum, es'), i)
  {
    var g' := WithWin(g, i, t, quorum, es');
    assert Acked(g, i, t) == 0;
    WithWinGrows(g, i, t, quorum, es');
    WonLog(g, g', t, es, es');
    WonWell(g, voters, i, t, quorum, es');
    LedGrowsHist(g, g', voters, i, t);
  }
}
