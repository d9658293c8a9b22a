/** `ProgressSet`: quorum arithmetic over the peers. The records are held by value in a map whose
    iteration order is left open. */
module PeerSet {
  import opened ProgressSpec
  import opened Quorum

  // ---- counting in a buffer ----

  function CountGE(s: seq<nat>, n: nat): nat {
    if s == [] then 0 else CountGE(s[..|s| - 1], n) + if s[|s| - 1] >= n then 1 else 0
  }

  lemma {:induction false} CountGEAppend(a: seq<nat>, b: seq<nat>, n: nat)
    ensures CountGE(a + b, n) == CountGE(a, n) + CountGE(b, n)
    decreases |b|
  {
    if b == [] {
      assert a + b == a;
    } else {
      CountGEAppend(a, b[..|b| - 1], n);
      assert (a + b)[..|a + b| - 1] == a + b[..|b| - 1];
    }
  }

  ghost predicate Descending(s: seq<nat>) {
    forall a, b :: 0 <= a < b < |s| ==> s[a] >= s[b]
  }

  /** In a descending buffer the value at place `k` decides whether more than `k` values reach `n`. */
  lemma {:induction false} CountInDescending(s: seq<nat>, k: nat, n: nat)
    requires Descending(s) && k < |s|
    ensures CountGE(s, n) > k <==> s[k] >= n
    ensures CountGE(s, n) <= |s|
    decreases |s|
  {
    var rest := s[..|s| - 1];
    if rest == [] {
      assert CountGE(rest, n) == 0;
    } else {
      CountInDescending(rest, if k < |rest| then k else |rest| - 1, n);
    }
  }

  lemma CountGEInsert(s: seq<nat>, k: nat, x: nat, n: nat)
    requires k <= |s|
    ensures CountGE(s[..k] + [x] + s[k..], n) == CountGE(s, n) + if x >= n then 1 else 0
  {
    CountGEAppend(s[..k] + [x], s[k..], n);
    CountGEAppend(s[..k], s[k..], n);
    assert s == s[..k] + s[k..];
    assert (s[..k] + [x])[..k] == s[..k];
  }

  method InsertDescending(s: seq<nat>, x: nat) returns (r: seq<nat>)
    requires Descending(s)
    ensures Descending(r) && |r| == |s| + 1
    ensures forall n: nat :: CountGE(r, n) == CountGE(s, n) + if x >= n then 1 else 0
  {
    var k := |s|;
    while k > 0 && s[k - 1] < x
      invariant 0 <= k <= |s|
      invariant forall a :: k <= a < |s| ==> s[a] < x
    {
      k := k - 1;
    }
    r := s[..k] + [x] + s[k..];
    forall n: nat ensures CountGE(r, n) == CountGE(s, n) + if x >= n then 1 else 0 {
      CountGEInsert(s, k, x, n);
    }
  }

  /** The descending sort of the library, by insertion. */
  method SortDescending(s: seq<nat>) returns (r: seq<nat>)
    ensures Descending(r) && |r| == |s|
    ensures forall n: nat :: CountGE(r, n) == CountGE(s, n)
  {
    r := [];
    var k := 0;
    assert s[..0] == [];
    while k < |s|
      invariant 0 <= k <= |s| && |r| == k && Descending(r)
      invariant forall n: nat :: CountGE(r, n) == CountGE(s[..k], n)
    {
      r := InsertDescending(r, s[k]);
      assert s[..k + 1][..k] == s[..k];
      k := k + 1;
    }
    assert s[..k] == s;
  }

  // ---- candidacy ----

  datatype CandidacyStatus = Elected | Eligible | Ineligible

  /** Elected with a quorum of acceptances, out of the running with a quorum of rejections. */
  function StatusMeant(accepted: nat, rejected: nat, quorum: nat): CandidacyStatus {
    if accepted >= quorum then Elected else if rejected == quorum then Ineligible else Eligible
  }

  /** As written the two outcomes short of election are swapped. */
  function StatusAsWritten(accepted: nat, rejected: nat, quorum: nat): CandidacyStatus {
    if accepted >= quorum then Elected else if rejected == quorum then Eligible else Ineligible
  }

  /** The swap is invisible exactly when the candidate is elected. */
  lemma SwapVisibleUnlessElected(accepted: nat, rejected: nat, quorum: nat)
    ensures StatusAsWritten(accepted, rejected, quorum) == StatusMeant(accepted, rejected, quorum)
            <==> accepted >= quorum
  {
  }

  function AcceptedIn(votes: map<nat, bool>): set<nat> { set v | v in votes && votes[v] }

  function RejectedIn(votes: map<nat, bool>): set<nat> { set v | v in votes && !votes[v] }

  /** With a quorum of rejections no further answers can elect: whatever the remaining voters say. */
  lemma RejectedIsHopeless(votes: map<nat, bool>, later: map<nat, bool>, voters: set<nat>)
    requires later.Keys <= voters && |RejectedIn(votes)| >= Majority(|voters|)
    requires forall v :: v in votes ==> v in later && later[v] == votes[v]
    ensures |AcceptedIn(later)| < Majority(|voters|)
  {
    if |AcceptedIn(later)| >= Majority(|voters|) {
      var v := QuorumsMeet(AcceptedIn(later), RejectedIn(votes), voters);
    }
  }

  // ---- one more element ----

  lemma ReachedStep(prs: map<nat, Pr>, before: set<nat>, id: nat, n: nat)
    requires id !in before && id in prs
    ensures |Reached(prs, before + {id}, n)| == |Reached(prs, before, n)| + if prs[id].matched >= n then 1 else 0
  {
    assert Reached(prs, before + {id}, n) == Reached(prs, before, n) + if prs[id].matched >= n then {id} else {};
  }

  ghost function AcceptedAmong(votes: map<nat, bool>, seen: set<nat>): set<nat> {
    set v | v in seen && v in votes && votes[v]
  }

  lemma AcceptedStep(votes: map<nat, bool>, seen: set<nat>, v: nat)
    requires v !in seen && v in votes
    ensures |AcceptedAmong(votes, seen + {v})| == |AcceptedAmong(votes, seen)| + if votes[v] then 1 else 0
  {
    assert AcceptedAmong(votes, seen + {v}) == AcceptedAmong(votes, seen) + if votes[v] then {v} else {};
  }

  lemma AnswersCounted(votes: map<nat, bool>)
    ensures AcceptedAmong(votes, votes.Keys) == AcceptedIn(votes)
    ensures |AcceptedIn(votes)| + |RejectedIn(votes)| == |votes.Keys|
  {
    var a, b := AcceptedIn(votes), RejectedIn(votes);
    assert a + b == votes.Keys && a !! b;
    assert |a + b| == |a| + |b|;
  }

  /** The voters among `seen` that count as active from one node's perspective. */
  ghost function ActiveAmong(prs: map<nat, Pr>, seen: set<nat>, perspective: nat): set<nat> {
    set v | v in seen && v in prs && (v == perspective || prs[v].recentActive)
  }

  lemma ActiveStep(prs: map<nat, Pr>, seen: set<nat>, id: nat, perspective: nat)
    requires id !in seen && id in prs
    ensures |ActiveAmong(prs, seen + {id}, perspective)| ==
            |ActiveAmong(prs, seen, perspective)| + if id == perspective || prs[id].recentActive then 1 else 0
  {
    assert ActiveAmong(prs, seen + {id}, perspective) ==
           ActiveAmong(prs, seen, perspective) + if id == perspective || prs[id].recentActive then {id} else {};
  }

  /** The records after the marks of `seen` were cleared, the asking node's own kept. */
  ghost function Cleared(prs: map<nat, Pr>, seen: set<nat>, perspective: nat): map<nat, Pr> {
    map v | v in prs :: if v in seen && v != perspective then prs[v].(recentActive := false) else prs[v]
  }

  lemma ClearedStep(prs: map<nat, Pr>, seen: set<nat>, id: nat, perspective: nat)
    requires id !in seen && id in prs
    ensures var was := Cleared(prs, seen, perspective);
            was[id] == prs[id] &&
            Cleared(prs, seen + {id}, perspective) ==
            if id == perspective then was else was[id := prs[id].(recentActive := false)]
  {
  }

  class ProgressSet {
    var progress: map<nat, Pr>
    var voters: set<nat>
    var learners: set<nat>

    ghost predicate Valid()
      reads this
    {
      voters + learners == progress.Keys && voters !! learners
    }

    /** The matched indices of the voters, in whatever order the map is walked. */
    method CollectMatched() returns (matched: seq<nat>)
      requires Valid()
      ensures |matched| == |voters|
      ensures forall n: nat :: CountGE(matched, n) == |Reached(progress, voters, n)|
    {
      matched := [];
      var todo := voters;
      ghost var seen: set<nat> := {};
      while todo != {}
        invariant todo <= voters && seen == voters - todo && |matched| == |seen|
        invariant forall n: nat :: CountGE(matched, n) == |Reached(progress, seen, n)|
        decreases |todo|
      {
        var id :| id in todo;
        ghost var was := matched;
        matched := matched + [progress[id].matched];
        assert matched[..|matched| - 1] == was;
        forall n: nat ensures CountGE(matched, n) == |Reached(progress, seen + {id}, n)| {
          ReachedStep(progress, seen, id, n);
        }
        seen := seen + {id};
        todo := todo - {id};
      }
      assert seen == voters;
    }

    /** The middle of the matched indices after sorting: the greatest index a majority of the voters
        has reached. */
    method MaximalCommittedIndex() returns (r: nat)
      requires Valid() && voters != {}
      ensures IsMaximalCommitted(progress, voters, r)
      ensures r == MaximalCommitted(progress, voters)
    {
      var matched := CollectMatched();
      var sorted := SortDescending(matched);
      r := sorted[|sorted| / 2];
      forall n: nat ensures QuorumReached(progress, voters, n) <==> r >= n {
        CountInDescending(sorted, |sorted| / 2, n);
      }
    }

    method CandidacyStatus(votes: map<nat, bool>) returns (status: CandidacyStatus)
      ensures status == StatusMeant(|AcceptedIn(votes)|, |RejectedIn(votes)|, Majority(|voters|))
    {
      var accepted, total := 0, 0;
      var todo := votes.Keys;
      ghost var seen := {};
      while todo != {}
        invariant todo <= votes.Keys && seen == votes.Keys - todo && total == |seen|
        invariant accepted == |AcceptedAmong(votes, seen)|
        decreases |todo|
      {
        var v :| v in todo;
        AcceptedStep(votes, seen, v);
        seen := seen + {v};
        todo := todo - {v};
        if votes[v] {
          accepted := accepted + 1;
        }
        total := total + 1;
      }
      assert seen == votes.Keys;
      AnswersCounted(votes);
      var quorum := Majority(|voters|);
      var rejected := total - accepted;
      if accepted >= quorum {
        status := Elected;
      } else if rejected == quorum {
        status := Ineligible;
      } else {
        status := Eligible;
      }
    }

    /** Whether a majority of the voters, the asking node included, was active; every other record's
        mark is cleared for the next round. */
    method QuorumRecentlyActive(perspective: nat) returns (quorum: bool)
      requires Valid()
      modifies this`progress
      ensures Valid() && progress.Keys == old(progress).Keys
      ensures quorum <==> |ActiveAmong(old(progress), voters, perspective)| >= Majority(|voters|)
      ensures forall v :: v in progress ==>
                progress[v] == if v == perspective && v in voters then old(progress)[v]
                               else old(progress)[v].(recentActive := false)
    {
      var active := ClearVoters(perspective);
      progress := map v | v in progress ::
        if v in learners then progress[v].(recentActive := false) else progress[v];
      quorum := active >= Majority(|voters|);
    }

    /** The loop over the voters. */
    method ClearVoters(perspective: nat) returns (active: nat)
      requires Valid()
      modifies this`progress
      ensures progress == Cleared(old(progress), voters, perspective)
      ensures active == |ActiveAmong(old(progress), voters, perspective)|
    {
      active := 0;
      var todo := voters;
      ghost var seen: set<nat> := {};
      ghost var was := progress;
      while todo != {}
        invariant todo <= voters && seen == voters - todo
        invariant active == |ActiveAmong(was, seen, perspective)|
        invariant progress == Cleared(was, seen, perspective)
        decreases |todo|
      {
        var id :| id in todo;
        ActiveStep(was, seen, id, perspective);
        ClearedStep(was, seen, id, perspective);
        seen := seen + {id};
        todo := todo - {id};
        if id == perspective {
          active := active + 1;
        } else {
          var pr := progress[id];
          if pr.recentActive {
            active := active + 1;
          }
          progress := progress[id := pr.(recentActive := false)];
        }
      }
      assert seen == voters;
    }
  }
}
