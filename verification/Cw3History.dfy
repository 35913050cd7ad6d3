/** What a run of a multisig leaves behind: a log of everything it sent out, and proposals
    that only move forward. Both multisigs keep these along every call. */
module Cw3History {
  import opened Prelude
  import opened Cw3Proposal
  import opened Cw3Board

  // --------------------------------------------------------------------- log

  /** An entry of the log is about a decided proposal, and says exactly what it asked for. */
  predicate Entry(proposals: map<nat, Proposal>, e: Effect) {
    match e
    case TakeDeposit(_, _) => true
    case ReturnDeposit(id, to, deposit) =>
      && id in proposals && proposals[id].deposit == Some(deposit) && to == proposals[id].proposer
      && (proposals[id].status == Executed || (proposals[id].status == Rejected && deposit.refundFailedProposals))
    case Dispatch(id, msgs) =>
      id in proposals && proposals[id].status == Executed && msgs == proposals[id].msgs
  }

  /** Two dispatches, or two refunds, of one proposal. */
  predicate Twice(e: Effect, f: Effect) {
    (e.Dispatch? && f.Dispatch? && e.id == f.id) || (e.ReturnDeposit? && f.ReturnDeposit? && e.id == f.id)
  }

  /** The messages of a proposal were dispatched, right after its deposit, if there is one,
      went back to its proposer. */
  predicate Settled(log: seq<Effect>, id: nat, p: Proposal) {
    exists j: nat | j < |log| ::
      && log[j] == Dispatch(id, p.msgs)
      && (p.deposit.Some? ==> j > 0 && log[j - 1] == ReturnDeposit(id, p.proposer, p.deposit.value))
  }

  /** The log matches the proposals: a proposal's messages are dispatched at most once, and
      exactly if it is executed; its deposit is returned at most once, to its proposer, on
      execution always, just before that, or on a rejection that refunds. */
  predicate LogMatches(proposals: map<nat, Proposal>, log: seq<Effect>) {
    && (forall e | e in log :: Entry(proposals, e))
    && (forall i, j | 0 <= i < j < |log| :: !Twice(log[i], log[j]))
    && (forall id | id in proposals && proposals[id].status == Executed :: Settled(log, id, proposals[id]))
  }

  /** A proposal is rewritten with nothing new but its tally and its status. */
  predicate Rewritten(p: Proposal, q: Proposal) {
    q == p.(votes := q.votes, status := q.status)
  }

  predicate Terminal(status: Status) {
    status == Executed || status == Rejected
  }

  lemma SettledStays(log: seq<Effect>, more: seq<Effect>, id: nat, p: Proposal, q: Proposal)
    requires Settled(log, id, p) && Rewritten(p, q)
    ensures Settled(log + more, id, q)
  {
    var j: nat :| j < |log| && log[j] == Dispatch(id, p.msgs)
                  && (p.deposit.Some? ==> j > 0 && log[j - 1] == ReturnDeposit(id, p.proposer, p.deposit.value));
    assert (log + more)[j] == log[j] && (j > 0 ==> (log + more)[j - 1] == log[j - 1]);
  }

  /** Writing a new proposal, or a rewritten one that does not become executed. */
  lemma LogStays(before: map<nat, Proposal>, log: seq<Effect>, id: nat, q: Proposal)
    requires LogMatches(before, log)
    requires id in before ==>
               Rewritten(before[id], q) && (Terminal(before[id].status) ==> q.status == before[id].status)
    requires q.status == Executed ==> id in before && before[id].status == Executed
    ensures LogMatches(before[id := q], log)
  {
    var after := before[id := q];
    forall e | e in log
      ensures Entry(after, e)
    {
      assert Entry(before, e);
    }
    forall i | i in after && after[i].status == Executed
      ensures Settled(log, i, after[i])
    {
      SettledStays(log, [], i, before[i], after[i]);
      assert log + [] == log;
    }
  }

  /** Appending entries of a proposal that had none. */
  lemma NothingTwice(proposals: map<nat, Proposal>, log: seq<Effect>, id: nat, more: seq<Effect>)
    requires LogMatches(proposals, log)
    requires id in proposals ==> !Terminal(proposals[id].status)
    requires forall e | e in more :: !e.TakeDeposit? && e.id == id
    requires forall i, j | 0 <= i < j < |more| :: !Twice(more[i], more[j])
    ensures forall i, j | 0 <= i < j < |log + more| :: !Twice((log + more)[i], (log + more)[j])
  {
    forall i, j | 0 <= i < j < |log + more|
      ensures !Twice((log + more)[i], (log + more)[j])
    {
      if i < |log| <= j {
        assert Entry(proposals, log[i]) && (log + more)[j] == more[j - |log|];
        assert more[j - |log|] in more;
      } else if |log| <= i {
        assert !Twice(more[i - |log|], more[j - |log|]);
      }
    }
  }

  lemma LogExecuted(before: map<nat, Proposal>, log: seq<Effect>, id: nat)
    requires LogMatches(before, log) && id in before && !Terminal(before[id].status)
    ensures LogMatches(before[id := before[id].(status := Executed)], log + Executing(id, before[id]))
  {
    var p := before[id];
    var after := before[id := p.(status := Executed)];
    var more := Executing(id, p);
    NothingTwice(before, log, id, more);
    forall e | e in log + more
      ensures Entry(after, e)
    {
      if e in log {
        assert Entry(before, e);
      }
    }
    forall i | i in after && after[i].status == Executed
      ensures Settled(log + more, i, after[i])
    {
      if i == id {
        var j := |log + more| - 1;
        assert (log + more)[j] == more[|more| - 1] == Dispatch(id, p.msgs);
        assert |more| > 1 ==> (log + more)[j - 1] == more[|more| - 2];
      } else {
        SettledStays(log, more, i, before[i], after[i]);
      }
    }
  }

  lemma LogClosed(before: map<nat, Proposal>, log: seq<Effect>, id: nat)
    requires LogMatches(before, log) && id in before && !Terminal(before[id].status)
    ensures LogMatches(before[id := before[id].(status := Rejected)], log + Closing(id, before[id]))
  {
    var p := before[id];
    var after := before[id := p.(status := Rejected)];
    var more := Closing(id, p);
    NothingTwice(before, log, id, more);
    forall e | e in log + more
      ensures Entry(after, e)
    {
      if e in log {
        assert Entry(before, e);
      }
    }
    forall i | i in after && after[i].status == Executed
      ensures Settled(log + more, i, after[i])
    {
      SettledStays(log, more, i, before[i], after[i]);
    }
  }

  lemma LogTakes(proposals: map<nat, Proposal>, log: seq<Effect>, more: seq<Effect>)
    requires LogMatches(proposals, log) && forall e | e in more :: e.TakeDeposit?
    ensures LogMatches(proposals, log + more)
  {
    forall i, j | 0 <= i < j < |log + more|
      ensures !Twice((log + more)[i], (log + more)[j])
    {
      if |log| <= j {
        assert (log + more)[j] == more[j - |log|] && more[j - |log|] in more;
      }
    }
    forall i | i in proposals && proposals[i].status == Executed
      ensures Settled(log + more, i, proposals[i])
    {
      SettledStays(log, more, i, proposals[i], proposals[i]);
    }
  }

  // ------------------------------------------------------------------ forward

  /** Rejected and executed are final, and a passed proposal can only be executed. */
  predicate MayBecome(before: Status, after: Status) {
    match before
    case Rejected => after == Rejected
    case Executed => after == Executed
    case Passed => after == Passed || after == Executed
    case _ => true
  }

  /** A later version of the same proposal: nothing that was proposed has changed, votes
      were only added, and none after execution. */
  predicate LaterVersion(p: Proposal, q: Proposal) {
    && Rewritten(p, q) && MayBecome(p.status, q.status)
    && (forall vote: Vote :: p.votes.Of(vote) <= q.votes.Of(vote))
    && (p.status == Executed ==> q == p)
  }

  /** Nothing is forgotten: ids are not reused, ballots are never changed or dropped. */
  predicate Forward(b: Board, c: Board) {
    && b.count <= c.count
    && (forall id | id in b.proposals :: id in c.proposals && LaterVersion(b.proposals[id], c.proposals[id]))
    && (forall id | id in c.proposals && id !in b.proposals :: b.count < id)
    && (forall id, a | id in b.ballots && a in b.ballots[id] ::
          id in c.ballots && a in c.ballots[id] && c.ballots[id][a] == b.ballots[id][a])
  }

  lemma ForwardRefl(b: Board)
    ensures Forward(b, b)
  {
  }

  lemma ForwardTransitive(b: Board, c: Board, d: Board)
    requires Forward(b, c) && Forward(c, d)
    ensures Forward(b, d)
  {
    forall id | id in b.proposals
      ensures id in d.proposals && LaterVersion(b.proposals[id], d.proposals[id])
    {
      LaterVersionTransitive(b.proposals[id], c.proposals[id], d.proposals[id]);
    }
  }

  lemma LaterVersionTransitive(p: Proposal, q: Proposal, r: Proposal)
    requires LaterVersion(p, q) && LaterVersion(q, r)
    ensures LaterVersion(p, r)
  {
    forall vote: Vote
      ensures p.votes.Of(vote) <= r.votes.Of(vote)
    {
      assert p.votes.Of(vote) <= q.votes.Of(vote);
    }
  }

  lemma OpenForward(b: Board, block: Block, draft: Proposal)
    requires Consistent(b, block) && IsDraft(draft, block)
    ensures OpenProposal(b, block, draft).Ok? ==> Forward(b, OpenProposal(b, block, draft).value.0)
  {
    hide CurrentStatus, Tallied, VerdictHolds;
  }

  lemma CastVoteForward(b: Board, block: Block, id: nat, voter: Addr, power: Uint64, vote: Vote)
    requires Votable(b, block, id).Ok?
    ensures var r := CastVote(b, block, id, Votable(b, block, id).value, voter, power, vote);
            r.Ok? ==> Forward(b, r.value)
  {
    hide CurrentStatus;
    var p := Votable(b, block, id).value;
    var r := CastVote(b, block, id, p, voter, power, vote);
    if r.Ok? {
      var q := r.value.proposals[id];
      StatusMoves(p.(votes := q.votes), block);
      forall option: Vote
        ensures p.votes.Of(option) <= q.votes.Of(option)
      {
        AddVoteTally(p.votes, vote, power, option);
      }
    }
  }

  lemma SaveForward(b: Board, id: nat, q: Proposal)
    requires id in b.proposals && q == b.proposals[id].(status := q.status)
    requires !Terminal(b.proposals[id].status) && MayBecome(b.proposals[id].status, q.status)
    ensures Forward(b, SaveProposal(b, id, q))
  {
  }
}
