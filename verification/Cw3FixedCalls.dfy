/** What every call of the fixed multisig does, in every run: when it goes through, what it
    changes, and what it sends out. */
module Cw3FixedCalls {
  import opened Prelude
  import opened Sums
  import opened Cw3Proposal
  import opened Cw3Board
  import opened Cw3History
  import opened Cw3Meaning
  import opened Cw3Fixed
  import opened Cw3FixedTheorems

  ghost predicate Accepts(w: World, sender: Addr, msg: Msg) {
    var s, b := w.contract, w.contract.board;
    match msg
    case Propose(_, latest) =>
      && sender in s.voters && b.count < U64_MAX
      && s.config.maxVotingPeriod.Fits(w.now) && SameKind(latest, s.config.maxVotingPeriod)
    case CastBallot(id, _) => sender in s.voters && s.voters[sender] >= 1 && TakesVoteOf(b, w.now, id, sender)
    case Execute(id) => MayExecute(b, w.now, id)
    case Close(id) => MayClose(b, w.now, id)
  }

  /** The world after a call that goes through. */
  ghost predicate Done(w: World, sender: Addr, msg: Msg, v: World) {
    var s, b, c := w.contract, w.contract.board, v.contract.board;
    && v.now == w.now && v.contract == s.(board := c)
    && match msg
       case Propose(msgs, latest) =>
         && v.log == w.log && sender in s.voters && c.count in c.proposals
         && var p := c.proposals[c.count];
            && Opened(b, c, w.now, p) && Deadline(latest, s.config.maxVotingPeriod, w.now, p.expires)
            && p.msgs == msgs && p.proposer == sender && p.votes.yes == s.voters[sender] && p.deposit == None
            && p.threshold == s.config.threshold && p.totalWeight == s.config.totalWeight
       case CastBallot(id, vote) =>
         v.log == w.log && sender in s.voters && Recorded(b, c, w.now, id, sender, s.voters[sender], vote)
       case Execute(id) =>
         Ended(b, c, id, Executed) && v.log == w.log + [Dispatch(id, b.proposals[id].msgs)]
       case Close(id) => v.log == w.log && Ended(b, c, id, Rejected)
  }

  lemma ProposeExactly(w: World, sender: Addr, msgs: seq<CosmosMsg>, latest: Option<Expiration>)
    requires Inv(w)
    ensures var r := Handle(w.contract, w.now, sender, Propose(msgs, latest));
            && (r.Ok? <==> Accepts(w, sender, Propose(msgs, latest)))
            && (r.Ok? ==> Done(w, sender, Propose(msgs, latest), Apply(w, Call(sender, Propose(msgs, latest)))))
  {
    hide CurrentStatus, OpenProposal, ChooseExpiry, Verdict, Duration.Fits, SameKind, Deadline, LogMatches, Consistent,
         BallotsFromVoters;
    var s := w.contract;
    ExpiryExactly(latest, s.config.maxVotingPeriod, w.now);
    if sender in s.voters && ChooseExpiry(latest, s.config.maxVotingPeriod, w.now).Ok? {
      SumAtLeast(Powers(s.voters), sender);
      var draft := Draft(s, w.now, sender, s.voters[sender], msgs,
                         ChooseExpiry(latest, s.config.maxVotingPeriod, w.now).value);
      OpensExactly(s.board, w.now, draft);
      assert w.log + [] == w.log;
    }
  }

  lemma VoteExactly(w: World, sender: Addr, id: nat, vote: Vote)
    requires Inv(w)
    ensures var r := Handle(w.contract, w.now, sender, CastBallot(id, vote));
            && (r.Ok? <==> Accepts(w, sender, CastBallot(id, vote)))
            && (r.Ok? ==> Done(w, sender, CastBallot(id, vote), Apply(w, Call(sender, CastBallot(id, vote)))))
  {
    hide CurrentStatus, CastVote, Recorded, LogMatches, Consistent, FromVoters;
    var s := w.contract;
    VoteNeverTraps(w, sender, id, vote);
    if Votable(s.board, w.now, id).Ok? && sender in s.voters {
      RecordsExactly(s.board, w.now, id, sender, s.voters[sender], vote);
    }
    assert w.log + [] == w.log;
  }

  lemma EndExactly(w: World, sender: Addr, id: nat)
    requires Inv(w)
    ensures var r := Handle(w.contract, w.now, sender, Execute(id));
            && (r.Ok? <==> Accepts(w, sender, Execute(id)))
            && (r.Ok? ==> Done(w, sender, Execute(id), Apply(w, Call(sender, Execute(id)))))
    ensures var r := Handle(w.contract, w.now, sender, Close(id));
            && (r.Ok? <==> Accepts(w, sender, Close(id)))
            && (r.Ok? ==> Done(w, sender, Close(id), Apply(w, Call(sender, Close(id)))))
  {
    if id in w.contract.board.proposals {
      TalliesAreBounded(w, id);
    }
    hide CurrentStatus, ExecuteProposal, CloseProposal, MayExecute, MayClose, LogMatches, FromVoters, Tallied;
    ExecutesExactly(w.contract.board, w.now, id);
    ClosesExactly(w.contract.board, w.now, id);
    assert w.log + [] == w.log;
  }

  /** Every call of every run, exactly; one that does not go through changes nothing. */
  lemma CallExactly(
    w: World, api: string -> bool, limits: Threshold -> bool, voters: seq<Voter>, t: Threshold, period: Duration,
    events: seq<Event>, sender: Addr, msg: Msg)
    requires Genesis(w, api, limits, voters, t, period)
    ensures var v := Run(w, events);
            var u := Apply(v, Call(sender, msg));
            if Accepts(v, sender, msg) then Done(v, sender, msg, u) else u == v
  {
    hide Inv, Run, Accepts, Done, Handle;
    GenesisInv(w, api, limits, voters, t, period);
    RunKeeps(w, events);
    var v := Run(w, events);
    match msg
    case Propose(msgs, latest) => ProposeExactly(v, sender, msgs, latest);
    case CastBallot(id, vote) => VoteExactly(v, sender, id, vote);
    case Execute(id) => EndExactly(v, sender, id);
    case Close(id) => EndExactly(v, sender, id);
  }

  /** What a stored status means at this and every later block of any run, by the ballots:
      passed and executed proposals are carried, rejected ones are not; and until its deadline
      a proposal that is not executed has the status that its ballots give it. */
  lemma StatusMeans(
    w: World, api: string -> bool, limits: Threshold -> bool, voters: seq<Voter>, t: Threshold, period: Duration,
    events: seq<Event>, id: nat, later: Block)
    requires Genesis(w, api, limits, voters, t, period)
    requires Run(w, events).now.NotAfter(later)
    ensures var b := Run(w, events).contract.board;
            id in b.proposals ==>
              var p, ballots := b.proposals[id], BallotsOf(b, id);
              var carried := Carried(p.threshold, p.totalWeight, ballots, p.expires.IsExpired(later));
              && (p.status == Passed || p.status == Executed ==> carried)
              && (p.status == Rejected ==> !carried)
              && (p.status == Open && !p.expires.IsExpired(later) ==> Verdict(p, ballots, later) == Open)
  {
    hide Run, Genesis, CurrentStatus, IsPassed, Carried, Verdict;
    CachedVerdictIsRight(w, api, limits, voters, t, period, events, id, later);
    var b := Run(w, events).contract.board;
    if id in b.proposals {
      var p := b.proposals[id];
      PassedExactly(p, BallotsOf(b, id), later);
      if p.status == Open && !p.expires.IsExpired(later) {
        StatusTrapsExactly(p, later);
        StatusExactly(p, BallotsOf(b, id), later);
      }
    }
  }

  /** A new contract: the listed weights, later entries for an address winning, the total of
      all that is listed, and nothing proposed. */
  lemma InstantiateExactly(api: string -> bool, limits: Threshold -> bool, voters: seq<Voter>, t: Threshold,
                           period: Duration)
    ensures var r := Instantiate(api, limits, voters, t, period);
            && (r.Ok? <==> && voters != [] && TotalOf(voters) <= U64_MAX && limits(t)
                           && (match t
                               case AbsoluteCount(weight) => 0 < weight <= TotalOf(voters)
                               case AbsolutePercentage(p) => p > 0
                               case ThresholdQuorum(p, q) => p > 0 && q > 0)
                           && forall v | v in voters :: api(v.addr))
            && (r.Ok? ==>
                  && r.value == State(Config(t, TotalOf(voters), period), r.value.voters, Board(0, map[], map[]))
                  && (forall a: Addr | a in r.value.voters :: exists i: nat | i < |voters| ::
                        voters[i] == Voter(a, r.value.voters[a]) && forall j | i < j < |voters| :: voters[j].addr != a)
                  && forall v | v in voters :: v.addr in r.value.voters)
  {
    var r := Instantiate(api, limits, voters, t, period);
    assert (forall v | v in voters :: api(v.addr)) <==> forall i | 0 <= i < |voters| :: api(voters[i].addr);
    if r.Ok? {
      forall a: Addr | a in r.value.voters
        ensures exists i: nat | i < |voters| ::
                  voters[i] == Voter(a, r.value.voters[a]) && forall j | i < j < |voters| :: voters[j].addr != a
      {
        var i := LastEntry(voters, a);
      }
      forall v | v in voters
        ensures v.addr in r.value.voters
      {
        var i :| 0 <= i < |voters| && voters[i] == v;
        ListedIsStored(voters, i);
      }
    }
  }
}
