/** How far the tally of a flex proposal really can go: a run in which everybody votes
    reaches its potential, so the recorded total bounds it exactly if it bounds that. */
module Cw3FlexTurnout {
  import opened Prelude
  import opened Sums
  import opened Cw3Rounding
  import opened Cw3Proposal
  import opened Cw3Board
  import opened Cw3History
  import opened Cw3Flex
  import opened Cw3FlexTheorems
  import opened Cw3FlexTraps
  import Cw4Group

  /** The members of `voters` with what they weigh in the snapshot. */
  function Weighed(snapshot: Members, voters: set<Addr>): map<Addr, nat> {
    map a | a in voters && a in snapshot :: snapshot[a]
  }

  ghost function WeightLeft(snapshot: Members, voters: set<Addr>): nat {
    Sum(Weighed(snapshot, voters))
  }

  function TallyOf(w: World, id: nat): nat {
    if id in w.contract.board.proposals then w.contract.board.proposals[id].votes.Sum() else 0
  }

  lemma OneVoterLess(snapshot: Members, voters: set<Addr>, a: Addr)
    requires a in voters && a in snapshot
    ensures WeightLeft(snapshot, voters) == WeightLeft(snapshot, voters - {a}) + snapshot[a]
  {
    assert Weighed(snapshot, voters - {a}) == Weighed(snapshot, voters) - {a};
    SumRemove(Weighed(snapshot, voters), a);
  }

  /** Nothing stands in the way of votes by all of these voters. */
  predicate Ready(w: World, id: nat, voters: set<Addr>) {
    && id in w.contract.board.proposals
    && var p := w.contract.board.proposals[id];
       && TakesVotes(p.status) && !p.expires.IsExpired(w.now) && p.votes.abstain == 0
       && CountInReach(p.threshold, p.totalWeight) && p.startHeight < |w.atStart|
       && voters <= w.atStart[p.startHeight].Keys && voters !! BallotsOf(w.contract.board, id).Keys
  }

  /** The sum of all votes is only formed for an open proposal with a quorum. */
  predicate SumsUp(p: Proposal) {
    p.status == Open && p.threshold.ThresholdQuorum?
  }

  /** Their weight fits, where a sum is formed. */
  predicate Fits(p: Proposal, vote: Vote, weight: nat) {
    p.votes.Of(vote) + weight <= U64_MAX && (SumsUp(p) ==> p.votes.Sum() + weight <= U64_MAX)
  }

  /** A tally with more weight for yes or for no. */
  predicate Grown(before: Votes, after: Votes, vote: Vote, weight: nat) {
    && after.abstain == before.abstain && after.veto == before.veto
    && after.yes == before.yes + (if vote == Yes then weight else 0)
    && after.no == before.no + (if vote == No then weight else 0)
  }

  function CastBy(voter: Addr, id: nat, vote: Vote): Event {
    Call(voter, [], CastBallot(id, vote))
  }

  /** Somebody who is ready to vote on a proposal does. */
  lemma OneCasts(w: World, id: nat, voters: set<Addr>, a: Addr, vote: Vote)
    requires Ready(w, id, voters) && a in voters && (vote == Yes || vote == No)
    requires var p := w.contract.board.proposals[id];
             w.atStart[p.startHeight][a] > 0 && Fits(p, vote, w.atStart[p.startHeight][a])
    ensures var b := w.contract.board;
            var power := w.atStart[b.proposals[id].startHeight][a];
            var r := CastVote(b, w.now, id, b.proposals[id], a, power, vote);
            && r.Ok? && FlexVote(w.contract, View(w), w.now, a, id, vote) == Ok((w.contract.(board := r.value), []))
  {
    hide CurrentStatus, CastVote;
    var b := w.contract.board;
    var power := w.atStart[b.proposals[id].startHeight][a];
    CastTraps(b, w.now, id, a, power, vote);
    CastErrors(b, w.now, id, a, power, vote);
  }

  /** The world after it: the others are still ready. */
  ghost predicate Voted(w: World, v: World, id: nat, others: set<Addr>, vote: Vote, weight: nat) {
    && Ready(w, id, {}) && Ready(v, id, others) && Inv(v) && v.atStart == w.atStart && v.now == w.now
    && var p, q := w.contract.board.proposals[id], v.contract.board.proposals[id];
       && q == p.(votes := q.votes, status := q.status)
       && (SumsUp(q) ==> SumsUp(p)) && Grown(p.votes, q.votes, vote, weight)
  }

  lemma OneVotes(w: World, api: string -> bool, id: nat, voters: set<Addr>, a: Addr, vote: Vote)
    requires Inv(w) && Ready(w, id, voters) && a in voters && (vote == Yes || vote == No)
    requires var p := w.contract.board.proposals[id];
             w.atStart[p.startHeight][a] > 0 && Fits(p, vote, w.atStart[p.startHeight][a])
    ensures Voted(w, Apply(w, api, CastBy(a, id, vote)), id, voters - {a}, vote,
                  w.atStart[w.contract.board.proposals[id].startHeight][a])
  {
    hide Inv, CurrentStatus, CastVote, FlexVote, Fits, Consistent;
    var b := w.contract.board;
    var power := w.atStart[b.proposals[id].startHeight][a];
    ApplyKeeps(w, api, CastBy(a, id, vote));
    OneCasts(w, id, voters, a, vote);
    InvConsistent(w);
    var _, q := CastVoteKeeps(b, w.now, id, a, power, vote);
    StaysVotable(b, w.now, id, a, power, vote);
  }

  lemma InvConsistent(w: World)
    requires Inv(w)
    ensures Consistent(w.contract.board, w.now)
  {
  }

  /** A vote by somebody who has not voted fails only by trapping. */
  lemma CastErrors(b: Board, block: Block, id: nat, voter: Addr, power: Uint64, vote: Vote)
    requires Votable(b, block, id).Ok? && voter !in BallotsOf(b, id)
    ensures var r := CastVote(b, block, id, b.proposals[id], voter, power, vote); r.Err? ==> r == Err(Panic)
  {
    hide CurrentStatus;
    var p := b.proposals[id];
    if p.votes.AddVote(vote, power).Ok? {
      StatusTrapsExactly(p.(votes := p.votes.AddVote(vote, power).value), block);
    }
  }

  lemma StaysVotable(b: Board, block: Block, id: nat, voter: Addr, power: Uint64, vote: Vote)
    requires Votable(b, block, id).Ok? && CastVote(b, block, id, b.proposals[id], voter, power, vote).Ok?
    ensures TakesVotes(CastVote(b, block, id, b.proposals[id], voter, power, vote).value.proposals[id].status)
  {
    hide PassRule, RejectRule;
  }

  lemma NobodyVoted(w: World, id: nat, voters: set<Addr>, vote: Vote)
    requires Inv(w) && Ready(w, id, voters)
    ensures Voted(w, w, id, voters, vote, 0)
  {
    hide Inv;
  }

  lemma VotedMore(w: World, u: World, v: World, id: nat, some: set<Addr>, others: set<Addr>, vote: Vote,
                  first: nat, rest: nat)
    requires Voted(w, u, id, some, vote, first) && Voted(u, v, id, others, vote, rest)
    ensures Voted(w, v, id, others, vote, first + rest)
  {
    hide Inv;
  }

  lemma FewerReady(w: World, id: nat, voters: set<Addr>, fewer: set<Addr>)
    requires Ready(w, id, voters) && fewer <= voters
    ensures Ready(w, id, fewer)
  {
  }

  /** All of some voters vote the same way, one after the other, and the others still can. */
  lemma Turnout(w: World, api: string -> bool, id: nat, voters: set<Addr>, others: set<Addr>, vote: Vote)
    returns (votes: seq<Event>)
    requires Inv(w) && Ready(w, id, voters + others) && voters !! others && (vote == Yes || vote == No)
    requires var p := w.contract.board.proposals[id];
             Fits(p, vote, WeightLeft(w.atStart[p.startHeight], voters))
    ensures Voted(w, Run(w, api, votes), id, others, vote,
                  WeightLeft(w.atStart[w.contract.board.proposals[id].startHeight], voters))
    decreases |voters|
  {
    hide Inv, Apply, CastBy, Ready, Voted;
    ReadyKnows(w, id, voters + others);
    var snapshot := w.atStart[w.contract.board.proposals[id].startHeight];
    if voters == {} {
      votes := [];
      assert Weighed(snapshot, {}) == map[];
      assert voters + others == others;
      NobodyVoted(w, id, others, vote);
    } else {
      var a :| a in voters;
      OneVoterLess(snapshot, voters, a);
      assert voters + others - {a} == (voters - {a}) + others;
      if snapshot[a] == 0 {
        FewerReady(w, id, voters + others, (voters - {a}) + others);
        votes := Turnout(w, api, id, voters - {a}, others, vote);
      } else {
        OneVotes(w, api, id, voters + others, a, vote);
        var v := Apply(w, api, CastBy(a, id, vote));
        VotedKnows(w, v, id, (voters - {a}) + others, vote, snapshot[a]);
        var rest := Turnout(v, api, id, voters - {a}, others, vote);
        votes := [CastBy(a, id, vote)] + rest;
        assert votes[1..] == rest;
        VotedMore(w, v, Run(v, api, rest), id, (voters - {a}) + others, others, vote,
                  snapshot[a], WeightLeft(snapshot, voters - {a}));
      }
    }
  }

  lemma ReadyKnows(w: World, id: nat, voters: set<Addr>)
    requires Ready(w, id, voters)
    ensures id in w.contract.board.proposals && w.contract.board.proposals[id].startHeight < |w.atStart|
    ensures voters <= w.atStart[w.contract.board.proposals[id].startHeight].Keys
  {
  }

  lemma VotedKnows(w: World, v: World, id: nat, others: set<Addr>, vote: Vote, weight: nat)
    requires Voted(w, v, id, others, vote, weight) && (vote == Yes || vote == No)
    ensures Inv(v) && Ready(v, id, others) && v.atStart == w.atStart
    ensures id in w.contract.board.proposals && id in v.contract.board.proposals
    ensures var p, q := w.contract.board.proposals[id], v.contract.board.proposals[id];
            && q.startHeight == p.startHeight && (SumsUp(q) ==> SumsUp(p))
            && q.votes.Of(vote) == p.votes.Of(vote) + weight && q.votes.Sum() == p.votes.Sum() + weight
  {
    hide Inv, Ready;
    assert Ready(w, id, {});
    ReadyKnows(w, id, {});
    ReadyKnows(v, id, others);
  }

  // ------------------------------------------------------------- the exact bound

  lemma {:induction false} RunKeepsWeighable(w: World, api: string -> bool, events: seq<Event>)
    requires Inv(w) && Weighable(w.atStart)
    ensures Weighable(Run(w, api, events).atStart)
    decreases |events|
  {
    hide Inv, FlexHandle, Weighable, Cw4Group.UpdateMembers;
    if events != [] {
      ApplyKeeps(w, api, events[0]);
      if events[0].Tick? && w.now.NotAfter(events[0].later) {
        TickWeighable(w, events[0].later);
      }
      RunKeepsWeighable(Apply(w, api, events[0]), api, events[1..]);
    }
  }

  lemma TickWeighable(w: World, later: Block)
    requires Inv(w) && Weighable(w.atStart) && w.now.NotAfter(later)
    ensures Weighable(w.atStart + Copies(w.group.members, later.height - w.now.height))
  {
    hide Consistent, LogMatches, Snapshots;
  }

  /** All who can vote on a new proposal, and what they weigh together. */
  lemma Electorate(snapshot: Members, proposer: Addr, weight: nat)
    ensures weight + WeightLeft(snapshot, snapshot.Keys - {proposer}) == Potential(proposer, weight, snapshot)
    ensures WeightLeft(snapshot, snapshot.Keys - {proposer}) <= Sum(Cw4Group.Weights(snapshot))
  {
    var others := Weighed(snapshot, snapshot.Keys - {proposer});
    assert others == Cw4Group.Weights(snapshot - {proposer});
    SumMono(others, Cw4Group.Weights(snapshot));
  }

  /** A proposal that was just made, with nothing but the yes of its proposer. */
  ghost predicate Fresh(u: World, id: nat, proposer: Addr, power: Uint64) {
    && Inv(u) && Weighable(u.atStart) && |u.atStart| == u.now.height + 1 && id in u.contract.board.proposals
    && var p := u.contract.board.proposals[id];
       && p.startHeight == u.now.height && p.proposer == proposer && TakesVotes(p.status)
       && p.votes == Votes(power, 0, 0, 0) && power <= p.totalWeight
       && BallotsOf(u.contract.board, id) == map[proposer := Ballot(power, Yes)]
       && CountInReach(p.threshold, p.totalWeight)
  }

  lemma JustProposed(w: World, api: string -> bool, sender: Addr, funds: seq<Coin>, msgs: seq<CosmosMsg>,
                     latest: Option<Expiration>)
    requires Inv(w) && Weighable(w.atStart)
    requires FlexPropose(w.contract, View(w), w.now, sender, funds, msgs, latest).Ok?
    ensures var u := Apply(w, api, Call(sender, funds, Propose(msgs, latest)));
            var id := u.contract.board.count;
            && sender in w.group.members && Fresh(u, id, sender, w.group.members[sender])
            && u.atStart == w.atStart && u.now == w.now
            && var p := u.contract.board.proposals[id];
               && p.totalWeight == w.group.total && p.threshold == w.contract.config.threshold
               && ChooseExpiry(latest, w.contract.config.maxVotingPeriod, w.now) == Ok(p.expires)
  {
    hide CurrentStatus, Consistent, LogMatches, Snapshots, Cw4Group.TotalIsSum, OpenProposal, Weighable;
    ApplyKeeps(w, api, Call(sender, funds, Propose(msgs, latest)));
    var s := w.contract;
    var expires := ChooseExpiry(latest, s.config.maxVotingPeriod, w.now).value;
    var draft := FlexDraft(s, View(w), w.now, sender, w.group.members[sender], msgs, expires);
    OpenKeeps(s.board, w.now, draft);
    MemberWithinTotal(w, sender);
    NewProposalCounted(s.board, w.now, draft);
    StartsVotable(s.board, w.now, draft);
  }

  lemma StartsVotable(b: Board, block: Block, draft: Proposal)
    requires draft.status == Open && OpenProposal(b, block, draft).Ok?
    ensures var (c, id) := OpenProposal(b, block, draft).value; TakesVotes(c.proposals[id].status)
  {
    hide PassRule, RejectRule;
  }

  /** After the deadline a tally does not move. */
  lemma {:induction false} ExpiredTallyStays(w: World, api: string -> bool, events: seq<Event>, id: nat)
    requires Inv(w) && id in w.contract.board.proposals && w.contract.board.proposals[id].expires.IsExpired(w.now)
    ensures TallyOf(Run(w, api, events), id) == TallyOf(w, id)
    decreases |events|
  {
    hide Inv, FlexHandle, Forward, Cw4Group.UpdateMembers;
    if events != [] {
      var e, v := events[0], Apply(w, api, events[0]);
      ApplyKeeps(w, api, e);
      ApplyForward(w, api, e);
      SameDeadline(w.contract.board, v.contract.board, id);
      if e.Call? && FlexHandle(w.contract, View(w), w.now, e.sender, e.funds, e.msg).Ok? {
        ExpiredCall(w, e.sender, e.funds, e.msg, id);
      }
      ExpiredTallyStays(v, api, events[1..], id);
    }
  }

  lemma SameDeadline(b: Board, c: Board, id: nat)
    requires Forward(b, c) && id in b.proposals
    ensures id in c.proposals && c.proposals[id].expires == b.proposals[id].expires
  {
    assert LaterVersion(b.proposals[id], c.proposals[id]);
  }

  lemma ExpiredCall(w: World, sender: Addr, funds: seq<Coin>, msg: Msg, id: nat)
    requires Inv(w) && id in w.contract.board.proposals && w.contract.board.proposals[id].expires.IsExpired(w.now)
    requires FlexHandle(w.contract, View(w), w.now, sender, funds, msg).Ok?
    ensures var c := FlexHandle(w.contract, View(w), w.now, sender, funds, msg).value.0.board;
            id in c.proposals && c.proposals[id].votes == w.contract.board.proposals[id].votes
  {
    hide Consistent, LogMatches, Snapshots, Cw4Group.TotalIsSum, CurrentStatus, OpenProposal, CastVote;
    var s := w.contract;
    match msg
    case Propose(msgs, latest) =>
      var expires := ChooseExpiry(latest, s.config.maxVotingPeriod, w.now).value;
      OpenKeeps(s.board, w.now, FlexDraft(s, View(w), w.now, sender, w.group.members[sender], msgs, expires));
    case CastBallot(i, vote) =>
      var power := View(w).IsVotingMember(sender, s.board.proposals[i].startHeight).value;
      var _, _ := CastVoteKeeps(s.board, w.now, i, sender, power, vote);
    case Execute(i) => ExecuteKeeps(s.board, w.now, i);
    case Close(i) => CloseKeeps(s.board, w.now, i);
    case MemberChangedHook(_) =>
  }

  // ------------------------------------------------------- when it can outgrow

  /** These voters together can decide an open proposal with a quorum: it passes if they all
      vote yes with the proposer, or is rejected if they all vote no. */
  predicate Decide(t: Threshold, total: Uint64, power: nat, weight: nat) {
    t.ThresholdQuorum?
    && (|| (power + weight >= VotesNeeded(total, t.quorum) && power + weight >= VotesNeeded(total, t.threshold))
        || weight > VotesNeeded(total, ONE - t.threshold))
  }

  /** What a proposer of this weight can find out before proposing: the possible tally is
      beyond the total. Under a quorum the sum of the votes on an open proposal must also fit
      64 bits; so there must be voters who take the tally beyond the total within 64 bits, or
      who decide the proposal within the total, after which no sum is formed any more. */
  ghost predicate CanOutgrow(t: Threshold, total: Uint64, proposer: Addr, power: Uint64, snapshot: Members) {
    && Potential(proposer, power, snapshot) > total
    && (t.ThresholdQuorum? ==> exists voters: set<Addr> ::
          voters <= snapshot.Keys - {proposer} && TakesBeyond(t, total, power, WeightLeft(snapshot, voters)))
  }

  predicate TakesBeyond(t: Threshold, total: Uint64, power: nat, weight: nat) {
    || total < power + weight <= U64_MAX
    || (power + weight <= total && Decide(t, total, power, weight))
  }

  /** As long as 64 bits hold the possible tally, it is all that matters. */
  lemma OutgrowsWithin64Bits(t: Threshold, total: Uint64, proposer: Addr, power: Uint64, snapshot: Members)
    requires !t.ThresholdQuorum? || Potential(proposer, power, snapshot) <= U64_MAX
    ensures CanOutgrow(t, total, proposer, power, snapshot) <==> Potential(proposer, power, snapshot) > total
  {
    var all := snapshot.Keys - {proposer};
    Electorate(snapshot, proposer, power);
    if Potential(proposer, power, snapshot) > total && t.ThresholdQuorum? {
      assert TakesBeyond(t, total, power, WeightLeft(snapshot, all));
    }
  }

  lemma {:induction false} WeightSplits(snapshot: Members, all: set<Addr>, some: set<Addr>)
    requires some <= all <= snapshot.Keys
    ensures WeightLeft(snapshot, all) == WeightLeft(snapshot, some) + WeightLeft(snapshot, all - some)
    decreases |some|
  {
    if some == {} {
      assert all - some == all && Weighed(snapshot, {}) == map[];
    } else {
      var a :| a in some;
      WeightSplits(snapshot, all - {a}, some - {a});
      OneVoterLess(snapshot, all, a);
      OneVoterLess(snapshot, some, a);
      assert all - {a} - (some - {a}) == all - some;
    }
  }

  lemma {:induction false} RunAppend(w: World, api: string -> bool, a: seq<Event>, b: seq<Event>)
    ensures Run(w, api, a + b) == Run(Run(w, api, a), api, b)
    decreases |a|
  {
    hide Apply;
    if a == [] {
      assert a + b == b;
    } else {
      assert (a + b)[1..] == a[1..] + b;
      RunAppend(Apply(w, api, a[0]), api, a[1..], b);
    }
  }

  // -------------------------------------------------------------- it can happen

  /** Everybody of these votes no on a fresh proposal. */
  lemma AllVoteNo(u: World, api: string -> bool, id: nat, proposer: Addr, power: Uint64, voters: set<Addr>)
    returns (votes: seq<Event>)
    requires Fresh(u, id, proposer, power) && voters <= u.atStart[u.now.height].Keys - {proposer}
    requires var p := u.contract.board.proposals[id];
             && !p.expires.IsExpired(u.now)
             && (SumsUp(p) ==> power + WeightLeft(u.atStart[u.now.height], voters) <= U64_MAX)
    ensures TallyOf(Run(u, api, votes), id) == power + WeightLeft(u.atStart[u.now.height], voters)
  {
    hide Inv, Run, Voted, Weighable;
    var snapshot := u.atStart[u.now.height];
    var all := snapshot.Keys - {proposer};
    Electorate(snapshot, proposer, power);
    WeightSplits(snapshot, all, voters);
    WeighedAt(u, u.now.height);
    assert voters + {} == voters;
    votes := Turnout(u, api, id, voters, {}, No);
    VotedKnows(u, Run(u, api, votes), id, {}, No, WeightLeft(snapshot, voters));
  }

  lemma WeighedAt(u: World, h: nat)
    requires Weighable(u.atStart) && h < |u.atStart|
    ensures Sum(Cw4Group.Weights(u.atStart[h])) <= U64_MAX
  {
  }

  /** A proposal that is within its total and should be decided is not open. */
  lemma NotOpenOnceDecided(v: World, id: nat, power: Uint64, weight: nat, vote: Vote)
    requires Inv(v) && id in v.contract.board.proposals && (vote == Yes || vote == No)
    requires var q := v.contract.board.proposals[id];
             && Grown(Votes(power, 0, 0, 0), q.votes, vote, weight) && power + weight <= q.totalWeight
             && q.threshold.ThresholdQuorum?
             && (if vote == Yes
                 then power + weight >= VotesNeeded(q.totalWeight, q.threshold.quorum)
                      && power + weight >= VotesNeeded(q.totalWeight, q.threshold.threshold)
                 else weight > VotesNeeded(q.totalWeight, ONE - q.threshold.threshold))
    ensures v.contract.board.proposals[id].status != Open || v.contract.board.proposals[id].expires.IsExpired(v.now)
  {
    hide VotesNeeded, LogMatches, Snapshots, Tallied;
    var q := v.contract.board.proposals[id];
    assert Bounded(q) && VerdictHolds(q, v.now);
  }

  /** Some decide a fresh proposal while the tally is within the total. */
  lemma SomeDecide(u: World, api: string -> bool, id: nat, proposer: Addr, power: Uint64, voters: set<Addr>,
                   others: set<Addr>)
    returns (votes: seq<Event>, vote: Vote)
    requires Fresh(u, id, proposer, power) && voters !! others
    requires voters + others == u.atStart[u.now.height].Keys - {proposer}
    requires var p := u.contract.board.proposals[id];
             var weight := WeightLeft(u.atStart[u.now.height], voters);
             && !p.expires.IsExpired(u.now) && power + weight <= p.totalWeight
             && Decide(p.threshold, p.totalWeight, power, weight)
    ensures vote == Yes || vote == No
    ensures Voted(u, Run(u, api, votes), id, others, vote, WeightLeft(u.atStart[u.now.height], voters))
    ensures id in Run(u, api, votes).contract.board.proposals
    ensures Run(u, api, votes).contract.board.proposals[id].status != Open
  {
    hide Inv, Run, Voted, Weighable, Ready, VotesNeeded;
    var p := u.contract.board.proposals[id];
    var weight := WeightLeft(u.atStart[u.now.height], voters);
    vote := if weight > VotesNeeded(p.totalWeight, ONE - p.threshold.threshold) then No else Yes;
    FreshReady(u, id, proposer, power);
    votes := Turnout(u, api, id, voters, others, vote);
    var v := Run(u, api, votes);
    VotedKnows(u, v, id, others, vote, weight);
    VotedDetails(u, v, id, others, vote, weight);
    NotOpenOnceDecided(v, id, power, weight, vote);
  }

  /** First some decide the proposal, then all others vote no. */
  lemma DecidedThenAll(u: World, api: string -> bool, id: nat, proposer: Addr, power: Uint64, voters: set<Addr>)
    returns (votes: seq<Event>)
    requires Fresh(u, id, proposer, power) && voters <= u.atStart[u.now.height].Keys - {proposer}
    requires var p := u.contract.board.proposals[id];
             var weight := WeightLeft(u.atStart[u.now.height], voters);
             && !p.expires.IsExpired(u.now) && power + weight <= p.totalWeight
             && Decide(p.threshold, p.totalWeight, power, weight)
    ensures TallyOf(Run(u, api, votes), id) == Potential(proposer, power, u.atStart[u.now.height])
  {
    hide Inv, Run, Voted, Ready, Decide, Fresh;
    FreshKnows(u, id, proposer, power);
    var snapshot := u.atStart[u.now.height];
    var all := snapshot.Keys - {proposer};
    var others := all - voters;
    Electorate(snapshot, proposer, power);
    WeightSplits(snapshot, all, voters);
    WeighedAt(u, u.now.height);
    assert voters + others == all && others + {} == others;
    var first, vote := SomeDecide(u, api, id, proposer, power, voters, others);
    var v := Run(u, api, first);
    VotedKnows(u, v, id, others, vote, WeightLeft(snapshot, voters));
    VotedDetails(u, v, id, others, vote, WeightLeft(snapshot, voters));
    var second := Turnout(v, api, id, others, {}, No);
    VotedKnows(v, Run(v, api, second), id, {}, No, WeightLeft(snapshot, others));
    RunAppend(u, api, first, second);
    votes := first + second;
  }

  lemma FreshReady(u: World, id: nat, proposer: Addr, power: Uint64)
    requires Fresh(u, id, proposer, power) && !u.contract.board.proposals[id].expires.IsExpired(u.now)
    ensures Ready(u, id, u.atStart[u.now.height].Keys - {proposer})
  {
    hide Inv, Weighable;
  }

  lemma VotedDetails(w: World, v: World, id: nat, others: set<Addr>, vote: Vote, weight: nat)
    requires Voted(w, v, id, others, vote, weight)
    requires id in w.contract.board.proposals && id in v.contract.board.proposals
    ensures v.now == w.now
    ensures var p, q := w.contract.board.proposals[id], v.contract.board.proposals[id];
            Grown(p.votes, q.votes, vote, weight) && q == p.(votes := q.votes, status := q.status)
    ensures !v.contract.board.proposals[id].expires.IsExpired(v.now)
  {
    hide Inv;
  }

  lemma Outgrows(u: World, api: string -> bool, id: nat, proposer: Addr, power: Uint64) returns (votes: seq<Event>)
    requires Fresh(u, id, proposer, power) && !u.contract.board.proposals[id].expires.IsExpired(u.now)
    requires var p := u.contract.board.proposals[id];
             CanOutgrow(p.threshold, p.totalWeight, proposer, power, u.atStart[u.now.height])
    ensures TallyOf(Run(u, api, votes), id) > u.contract.board.proposals[id].totalWeight
  {
    hide Run, Decide, Fresh;
    FreshKnows(u, id, proposer, power);
    var snapshot, p := u.atStart[u.now.height], u.contract.board.proposals[id];
    Electorate(snapshot, proposer, power);
    if !p.threshold.ThresholdQuorum? {
      votes := AllVoteNo(u, api, id, proposer, power, snapshot.Keys - {proposer});
    } else {
      var voters: set<Addr> :|
        voters <= snapshot.Keys - {proposer}
        && TakesBeyond(p.threshold, p.totalWeight, power, WeightLeft(snapshot, voters));
      if power + WeightLeft(snapshot, voters) <= p.totalWeight {
        votes := DecidedThenAll(u, api, id, proposer, power, voters);
      } else {
        votes := AllVoteNo(u, api, id, proposer, power, voters);
      }
    }
  }

  lemma FreshKnows(u: World, id: nat, proposer: Addr, power: Uint64)
    requires Fresh(u, id, proposer, power)
    ensures Inv(u) && Weighable(u.atStart)
    ensures id in u.contract.board.proposals && |u.atStart| == u.now.height + 1
    ensures var p := u.contract.board.proposals[id];
            && p.votes == Votes(power, 0, 0, 0) && p.proposer == proposer && p.startHeight == u.now.height
            && power <= p.totalWeight && BallotsOf(u.contract.board, id) == map[proposer := Ballot(power, Yes)]
  {
  }

  // ---------------------------------------------------------- or it cannot happen

  /** A tally that decides belongs to voters who can decide. */
  lemma DecidedMeans(t: Threshold, total: Uint64, v: Votes, power: nat)
    requires t.ThresholdQuorum? && Within(v, total) && power <= v.yes
    requires PassRule(t, total, v, false) == Ok(true) || RejectRule(t, total, v, false) == Ok(true)
    ensures Decide(t, total, power, v.Sum() - power)
  {
    hide VotesNeeded;
    var opinions := total - v.abstain;
    if PassRule(t, total, v, false) == Ok(true) {
      assert v.Sum() >= VotesNeeded(total, t.quorum) && v.yes >= VotesNeeded(opinions, t.threshold);
      hide PassRule, RejectRule;
      NeededGrowsSlowly(opinions, total, t.threshold);
    } else {
      assert v.no > VotesNeeded(opinions, ONE - t.threshold);
      hide PassRule, RejectRule;
      NeededGrowsSlowly(opinions, total, ONE - t.threshold);
    }
  }

  /** The tally is the weight of those who voted, by the snapshot. */
  lemma TallyOfVoters(v: World, id: nat) returns (voters: set<Addr>)
    requires Inv(v) && id in v.contract.board.proposals
    ensures var p := v.contract.board.proposals[id];
            && p.startHeight < |v.atStart| && p.proposer in BallotsOf(v.contract.board, id)
            && voters <= v.atStart[p.startHeight].Keys - {p.proposer}
            && p.votes.Sum() == BallotsOf(v.contract.board, id)[p.proposer].weight
                                + WeightLeft(v.atStart[p.startHeight], voters)
  {
    hide VerdictHolds, LogMatches, FromSnapshot, Tallied;
    var p := v.contract.board.proposals[id];
    var ballots := BallotsOf(v.contract.board, id);
    VotesSumIsWeight(p, ballots);
    voters := ballots.Keys - {p.proposer};
    WeightOfBallots(ballots, p.proposer, v.atStart[p.startHeight]);
  }

  lemma WeightOfBallots(ballots: Ballots, proposer: Addr, snapshot: Members)
    requires FromSnapshot(ballots, proposer, snapshot)
    ensures proposer in ballots && ballots.Keys - {proposer} <= snapshot.Keys
    ensures Sum(WeightsIn(ballots, EVERY_OPTION))
         == ballots[proposer].weight + WeightLeft(snapshot, ballots.Keys - {proposer})
  {
    var voters := ballots.Keys - {proposer};
    SumRemove(WeightsIn(ballots, EVERY_OPTION), proposer);
    forall a | a in ballots
      ensures ballots[a].vote in EVERY_OPTION
    {
      assert ballots[a].vote.Yes? || ballots[a].vote.No? || ballots[a].vote.Abstain? || ballots[a].vote.Veto?;
    }
    assert WeightsIn(ballots, EVERY_OPTION) - {proposer} == Weighed(snapshot, voters);
  }

  /** What stays of a proposal that cannot outgrow its total: within it, and undecided while
      votes are taken. */
  ghost predicate HeldBack(u: World, v: World, id: nat) {
    && Inv(v) && Forward(u.contract.board, v.contract.board) && u.atStart <= v.atStart
    && id in v.contract.board.proposals
    && var p := v.contract.board.proposals[id];
       p.votes.Sum() <= p.totalWeight && (p.status == Open || p.expires.IsExpired(v.now))
  }

  /** A world after the fresh one, seen from there. */
  lemma SinceFresh(u: World, v: World, id: nat, proposer: Addr, power: Uint64)
    requires Fresh(u, id, proposer, power) && Inv(v)
    requires Forward(u.contract.board, v.contract.board) && u.atStart <= v.atStart
    ensures id in v.contract.board.proposals
    ensures var p, q := u.contract.board.proposals[id], v.contract.board.proposals[id];
            && q == p.(votes := q.votes, status := q.status) && q.votes.yes >= power
            && proposer in BallotsOf(v.contract.board, id) && BallotsOf(v.contract.board, id)[proposer].weight == power
            && v.atStart[q.startHeight] == u.atStart[u.now.height]
  {
    hide Consistent, LogMatches, Snapshots, Weighable;
    var p, q := u.contract.board.proposals[id], v.contract.board.proposals[id];
    assert LaterVersion(p, q);
    assert p.votes.Of(Yes) <= q.votes.Of(Yes);
    assert proposer in BallotsOf(u.contract.board, id);
    assert id in u.contract.board.ballots;
  }

  /** No voters can take this proposal beyond its total. */
  ghost predicate NobodyCan(u: World, id: nat, proposer: Addr, power: Uint64) {
    && Fresh(u, id, proposer, power) && u.contract.board.proposals[id].threshold.ThresholdQuorum?
    && var p := u.contract.board.proposals[id];
       forall voters: set<Addr> | voters <= u.atStart[u.now.height].Keys - {proposer} ::
         !TakesBeyond(p.threshold, p.totalWeight, power, WeightLeft(u.atStart[u.now.height], voters))
  }

  lemma NobodyDecides(u: World, v: World, id: nat, proposer: Addr, power: Uint64)
    requires NobodyCan(u, id, proposer, power) && Inv(v)
    requires Forward(u.contract.board, v.contract.board) && u.atStart <= v.atStart
    ensures id in v.contract.board.proposals
    ensures var q := v.contract.board.proposals[id];
            q.votes.Sum() <= U64_MAX ==>
              && q.votes.Sum() <= q.totalWeight
              && PassRule(q.threshold, q.totalWeight, q.votes, false) != Ok(true)
              && RejectRule(q.threshold, q.totalWeight, q.votes, false) != Ok(true)
  {
    hide Inv, Forward, PassRule, RejectRule, Decide, VotesNeeded, Weighable;
    SinceFresh(u, v, id, proposer, power);
    var voters := TallyOfVoters(v, id);
    var q := v.contract.board.proposals[id];
    assert !TakesBeyond(q.threshold, q.totalWeight, power, WeightLeft(u.atStart[u.now.height], voters));
    if q.votes.Sum() <= U64_MAX
       && (PassRule(q.threshold, q.totalWeight, q.votes, false) == Ok(true)
           || RejectRule(q.threshold, q.totalWeight, q.votes, false) == Ok(true))
    {
      DecidedMeans(q.threshold, q.totalWeight, q.votes, power);
    }
  }

  /** Undecided and within the total, so still open where it was open. */
  lemma OpenOrExpired(p: Proposal, now: Block)
    requires Bounded(p) ==> VerdictHolds(p, now)
    requires TakesVotes(p.status) && Bounded(p)
    requires PassRule(p.threshold, p.totalWeight, p.votes, false) != Ok(true)
    requires RejectRule(p.threshold, p.totalWeight, p.votes, false) != Ok(true)
    ensures p.status == Open || p.expires.IsExpired(now)
  {
    hide PassRule, RejectRule;
  }

  lemma VerdictOf(v: World, id: nat)
    requires Inv(v) && id in v.contract.board.proposals
    ensures var p := v.contract.board.proposals[id]; Bounded(p) ==> VerdictHolds(p, v.now)
  {
    hide LogMatches, Snapshots, Tallied, VerdictHolds;
  }

  /** What a call does to the proposal of this id: nothing, or one more vote, or its end. */
  lemma CallOnProposal(v: World, sender: Addr, funds: seq<Coin>, msg: Msg, id: nat)
    requires Inv(v) && id in v.contract.board.proposals
    requires FlexHandle(v.contract, View(v), v.now, sender, funds, msg).Ok?
    ensures var p := v.contract.board.proposals[id];
            var c := FlexHandle(v.contract, View(v), v.now, sender, funds, msg).value.0.board;
            id in c.proposals
            && var q := c.proposals[id];
               || q == p
               || (Votable(v.contract.board, v.now, id) == Ok(p) && q == p.(votes := q.votes, status := q.status)
                   && CurrentStatus(p.(votes := q.votes), v.now) == Ok(q.status))
               || (q == p.(status := q.status)
                   && (p.expires.IsExpired(v.now) || CurrentStatus(p, v.now) == Ok(Passed)))
  {
    hide Consistent, LogMatches, Snapshots, Cw4Group.TotalIsSum, CurrentStatus, OpenProposal;
    var s := v.contract;
    match msg
    case Propose(msgs, latest) =>
      InvConsistent(v);
      var expires := ChooseExpiry(latest, s.config.maxVotingPeriod, v.now).value;
      OpenKeeps(s.board, v.now, FlexDraft(s, View(v), v.now, sender, v.group.members[sender], msgs, expires));
    case CastBallot(i, vote) =>
    case Execute(i) =>
    case Close(i) =>
    case MemberChangedHook(_) =>
  }

  lemma HeldBackStays(u: World, v: World, api: string -> bool, e: Event, id: nat, proposer: Addr, power: Uint64)
    requires NobodyCan(u, id, proposer, power) && HeldBack(u, v, id)
    ensures HeldBack(u, Apply(v, api, e), id)
  {
    hide Inv, Forward, FlexHandle, NobodyCan, Cw4Group.UpdateMembers;
    var n := Apply(v, api, e);
    ApplyKeeps(v, api, e);
    ApplyForward(v, api, e);
    ForwardTransitive(u.contract.board, v.contract.board, n.contract.board);
    if e.Call? && FlexHandle(v.contract, View(v), v.now, e.sender, e.funds, e.msg).Ok? {
      var p := v.contract.board.proposals[id];
      CallOnProposal(v, e.sender, e.funds, e.msg, id);
      NobodyDecides(u, n, id, proposer, power);
      var q := n.contract.board.proposals[id];
      VerdictOf(n, id);
      VerdictOf(v, id);
      if q != p && !p.expires.IsExpired(v.now) {
        ThresholdStays(u, v, id, proposer, power);
        OpenStaysOpen(p, q, v.now);
      }
    }
  }

  lemma ThresholdStays(u: World, v: World, id: nat, proposer: Addr, power: Uint64)
    requires NobodyCan(u, id, proposer, power) && HeldBack(u, v, id)
    ensures v.contract.board.proposals[id].threshold.ThresholdQuorum?
  {
    hide Inv, Forward, Weighable;
    SinceFresh(u, v, id, proposer, power);
  }

  lemma OpenStaysOpen(p: Proposal, q: Proposal, now: Block)
    requires p.status == Open && !p.expires.IsExpired(now) && p.threshold.ThresholdQuorum?
    requires Bounded(p) && VerdictHolds(p, now)
    requires q.votes.Sum() <= U64_MAX ==>
               && q.votes.Sum() <= q.totalWeight
               && PassRule(q.threshold, q.totalWeight, q.votes, false) != Ok(true)
               && RejectRule(q.threshold, q.totalWeight, q.votes, false) != Ok(true)
    requires || (&& q == p.(votes := q.votes, status := q.status)
                 && CurrentStatus(p.(votes := q.votes), now) == Ok(q.status))
             || (q == p.(status := q.status) && CurrentStatus(p, now) == Ok(Passed))
    ensures q.votes.Sum() <= q.totalWeight && q.status == Open
  {
    if q.status == Open || q == p.(votes := q.votes, status := q.status) {
      StatusTrapsExactly(p.(votes := q.votes), now);
    }
    hide PassRule, RejectRule;
  }

  lemma {:induction false} RunHeldBack(u: World, v: World, api: string -> bool, events: seq<Event>, id: nat,
                                       proposer: Addr, power: Uint64)
    requires NobodyCan(u, id, proposer, power) && HeldBack(u, v, id)
    ensures HeldBack(u, Run(v, api, events), id)
    decreases |events|
  {
    hide NobodyCan, HeldBack, Apply;
    if events != [] {
      HeldBackStays(u, v, api, events[0], id, proposer, power);
      RunHeldBack(u, Apply(v, api, events[0]), api, events[1..], id, proposer, power);
    }
  }

  lemma StartsHeldBack(u: World, id: nat, proposer: Addr, power: Uint64)
    requires NobodyCan(u, id, proposer, power)
    ensures HeldBack(u, u, id)
  {
    hide Inv, Forward, PassRule, RejectRule, Weighable, TakesBeyond;
    ForwardRefl(u.contract.board);
    NobodyDecides(u, u, id, proposer, power);
    VerdictOf(u, id);
    OpenOrExpired(u.contract.board.proposals[id], u.now);
  }

  ghost predicate MayOutgrow(u: World, id: nat, proposer: Addr, power: Uint64)
    requires id in u.contract.board.proposals && |u.atStart| == u.now.height + 1
  {
    var p := u.contract.board.proposals[id];
    && !p.expires.IsExpired(u.now)
    && CanOutgrow(p.threshold, p.totalWeight, proposer, power, u.atStart[u.now.height])
  }

  lemma StaysWithin(u: World, api: string -> bool, id: nat, proposer: Addr, power: Uint64, more: seq<Event>)
    requires Fresh(u, id, proposer, power)
    requires !MayOutgrow(u, id, proposer, power)
    ensures TallyOf(Run(u, api, more), id) <= u.contract.board.proposals[id].totalWeight
  {
    hide Run, Fresh, TakesBeyond, Forward, Inv;
    FreshKnows(u, id, proposer, power);
    var p := u.contract.board.proposals[id];
    if p.expires.IsExpired(u.now) {
      ExpiredTallyStays(u, api, more, id);
    } else if Potential(proposer, power, u.atStart[u.now.height]) <= p.totalWeight {
      TallyStaysWithin(u, api, more, id);
    } else {
      assert NobodyCan(u, id, proposer, power);
      StartsHeldBack(u, id, proposer, power);
      RunHeldBack(u, u, api, more, id, proposer, power);
      SinceFresh(u, Run(u, api, more), id, proposer, power);
    }
  }

  lemma TallyStaysWithin(u: World, api: string -> bool, more: seq<Event>, id: nat)
    requires Inv(u) && id in u.contract.board.proposals
    ensures TallyOf(Run(u, api, more), id) <= PotentialOf(u, id)
  {
    hide Inv, Run, Forward;
    RunKeeps(u, api, more);
    RunForward(u, api, more);
    SamePotential(u, Run(u, api, more), id);
    TallyWithinPotential(Run(u, api, more), id);
  }

  /** When the tally of a proposal can exceed the recorded total, over everything that can
      happen after it, told from the group and the configuration before it: exactly if its
      deadline is not over at once and `CanOutgrow` holds for its proposer. */
  lemma TallyBoundExact(genesis: World, api: string -> bool, events: seq<Event>, sender: Addr, funds: seq<Coin>,
                        msgs: seq<CosmosMsg>, latest: Option<Expiration>)
    requires Genesis(genesis)
    ensures var w := Run(genesis, api, events);
            && |w.atStart| == w.now.height + 1
            && (FlexPropose(w.contract, View(w), w.now, sender, funds, msgs, latest).Ok? ==>
                  var u := Apply(w, api, Call(sender, funds, Propose(msgs, latest)));
                  var id := u.contract.board.count;
                  var config := w.contract.config;
                  var deadline := ChooseExpiry(latest, config.maxVotingPeriod, w.now).value;
                  && id in u.contract.board.proposals && u.contract.board.proposals[id].totalWeight == w.group.total
                  && ((forall more: seq<Event> :: TallyOf(Run(u, api, more), id) <= w.group.total) <==>
                        || deadline.IsExpired(w.now)
                        || !CanOutgrow(config.threshold, w.group.total, sender, w.group.members[sender],
                                       w.atStart[w.now.height])))
  {
    hide Inv, Run, Apply, Weighable, TallyOf, CanOutgrow, Fresh;
    StartsWeighable(genesis);
    GenesisInv(genesis);
    RunKeeps(genesis, api, events);
    RunKeepsWeighable(genesis, api, events);
    var w := Run(genesis, api, events);
    InvLength(w);
    if FlexPropose(w.contract, View(w), w.now, sender, funds, msgs, latest).Ok? {
      var u := Apply(w, api, Call(sender, funds, Propose(msgs, latest)));
      var id := u.contract.board.count;
      JustProposed(w, api, sender, funds, msgs, latest);
      FreshKnows(u, id, sender, w.group.members[sender]);
      FreshTallyBound(u, api, id, sender, w.group.members[sender]);
    }
  }

  lemma FreshTallyBound(u: World, api: string -> bool, id: nat, proposer: Addr, power: Uint64)
    requires Fresh(u, id, proposer, power)
    ensures var p := u.contract.board.proposals[id];
            (forall more: seq<Event> :: TallyOf(Run(u, api, more), id) <= p.totalWeight) <==>
              !MayOutgrow(u, id, proposer, power)
  {
    hide Run, CanOutgrow;
    var p := u.contract.board.proposals[id];
    if !MayOutgrow(u, id, proposer, power) {
      forall more: seq<Event>
        ensures TallyOf(Run(u, api, more), id) <= p.totalWeight
      {
        StaysWithin(u, api, id, proposer, power, more);
      }
    } else {
      var _ := Outgrows(u, api, id, proposer, power);
    }
  }

  lemma StartsWeighable(genesis: World)
    requires Genesis(genesis)
    ensures Weighable(genesis.atStart)
  {
  }
}
