/** What the hooks of the staking contract hear: enough to know every member's weight. */
module Cw4StakeHooks {
  import opened Prelude
  import opened Cw4Stake
  import opened Cw4StakeTheorems
  import Cw4Group

  /** The diffs among some alerts that go to one hook. */
  function DiffsTo(hook: Addr, alerts: seq<Alert>): seq<Cw4Group.MemberDiff> {
    if alerts == [] then []
    else (if alerts[0].hook == hook then [alerts[0].diff] else []) + DiffsTo(hook, alerts[1..])
  }

  function Heard(w: World, api: string -> bool, e: Event, hook: Addr): seq<Cw4Group.MemberDiff> {
    if e.Tick? then []
    else
      match Handle(w.contract, api, w.now, e.sender, e.msg)
      case Err(_) => []
      case Ok((_, answer)) => DiffsTo(hook, answer.alerts)
  }

  function HeardOver(w: World, api: string -> bool, events: seq<Event>, hook: Addr): seq<Cw4Group.MemberDiff>
    decreases |events|
  {
    if events == [] then []
    else Heard(w, api, events[0], hook) + HeardOver(Apply(w, api, events[0]), api, events[1..], hook)
  }

  /** The hook is registered whenever something happens. */
  predicate Listens(w: World, api: string -> bool, events: seq<Event>, hook: Addr)
    decreases |events|
  {
    events == []
    || (hook in w.contract.hooks && Listens(Apply(w, api, events[0]), api, events[1..], hook))
  }

  // ------------------------------------------------------------ the hook list

  predicate NoRepeats(hooks: seq<Addr>) {
    forall i, j | 0 <= i < j < |hooks| :: hooks[i] != hooks[j]
  }

  lemma {:induction false} WithoutIsSplice(hooks: seq<Addr>, hook: Addr) returns (i: nat)
    requires hook in hooks
    ensures i < |hooks| && hooks[i] == hook && Without(hooks, hook) == hooks[..i] + hooks[i + 1..]
  {
    if hooks[0] == hook {
      i := 0;
    } else {
      var k := WithoutIsSplice(hooks[1..], hook);
      i := k + 1;
      assert hooks[..i] == [hooks[0]] + hooks[1..][..k];
    }
  }

  /** No call of any kind registers a hook twice; only the admin changes the list at all. */
  lemma HooksKept(s: State, api: string -> bool, block: Block, sender: Addr, msg: Msg)
    requires NoRepeats(s.hooks)
    ensures var r := Handle(s, api, block, sender, msg);
            r.Ok? ==> NoRepeats(r.value.0.hooks) && (r.value.0.hooks != s.hooks ==> s.admin == Some(sender))
  {
    hide CalcWeight, Payment, TotalOf, Due, Alerts;
    if msg.RemoveHook? && msg.addr in s.hooks {
      var _ := WithoutIsSplice(s.hooks, msg.addr);
    }
  }

  lemma {:induction false} RunHooks(w: World, api: string -> bool, events: seq<Event>)
    requires NoRepeats(w.contract.hooks)
    ensures NoRepeats(Run(w, api, events).contract.hooks)
    decreases |events|
  {
    hide NoRepeats, Handle;
    if events != [] {
      if events[0].Call? {
        HooksKept(w.contract, api, w.now, events[0].sender, events[0].msg);
      }
      RunHooks(Apply(w, api, events[0]), api, events[1..]);
    }
  }

  // ------------------------------------------------------------------ replays

  lemma {:induction false} ReplayAppend(start: Cw4Group.Members, a: seq<Cw4Group.MemberDiff>,
                                        b: seq<Cw4Group.MemberDiff>)
    ensures Cw4Group.Replay(start, a + b) == Cw4Group.Replay(Cw4Group.Replay(start, a), b)
    decreases |b|
  {
    if b == [] {
      assert a + b == a;
    } else {
      var n := |b| - 1;
      assert (a + b)[..|a + b| - 1] == a + b[..n];
      ReplayAppend(start, a, b[..n]);
    }
  }

  lemma TellsAppend(start: Cw4Group.Members, a: seq<Cw4Group.MemberDiff>, middle: Cw4Group.Members,
                    b: seq<Cw4Group.MemberDiff>, members: Cw4Group.Members)
    requires Cw4Group.Tells(start, a, middle) && Cw4Group.Tells(middle, b, members)
    ensures Cw4Group.Tells(start, a + b, members)
  {
    hide Cw4Group.Replay;
    ReplayAppend(start, a, b);
    forall i | 0 <= i < |a + b|
      ensures (a + b)[i].before == Cw4Group.Lookup(Cw4Group.Replay(start, (a + b)[..i]), (a + b)[i].key)
    {
      if i < |a| {
        assert (a + b)[..i] == a[..i];
      } else {
        assert (a + b)[..i] == a + b[..i - |a|];
        ReplayAppend(start, a, b[..i - |a|]);
      }
    }
  }

  lemma {:induction false} DiffsPrepared(hooks: seq<Addr>, diff: Cw4Group.MemberDiff, hook: Addr)
    requires NoRepeats(hooks)
    ensures DiffsTo(hook, PrepareHooks(hooks, diff)) == if hook in hooks then [diff] else []
  {
    if hooks != [] {
      DiffsPrepared(hooks[1..], diff, hook);
      var rest := PrepareHooks(hooks[1..], diff);
      assert ([Alert(hooks[0], diff)] + rest)[1..] == rest;
      assert hooks == [hooks[0]] + hooks[1..];
    }
  }

  lemma OneTold(members: Cw4Group.Members, diff: Cw4Group.MemberDiff)
    requires diff.before == Cw4Group.Lookup(members, diff.key)
    ensures Cw4Group.Tells(members, [diff], Cw4Group.Step(members, diff))
  {
    assert [] + [diff] == [diff];
    NothingTold(members);
    Cw4Group.TellsOneMore(members, [], members, diff);
  }

  lemma NothingTold(members: Cw4Group.Members)
    ensures Cw4Group.Tells(members, [], members)
  {
  }

  /** An update of a membership touches no other member. */
  lemma MembershipShape(s: State, sender: Addr, newStake: Uint128)
    requires UpdateMembership(s, sender, newStake).Ok?
    ensures var t := UpdateMembership(s, sender, newStake).value;
            t.members == match Cw4Group.Lookup(t.members, sender)
                         case Some(w) => s.members[sender := w]
                         case None => s.members - {sender}
  {
    hide CalcWeight;
  }

  /** A changed weight is told by one diff. */
  lemma MembershipTold(s: State, u: State, sender: Addr, newStake: Uint128, hook: Addr)
    requires NoRepeats(s.hooks) && hook in s.hooks && u.members == s.members && u.hooks == s.hooks
    requires UpdateMembership(u, sender, newStake).Ok?
    ensures var t := UpdateMembership(u, sender, newStake).value;
            Cw4Group.Tells(s.members, DiffsTo(hook, Alerts(s, t, sender)), t.members)
  {
    hide UpdateMembership, NoRepeats, Cw4Group.Tells;
    var t := UpdateMembership(u, sender, newStake).value;
    MembershipShape(u, sender, newStake);
    var before, after := Cw4Group.Lookup(s.members, sender), Cw4Group.Lookup(t.members, sender);
    if before == after {
      assert t.members == s.members;
      NothingTold(s.members);
    } else {
      var diff := Cw4Group.MemberDiff(sender, before, after);
      DiffsPrepared(s.hooks, diff, hook);
      OneTold(s.members, diff);
    }
  }

  lemma StepTold(w: World, api: string -> bool, e: Event, hook: Addr)
    requires NoRepeats(w.contract.hooks) && hook in w.contract.hooks
    ensures Cw4Group.Tells(w.contract.members, Heard(w, api, e, hook), Apply(w, api, e).contract.members)
  {
    hide NoRepeats, Handle, Cw4Group.Tells;
    NothingTold(w.contract.members);
    if e.Call? && Handle(w.contract, api, w.now, e.sender, e.msg).Ok? {
      CallTold(w.contract, api, w.now, e.sender, e.msg, hook);
    }
  }

  lemma CallTold(s: State, api: string -> bool, block: Block, sender: Addr, msg: Msg, hook: Addr)
    requires NoRepeats(s.hooks) && hook in s.hooks && Handle(s, api, block, sender, msg).Ok?
    ensures var (t, answer) := Handle(s, api, block, sender, msg).value;
            Cw4Group.Tells(s.members, DiffsTo(hook, answer.alerts), t.members)
  {
    hide NoRepeats, Payment, TotalOf, Due, Alerts, UpdateMembership, Cw4Group.Tells, MaybeAddr, Without;
    match msg
    case Bond(funds) =>
      var newStake := StakeOf(s, sender) + Payment(s.config, funds).value;
      MembershipTold(s, s.(stake := s.stake[sender := newStake]), sender, newStake, hook);
    case Unbond(amount) =>
      var newStake := StakeOf(s, sender) - amount;
      var claim := Claim(amount, s.config.unbondingPeriod.After(block).value);
      MembershipTold(s, s.(stake := s.stake[sender := newStake],
                           claims := s.claims[sender := ClaimsOf(s, sender) + [claim]]), sender, newStake, hook);
    case _ => NothingTold(s.members);
  }

  lemma {:induction false} RunTold(w: World, api: string -> bool, events: seq<Event>, hook: Addr)
    requires NoRepeats(w.contract.hooks) && Listens(w, api, events, hook)
    ensures Cw4Group.Tells(w.contract.members, HeardOver(w, api, events, hook), Run(w, api, events).contract.members)
    decreases |events|
  {
    hide NoRepeats, Apply, Heard, Cw4Group.Tells;
    if events == [] {
      NothingTold(w.contract.members);
    } else {
      var v := Apply(w, api, events[0]);
      StepTold(w, api, events[0], hook);
      RunHooks(w, api, [events[0]]);
      assert [events[0]][1..] == [];
      assert Run(w, api, [events[0]]) == v;
      RunTold(v, api, events[1..], hook);
      TellsAppend(w.contract.members, Heard(w, api, events[0], hook), v.contract.members,
                  HeardOver(v, api, events[1..], hook), Run(v, api, events[1..]).contract.members);
    }
  }

  /** A contract that listens as a hook over any part of any run knows all weights from the
      diffs that it hears: replayed in order on the members at the start they give the
      members at the end, and each names the weight that it replaces. */
  lemma HookKnowsMembers(genesis: World, api: string -> bool, events: seq<Event>, more: seq<Event>, hook: Addr)
    requires Genesis(genesis, api)
    ensures var w := Run(genesis, api, events);
            Listens(w, api, more, hook) ==>
              Cw4Group.Tells(w.contract.members, HeardOver(w, api, more, hook), Run(w, api, more).contract.members)
  {
    hide Run, Listens, HeardOver, Cw4Group.Tells;
    RunHooks(genesis, api, events);
    if Listens(Run(genesis, api, events), api, more, hook) {
      RunTold(Run(genesis, api, events), api, more, hook);
    }
  }
}
