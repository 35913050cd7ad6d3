/** The storage of the bridge contract and its three balance updates
    (contracts/cw20-ics20/src/state.rs). */
module Ics20State {
  import opened Prelude
  import opened Ics20Denom

  datatype ChannelState = ChannelState(outstanding: Uint128, totalSent: Uint128)

  /** `CHANNEL_STATE` is indexed by (channel id, denomination). */
  datatype Key = Key(channel: string, denom: string)

  type Channels = map<Key, ChannelState>

  datatype Config = Config(defaultTimeout: Uint64, defaultGasLimit: Option<Uint64>)
  datatype AllowInfo = AllowInfo(gasLimit: Option<Uint64>)
  datatype ReplyArgs = ReplyArgs(channel: string, denom: string, amount: Uint128)

  datatype State = State(
    admin: Option<Addr>,
    config: Config,
    channelInfo: map<string, Endpoint>,
    channelState: Channels,
    allowList: map<Addr, AllowInfo>,
    replyArgs: Option<ReplyArgs>)

  function Outstanding(cs: Channels, key: Key): nat {
    if key in cs then cs[key].outstanding else 0
  }

  function Increase(cs: Channels, key: Key, amount: Uint128): Result<Channels> {
    var st := if key in cs then cs[key] else ChannelState(0, 0);
    var outstanding :- CheckedAdd128(st.outstanding, amount, Panic);
    var totalSent :- CheckedAdd128(st.totalSent, amount, Panic);
    Ok(cs[key := ChannelState(outstanding, totalSent)])
  }

  function Reduce(cs: Channels, key: Key, amount: Uint128): Result<Channels> {
    if key !in cs then Err(InsufficientFunds)
    else
      var outstanding :- CheckedSub(cs[key].outstanding, amount, InsufficientFunds);
      Ok(cs[key := cs[key].(outstanding := outstanding)])
  }

  function UndoReduce(cs: Channels, key: Key, amount: Uint128): Result<Channels> {
    var st := if key in cs then cs[key] else ChannelState(0, 0);
    var outstanding :- CheckedAdd128(st.outstanding, amount, Panic);
    Ok(cs[key := st.(outstanding := outstanding)])
  }

  /** `undo_reduce_channel_balance` exactly inverts a `reduce_channel_balance` that
      succeeded with the same arguments; in particular it never overflows. */
  lemma UndoInvertsReduce(cs: Channels, key: Key, amount: Uint128)
    ensures Reduce(cs, key, amount).Ok?
            ==> UndoReduce(Reduce(cs, key, amount).value, key, amount) == Ok(cs)
  {
    if Reduce(cs, key, amount).Ok? {
      var reduced := Reduce(cs, key, amount).value;
      assert reduced[key := reduced[key].(outstanding := reduced[key].outstanding + amount)] == cs;
    }
  }
}
