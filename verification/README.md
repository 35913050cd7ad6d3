# CosmWasm Plus, modelled and proved in Dafny

A model of the contracts of the CosmWasm Plus suite that keep other people's value or votes, with
proofs of what they promise over whole runs.

| part | files | what is modelled |
|---|---|---|
| platform | `Prelude`, `Sums`, `Sorting` | addresses, overflowing integers, blocks, deadlines, errors; sums over maps; string order and sorting |
| ICS-20 bridge (`cw20-ics20`) | `Ics20Denom`, `Ics20State`, `Ics20Ibc`, `Ics20Contract`, `Ics20World`, `Ics20Safety`, `Ics20Theorems`, `Ics20Holdings`, `Ics20Calls` | the escrow contract, remote chains, lying tokens, packets and acknowledgements in flight, payouts with nested calls |
| voting (`cw3`) | `Cw3Rounding`, `Cw3Proposal`, `Cw3Board`, `Cw3History`, `Cw3Meaning`, `Cw3Fixed`, `Cw3FixedTheorems`, `Cw3FixedCalls`, `Cw3FixedExamples`, `Cw3Flex`, `Cw3FlexTheorems`, `Cw3FlexTraps`, `Cw3FlexTurnout`, `Cw3FlexCalls`, `Cw3FlexExamples` | the threshold rule and its rounding, proposals and ballots, both multisigs, the flex one with a group that changes under it |
| groups (`cw4`) | `Cw4Group`, `Cw4Stake`, `Cw4StakeTheorems`, `Cw4StakeHooks`, `Cw4StakeCalls`, `Cw4StakeExamples` | the member list with its total, and membership derived from staked tokens, with its hooks |
| ledgers (`cw20-base`, `cw1-subkeys`) | `Cw20Base`, `Cw20Theorems`, `Cw20Listings`, `Cw20Calls`, `Cw1Coins`, `Cw1Subkeys`, `Cw1Theorems`, `Cw1Calls`, `Paging` | balances, supply, allowances and their mirror, subkey spending, paginated queries |

Every contract is a class whose fields are its storage items. Its methods update them step by step, in
the order of the source, and each is proved to have exactly the effect of a handler function on values:
same new state, same messages sent out, same error in the same case. The theorems are about those
functions: a `World` puts the contract among users, clocks, other contracts and a ledger, an `Event` is
anything that can happen next, and a result about `Run(world, events)` holds for every sequence of events.
The `CallExactly` theorems say independently of the handlers, in terms of the stored fields, when each call
goes through (`Accepts`) and what it then changes and sends out (`Done`).

## Assumptions

- A handler that fails or traps changes nothing; the `Execute` and `Call` methods restore the storage, as
  the chain does. Overflow traps (`overflow-checks = true`), and is the error `Panic`. The exception is
  modelled too: `ibc_packet_receive` turns its errors into acknowledgements, and its writes stay.
- Addresses: a parameter `api` says which strings the chain accepts; an accepted string is its own address.
- Neither block height nor time goes back. Heights, times in nanoseconds, and durations have 64 bits, and
  adding to them traps on overflow.
- Percentages are integers over 10^18 and at most one. Of `Threshold::validate`, which is in cw-utils, the
  model fixes that nothing is zero and that a count is within the total; a parameter `limits` stands for
  whatever else it asks of percentages, and every result holds for any `limits`.
- The members of a group at a height are those with which the block began.
- The bank's denominations do not begin with `cw20:`. A cw20 token may be honest, and then a transfer moves
  what it says; or it is one of `liars`, any set of contracts, which report deposits that nobody made, succeed
  without moving anything, and rewrite their own balances as they like.
- IBC delivers each packet and one outcome for it once. A payout and its reply are one atomic step; if the
  payout fails, everything nested in it is taken back.
- What cw-storage-plus, cw-utils, cw-controllers and the standard library do is written as small functions
  (maps, claim lists, deadlines, coin lists, sorting). Splitting a voucher in three at its first two slashes
  is splitting it twice in two.
- Sender, attached funds, block and the answers of other contracts are parameters of a call.

## What was found

- Swallowed errors. In an arbitrary state a receive that ends in an error acknowledgement can leave the
  channel balance lowered; `SwallowedErrorLosesExactly` says exactly when. No run reaches such a state,
  because the allow list and the default gas limit only grow: `ErrorAckChangesNothing`.
- `votes_needed` is documented as rounding up; it is the true ceiling or one less, and
  `NeededIsCeilingOrOneLess` says exactly when it is one less.
- A refund whose payout fails stays with the bridge, owed to nobody: `UnpaidRefundStays` is such a run, and
  `HoldingsExactly` accounts for all of it. A token that lies harms nobody but its own holders:
  `AlwaysSolvent`, and `LyingTokenIsUnbacked` for the exception.
- In the flex multisig a group update before a proposal in the same block lets the tally exceed the recorded
  total: `UpdateBeforeProposalOutgrows` is such a run, with a tally of 6 against a total of 1.
  `TallyBoundExact` says exactly when it can happen, over everything that may follow a proposal, in terms of
  the group and the configuration before it (`CanOutgrow`), and `AbstentionTrapsExactly` what it means for
  those who want to abstain.
- `total_weight - weight_needed` in `is_rejected` traps when a group has become smaller than an absolute
  count. That stops proposals (`ShrunkenGroupCannotPropose`), and nothing else: `FlexTrapsExactly` says which
  calls trap, and that no stored proposal has a count out of reach.
- `max_voting_period` has no bound: if 64 bits cannot hold the deadline it leads to, every proposal traps,
  also one that names an earlier deadline (`Cw3FixedTheorems.TrapsExactly`, `FlexTrapsExactly`);
  `NoProposalAfterOneBlock` is a run that ends so.
- Unbonding adds the new weight to the total before it takes the old one off, and so can trap although the
  total would fall; and it traps where 64 bits cannot hold the deadline: `StakeTrapsExactly`. After the run of
  `UnbondingLocked` a stake cannot be taken back. The group adds before it removes, and so refuses updates whose
  result would fit: `UpdateMembersExactly`, with `ReplacementOverflows` as an instance.
- The cast of a staked weight to 64 bits wraps around, so that more stake can weigh less:
  `WeightIsQuotientExactly` and `WeightsMonotoneExactly` say when it does not.
- The fixed multisig counts a voter listed twice twice: `TotalCoversVoters` says exactly when the recorded
  total is the weight of the stored voters.
- A proposal rejected by votes can never be closed, so its deposit stays for good, even if it asks for refunds
  of failures: `RejectedRefundExactly` says exactly when a deposit comes back, `DecisionsExactly` when closing
  and executing go through, and `RefundableDepositLost` is a run that loses one.

## Model

| member | source | states |
|---|---|---|
| Ics20Theorems.TwoChainConservation | contracts/cw20-ics20/src/ibc.rs:197-374 | in every run, if the remote chain of a channel mints and burns as ICS-20 says, each balance of that channel is the remote vouchers plus the unresolved transfers of both directions, whatever the chains behind other channels do |
| Ics20Theorems.AlwaysSolvent | contracts/cw20-ics20/src/state.rs:59-110 | in every run, with any remote chain and any set of lying token contracts, the bridge really holds at least the outstanding sum of all channels for each denomination of any other token, and outstanding never exceeds total sent |
| Ics20Holdings.HoldingsExactly | contracts/cw20-ics20/src/ibc.rs:93-374 | in every run, for each denomination whose token does not lie, the holdings of the bridge are exactly the outstanding sum of all channels, what it held at first, what it was given without a transfer, and the refunds that failed |
| Ics20Holdings.UnpaidRefundStays | contracts/cw20-ics20/src/ibc.rs:93-127 | a run in which a transfer times out and its refund fails: the bridge keeps the coins, and no channel has a claim on them |
| Ics20Holdings.LyingTokenIsUnbacked | contracts/cw20-ics20/src/contract.rs:80-95 | once there is a default gas limit, any contract that reports a deposit without moving anything raises a balance that nothing backs |
| Ics20Theorems.ErrorAckChangesNothing | contracts/cw20-ics20/src/ibc.rs:93-213 | any packet at any point of any run: the receive transaction goes through, and if it is answered with an error, swallowed or from the reply, nothing but the reply arguments has changed |
| Ics20Theorems.RedemptionNeverRefused | contracts/cw20-ics20/src/ibc.rs:241-279 | a returning voucher in flight, on a channel with an honest remote chain, is answered with success exactly if its payout succeeds, no slash blurs the remote endpoint, and its amount is positive or the balance entry exists; it is never refused for want of funds |
| Ics20Theorems.RedemptionPaysReceiver | contracts/cw20-ics20/src/ibc.rs:241-279 | on such a channel the redemption moves exactly the flight's amount of its token to its receiver, if the token does not lie |
| Ics20Theorems.RefundNeverRefused | contracts/cw20-ics20/src/ibc.rs:301-374 | on such a channel an error acknowledgement or timeout of any pending transfer is always processed, whatever the refund payout does, and takes exactly its amount off the balance against its backing |
| Ics20Theorems.RefundPaysSender | contracts/cw20-ics20/src/ibc.rs:346-374 | on such a channel the refund moves exactly the amount of the transfer back to the user who sent it, and the bridge has it, if the token does not lie |
| Ics20Theorems.SwallowedErrorLosesExactly | contracts/cw20-ics20/src/ibc.rs:197-297 | for an arbitrary state: an error acknowledgement leaves a changed channel balance if and only if a positive, covered amount is claimed of a denomination that fails the gas limit check |
| Ics20Theorems.SwallowedErrorExample | contracts/cw20-ics20/src/ibc.rs:197-297 | such a state and packet: the balance of any cw20 token off the allow list drops to zero under an error acknowledgement |
| Ics20Safety.ReceiveTxKeeps | contracts/cw20-ics20/src/ibc.rs:93-297 | a received packet in a sound, solvent world, from anybody: success exactly if it claims what the channel holds and is paid; exactly the claimed amount leaves the claimed balance against its backing; soundness, solvency and older flights stay |
| Ics20Safety.FailureTxKeeps | contracts/cw20-ics20/src/ibc.rs:301-374 | error acknowledgements and timeouts of a sent packet: processed exactly if the channel still holds the amount; then exactly that leaves the balance, refund paid or not; soundness, solvency and older flights stay |
| Ics20Safety.HonestStepKeepsGap | contracts/cw20-ics20/src/ibc.rs:197-374 | no step that is honest on its channel, and no step at all on another one, opens a gap between a channel balance and its backing |
| Ics20Safety.ApplyKeepsSolvent | contracts/cw20-ics20/src/contract.rs:80-204 | every step, honest or forged, keeps the state sound (every stored denomination payable) and the bridge solvent |
| Ics20Safety.ApplyLocalKeeps | contracts/cw20-ics20/src/contract.rs:80-204 | anything users can do locally, also inside a payout, only adds flights and deposits: no gap changes, no holdings above the claims shrink |
| Ics20Safety.AllowKeepsPayable | contracts/cw20-ics20/src/contract.rs:167-204 | allowing a token never makes a denomination unpayable |
| Ics20Safety.AcceptedIsPayable | contracts/cw20-ics20/src/contract.rs:113-122 | what the bridge accepts for transfer can be paid out again under the gas limit check |
| Ics20Safety.ReturnClaimsItsKey | contracts/cw20-ics20/src/ibc.rs:217-238 | a voucher of a denomination claims the balance of just that denomination, if its endpoint has no slash |
| Ics20State.UndoInvertsReduce | contracts/cw20-ics20/src/state.rs:74-110 | undo with the same arguments restores the balances exactly, and never overflows |
| Ics20Denom.DenomOfFromParts | contracts/cw20-ics20/src/amount.rs:16-53 | reading any stored denomination back loses nothing |
| Ics20Denom.FromPartsOfDenom | contracts/cw20-ics20/src/amount.rs:16-53 | writing an amount and reading it back is the identity exactly unless it is a coin named like a cw20 token |
| Ics20Denom.TokenOfInjective | contracts/cw20-ics20/src/amount.rs:16-46 | two denominations name the same token exactly if they are equal |
| Ics20Denom.ParseVoucherExactly | contracts/cw20-ics20/src/ibc.rs:217-238 | a voucher is accepted as a denomination if and only if it is the remote endpoint's name for it and the endpoint has no slash |
| Ics20Contract.Bridge.Setup | contracts/cw20-ics20/src/contract.rs:32-57 | a new bridge: configuration, validated admin and initial allow list, or an error |
| Ics20Contract.Bridge.AddAllows | contracts/cw20-ics20/src/contract.rs:48-55 | the loop that stores the initial allow list, later entries winning |
| Ics20Contract.Bridge.IncreaseChannelBalance | contracts/cw20-ics20/src/state.rs:59-72 | both counters of the entry go up by the amount, or a trap; nothing else changes |
| Ics20Contract.Bridge.ReduceChannelBalance | contracts/cw20-ics20/src/state.rs:74-94 | outstanding goes down by the amount, or insufficient funds and no change |
| Ics20Contract.Bridge.UndoReduceChannelBalance | contracts/cw20-ics20/src/state.rs:98-110 | outstanding goes up again, total sent stays |
| Ics20Contract.Bridge.DoTransfer | contracts/cw20-ics20/src/contract.rs:97-163 | the whole effect of a transfer: the packet sent, the balance raised, or the error of the first check that fails |
| Ics20Contract.Bridge.DoReceive | contracts/cw20-ics20/src/contract.rs:80-95 | the same for tokens handed over by a cw20 contract |
| Ics20Contract.Bridge.DoAllow | contracts/cw20-ics20/src/contract.rs:167-204 | the allow list after the admin's call; gas limits are never lowered |
| Ics20Contract.Bridge.Execute | contracts/cw20-ics20/src/contract.rs:60-78 | a call as the chain runs it: new state and packet, or an error and no change |
| Ics20Contract.Bridge.DoMigrate | contracts/cw20-ics20/src/contract.rs:252-261 | a default gas limit can be set, never unset |
| Ics20Contract.Bridge.DoIbcReceive | contracts/cw20-ics20/src/ibc.rs:241-279 | the writes of a receive, also those that stay on an error |
| Ics20Contract.Bridge.IbcReceive | contracts/cw20-ics20/src/ibc.rs:197-213 | every error becomes an error acknowledgement with no payout |
| Ics20Contract.Bridge.PacketFailure | contracts/cw20-ics20/src/ibc.rs:346-374 | the refund of a transfer: balance lowered, payout to its sender, or an error and no change |
| Ics20Contract.Bridge.HandleReply | contracts/cw20-ics20/src/ibc.rs:93-127 | a failed payout is undone from the stored arguments and answered with an error; other replies change nothing |
| Ics20Contract.Bridge.ReceiveAndFailPayout | contracts/cw20-ics20/src/ibc.rs:93-279 | a receive whose payout fails restores every channel balance and ends in an error acknowledgement, from any state |
| Ics20Calls.TransferExactly | contracts/cw20-ics20/src/contract.rs:97-163 | a transfer goes through if and only if the amount is positive and fits 64 bits, the channel is known, a contract is well formed and on the allow list or under a default limit, 64 bits hold the deadline and 128 bits both counters; its packet then goes to the channel asked for, with the call's amount, denomination, both ends and memo, and expires the caller's or the default seconds from now |
| Ics20Calls.CallExactly | contracts/cw20-ics20/src/contract.rs:60-204 | every call, exactly when it goes through and what it leaves: also that only the admin allows tokens and hands on the administration, and that no gas limit is ever lowered or set where there was none |
| Ics20Calls.ReceiptPaysExactly | contracts/cw20-ics20/src/ibc.rs:241-297 | a receive sends out nothing but one payout to the packet's receiver, of its amount of the token that its denomination names, under the gas limit of that token's own setting or else the default |
| Ics20Calls.RefundPaysExactly | contracts/cw20-ics20/src/ibc.rs:346-374 | so does a refund, to the packet's sender |
| Ics20Calls.ReplyExactly | contracts/cw20-ics20/src/ibc.rs:93-127 | a payout that succeeded changes nothing; a refund that failed is answered with an error; a receipt that failed also gives its amount back to its balance; other replies are refused |
| Ics20Calls.InstantiateExactly | contracts/cw20-ics20/src/contract.rs:32-57 | when a bridge can be made, and its admin, configuration and allow list: for each contract its last listing, and no other contract |
| Ics20Calls.MigrateExactly | contracts/cw20-ics20/src/contract.rs:252-261 | a migration sets the default gas limit that it names and changes nothing else |
| Cw3Rounding.VotesNeeded | packages/cw3/src/proposal.rs:160-164 | never more than the weight, so the cast to 64 bits never truncates; the types say that no step overflows 128 bits |
| Cw3Rounding.NeededMonotone | packages/cw3/src/proposal.rs:160-164 | monotone in weight and in percentage |
| Cw3Rounding.NeededGrowsSlowly | packages/cw3/src/proposal.rs:160-164 | one more unit of weight needs at most one more vote |
| Cw3Rounding.NeededIsCeilingOrOneLess | packages/cw3/src/proposal.rs:158-164 | the exact ceiling or one less; one less if and only if a positive fraction below the ninth digit is lost |
| Cw3Rounding.OneVoteShort | packages/cw3/src/proposal.rs:158-164 | it is one less for a weight of 2 and a percentage of a half and a part in 10^18 |
| Cw3Rounding.NeededExactForNineDecimals | packages/cw3/src/proposal.rs:158-164 | the exact ceiling for percentages of at most nine decimals |
| Cw3Rounding.NeededComplement | packages/cw3/src/proposal.rs:158-164 | a percentage and its complement need the weight together, or one more |
| Cw3Proposal.EarlyPassExact | packages/cw3/src/proposal.rs:55-84 | before expiry a proposal passes if and only if every tally that can still come about passes under the rule after expiry, for all three kinds of threshold |
| Cw3Proposal.EarlyPassStays | packages/cw3/src/proposal.rs:55-84 | an early pass is not taken back by any later votes, before or after expiry |
| Cw3Proposal.EarlyRejectSound | packages/cw3/src/proposal.rs:86-120 | after an early rejection no tally that can still come about passes, before or after expiry |
| Cw3Proposal.EarlyRejectStays | packages/cw3/src/proposal.rs:86-120 | an early rejection is not taken back by later votes |
| Cw3Proposal.NeverPassedAndRejected | packages/cw3/src/proposal.rs:35-47 | the two verdicts never hold together, so the order of the checks does not matter |
| Cw3Proposal.BestCaseIsRestYes | packages/cw3/src/proposal.rs:55-84 | some reachable tally passes if and only if all remaining weight voting yes passes |
| Cw3Proposal.UnrejectedIsWithinOne | packages/cw3/src/proposal.rs:86-120 | without vetoes, if all the rest votes yes: an unrejected percentage proposal, with or without a quorum, is within one vote of its threshold, and one with a count within its abstentions |
| Cw3Proposal.RulesDefined | packages/cw3/src/proposal.rs:57-120 | within the recorded total nothing in the two rules traps, but for an absolute count above the total |
| Cw3Proposal.StatusTrapsExactly | packages/cw3/src/proposal.rs:35-120 | exactly when the status of any proposal traps, with any tally: open, and a count that neither total nor yes votes reach, more abstentions than the total, or a tally beyond 64 bits under a quorum |
| Cw3Board.OpenKeeps | contracts/cw3-fixed-multisig/src/contract.rs:101-127 | a proposal gets an id that no proposal or ballot has, and its proposer's yes is tallied; all invariants stay |
| Cw3Board.CastVoteKeeps | contracts/cw3-fixed-multisig/src/contract.rs:136-180 | one new ballot of a new voter, tallied with its weight; decided proposals stay decided; all invariants stay |
| Cw3Board.ExecuteKeeps | contracts/cw3-fixed-multisig/src/contract.rs:182-208 | only an open or passed proposal is executed, and keeps a right verdict |
| Cw3Board.CloseKeeps | contracts/cw3-fixed-multisig/src/contract.rs:210-238 | only an undecided proposal is closed, and keeps a right verdict |
| Cw3Board.VotesSumIsWeight | packages/cw3/src/proposal.rs:123-156 | the tally is the weight of all ballots |
| Cw3Board.VerdictMeaning | packages/cw3/src/proposal.rs:35-53 | what a stored status says at any later block, for the stored and for every further tally |
| Cw3Meaning.PassedExactly | packages/cw3/src/proposal.rs:55-84 | `is_passed` is true if and only if the yes ballots weigh what is asked for: the count, or the needed share of the weight that did not abstain, and under a quorum also all ballots the needed share of the total, with only the weight that took part counted after expiry |
| Cw3Meaning.StatusExactly | packages/cw3/src/proposal.rs:35-120 | where it does not trap, `current_status` is passed, rejected or open just as the ballots for yes, for no and for abstention say, by their weights |
| Cw3Meaning.NoAndVetoAlike | packages/cw3/src/proposal.rs:55-84 | two tallies with the same yes, abstentions and sum pass alike |
| Cw3Meaning.ExpiryExactly | contracts/cw3-fixed-multisig/src/contract.rs:92-102 | a deadline is accepted if and only if 64 bits hold the end of the voting period and it is of the same kind; it becomes the earlier one of the two |
| Cw3Meaning.OverAfterPeriod | contracts/cw3-fixed-multisig/src/contract.rs:92-102 | when the voting period has passed, the deadline is over, whatever was asked for |
| Cw3Meaning.OpensExactly | contracts/cw3-fixed-multisig/src/contract.rs:101-127 | a proposal is stored, where its status can be told, if and only if there is an id left: a new one, with the yes ballot of its proposer and the status that this ballot gives it |
| Cw3Meaning.RecordsExactly | contracts/cw3-fixed-multisig/src/contract.rs:136-180 | a vote adds one ballot, raises just the tally of its option by its weight, and gives an open proposal the status of its ballots |
| Cw3Meaning.ExecutesExactly | contracts/cw3-fixed-multisig/src/contract.rs:182-208 | execution if and only if stored as passed, or open and carried by its ballots; only the status changes |
| Cw3Meaning.ClosesExactly | contracts/cw3-fixed-multisig/src/contract.rs:210-238 | closing if and only if open, over, not trapping and not carried; only the status changes |
| Cw3History.LogExecuted | contracts/cw3-flex-multisig/src/contract.rs:216-251 | the log of messages and refunds stays without repetition when a proposal is executed |
| Cw3History.LogClosed | contracts/cw3-flex-multisig/src/contract.rs:253-289 | the same when one is closed, with a refund only where the deposit says so |
| Cw3History.CastVoteForward | contracts/cw3-fixed-multisig/src/contract.rs:136-180 | a vote changes nothing of what was proposed, no other ballot, and no final status |
| Cw3Fixed.FixedMultisig.Setup | contracts/cw3-fixed-multisig/src/contract.rs:27-55 | total, voters and configuration after the two passes over the list, or the first error |
| Cw3Fixed.FixedMultisig.AddVoters | contracts/cw3-fixed-multisig/src/contract.rs:49-53 | the loop that stores the voters, later entries winning |
| Cw3Fixed.AddWeights | contracts/cw3-fixed-multisig/src/contract.rs:36 | the sum of the listed weights |
| Cw3Fixed.FixedMultisig.NextId | contracts/cw3-fixed-multisig/src/state.rs:26-30 | ids count up, and trap at the end of 64 bits |
| Cw3Fixed.FixedMultisig.DoPropose | contracts/cw3-fixed-multisig/src/contract.rs:77-134 | the whole effect of a proposal, with its deadline capped, or trapping where 64 bits cannot hold the cap, and its first ballot |
| Cw3Fixed.FixedMultisig.DoVote | contracts/cw3-fixed-multisig/src/contract.rs:136-180 | the whole effect of a vote, errors in the source's order |
| Cw3Fixed.FixedMultisig.DoExecute | contracts/cw3-fixed-multisig/src/contract.rs:182-208 | the whole effect of an execution, and the messages dispatched |
| Cw3Fixed.FixedMultisig.DoClose | contracts/cw3-fixed-multisig/src/contract.rs:210-238 | the whole effect of closing |
| Cw3Fixed.FixedMultisig.Call | contracts/cw3-fixed-multisig/src/contract.rs:58-75 | a call as the chain runs it: new state and messages, or an error and no change |
| Cw3FixedTheorems.TotalCoversVoters | contracts/cw3-fixed-multisig/src/contract.rs:36-53 | the recorded total is at least the stored voters' weight, and equal if and only if no listed weight was replaced by a duplicate |
| Cw3FixedTheorems.TalliesAreBounded | contracts/cw3-fixed-multisig/src/contract.rs:136-180 | a tally never exceeds the recorded total |
| Cw3FixedTheorems.CachedVerdictIsRight | contracts/cw3-fixed-multisig/src/contract.rs:136-238 | in every run: tallies are the ballots' weights; stored passed or executed means it passes now and later; stored rejected means it does not, and before expiry never will; until expiry the stored status is the current one |
| Cw3FixedTheorems.DispatchedOnce | contracts/cw3-fixed-multisig/src/contract.rs:182-208 | in every run a proposal's messages are dispatched at most once, exactly if it is executed, and exactly as proposed |
| Cw3FixedTheorems.ProposalsMoveForward | contracts/cw3-fixed-multisig/src/contract.rs:136-238 | between any two points of a run: ids not reused, ballots unchanged, rejected and executed final, passed only becomes executed |
| Cw3FixedTheorems.TrapsExactly | contracts/cw3-fixed-multisig/src/contract.rs:77-238 | in every run a call traps exactly if it is a proposal of a stored voter for which 64 bits cannot hold the latest deadline, or whose deadline is accepted when the ids are used up |
| Cw3FixedCalls.CallExactly | contracts/cw3-fixed-multisig/src/contract.rs:58-238 | every call of every run: exactly when it goes through, the stored proposal with the call's messages, deadline, proposer, weight and threshold, the ballot and tally of a vote, the messages dispatched; otherwise nothing changes |
| Cw3FixedCalls.StatusMeans | contracts/cw3-fixed-multisig/src/contract.rs:136-238 | in every run passed and executed proposals are carried by their ballots, now and later, rejected ones are not, and open ones are undecided until their deadline |
| Cw3FixedCalls.InstantiateExactly | contracts/cw3-fixed-multisig/src/contract.rs:27-55 | when a contract can be made, and its configuration, total and voters: for each address its last listing |
| Cw3FixedExamples.NoProposalAfterOneBlock | contracts/cw3-fixed-multisig/src/contract.rs:77-134 | a run with the longest voting period: one block after the start a proposal with a deadline one block away traps |
| Cw3Flex.FlexMultisig.DoPropose | contracts/cw3-flex-multisig/src/contract.rs:86-164 | the whole effect of a proposal: deposit checked and taken, current weight of the proposer, total of the group recorded, deadline capped or trapping |
| Cw3Flex.FlexMultisig.DoVote | contracts/cw3-flex-multisig/src/contract.rs:166-214 | the whole effect of a vote with the weight from the start of the proposal's block |
| Cw3Flex.FlexMultisig.DoExecute | contracts/cw3-flex-multisig/src/contract.rs:216-251 | the whole effect of an execution: authorization, refund first, then the messages |
| Cw3Flex.FlexMultisig.DoClose | contracts/cw3-flex-multisig/src/contract.rs:253-289 | the whole effect of closing, with a refund where the deposit says so |
| Cw3Flex.FlexMultisig.Call | contracts/cw3-flex-multisig/src/contract.rs:64-84 | a call as the chain runs it: new state and messages, or an error and no change |
| Cw3FlexTheorems.SnapshotVotingBounded | contracts/cw3-flex-multisig/src/contract.rs:109-207 | a proposal made before any group update of its block: whatever happens later, in the group too, its tally stays within the recorded total |
| Cw3FlexTurnout.TallyBoundExact | contracts/cw3-flex-multisig/src/contract.rs:86-207 | of any proposal that goes through in any run: its tally stays within the group's total in every continuation if and only if its deadline is already over, or the proposer's weight plus everybody else's snapshot weight is within the total, or, under a quorum, no set of voters takes the tally beyond it within 64 bits or decides the proposal before |
| Cw3FlexTurnout.OutgrowsWithin64Bits | contracts/cw3-flex-multisig/src/contract.rs:86-207 | as long as 64 bits hold that sum, or without a quorum, the sum against the total alone decides it |
| Cw3FlexTurnout.Turnout | contracts/cw3-flex-multisig/src/contract.rs:166-214 | any of those who are ready to vote can all vote yes, or all vote no, one after the other; the tally rises by what they weighed at the start of the block, and the others are still ready |
| Cw3FlexTheorems.QuietPotential | contracts/cw3-flex-multisig/src/contract.rs:109-146 | with no earlier update in the block that sum is the total weight of the group |
| Cw3FlexExamples.UpdateBeforeProposalOutgrows | contracts/cw3-flex-multisig/src/contract.rs:109-207 | with one it need not be: a run of three calls from a fresh contract that ends with a tally of 6 against a recorded total of 1 |
| Cw3FlexExamples.ShrunkenGroupCannotPropose | packages/cw3/src/proposal.rs:88-96 | a run after which a member's proposal traps, because the group has become too small for the count |
| Cw3FlexTraps.AbstentionTrapsExactly | packages/cw3/src/proposal.rs:66-118 | exactly when an abstention on an open proposal traps: with percentages if abstentions would exceed the recorded total, under a quorum also if the tally would exceed 64 bits |
| Cw3FlexTheorems.FlexVerdictIsRight | contracts/cw3-flex-multisig/src/contract.rs:166-289 | the cached verdict is right in every run, for every proposal whose possible tally is within its recorded total |
| Cw3FlexTraps.FlexTrapsExactly | contracts/cw3-flex-multisig/src/contract.rs:64-289 | in every run exactly which calls trap, for every message; and no stored proposal has a count above its recorded total |
| Cw3FlexTraps.BoundedNeverTraps | contracts/cw3-flex-multisig/src/contract.rs:166-289 | in every run no vote on, execution or closing of a proposal traps while its possible tally is within its recorded total |
| Cw3FlexTheorems.EverythingLeavesOnce | contracts/cw3-flex-multisig/src/contract.rs:216-289 | in every run messages are dispatched at most once and deposits returned at most once, to the proposer, for executed proposals always and just before their messages; proposals only move forward |
| Cw3FlexCalls.CallExactly | contracts/cw3-flex-multisig/src/contract.rs:64-306 | every call of every run: exactly when it goes through, for all five messages, with the deposit paid, who may execute and the weight at the start of the proposal's block spelled out; the proposal stored, the ballot and tally of a vote; and exactly what is taken, returned and dispatched, in order |
| Cw3FlexCalls.ExecutedIsSettledOnce | contracts/cw3-flex-multisig/src/contract.rs:237-247 | in every run the log has the messages of every executed proposal, right after the return of its deposit, if it has one, to its proposer; and neither of them at any other place |
| Cw3FlexCalls.StatusMeans | contracts/cw3-flex-multisig/src/contract.rs:166-289 | in every run `is_passed` of a stored proposal is what its ballots say; and so are stored statuses, now and later, where the possible tally is within the recorded total |
| Cw3FlexCalls.DepositExactly | packages/cw3/src/deposit.rs:68-117 | a deposit in coins is paid if and only if just that coin came, and it is worth something; one in cw20 tokens is taken from the proposer |
| Cw3FlexCalls.InstantiateExactly | contracts/cw3-flex-multisig/src/contract.rs:30-62 | when a contract can be made, and that nothing is proposed |
| Cw3FlexTheorems.RejectedStays | contracts/cw3-flex-multisig/src/contract.rs:216-289 | whatever follows, a rejected proposal stays rejected, and its deposit is returned afterwards exactly if it had been before |
| Cw3FlexTheorems.RejectedRefundExactly | contracts/cw3-flex-multisig/src/contract.rs:86-289 | in every run, when a call leaves a proposal newly rejected: in every continuation its deposit is returned if and only if that call is its closing and the deposit asks for refunds of failures, and then it was returned at once |
| Cw3FlexTraps.DecisionsExactly | contracts/cw3-flex-multisig/src/contract.rs:216-289 | in every run closing goes through exactly for a proposal stored as open that is expired and does not pass, and execution exactly, by the authorized, for one stored as passed or open that passes |
| Cw3FlexExamples.RefundableDepositLost | contracts/cw3-flex-multisig/src/contract.rs:166-289 | a run of two calls that rejects a proposal with a refundable deposit by votes; no continuation returns the deposit |
| Cw3FlexTheorems.PotentialStays | packages/cw4/src/helpers.rs:91-118 | over any run how far the tally of a proposal can go never changes once it is made, whatever the group does |
| Cw4Group.CheckUnique | contracts/cw4-group/src/helpers.rs:45-56 | sorts the array in place, and refuses it exactly if two members share an address |
| Cw4Group.UniqueIfNeighboursDiffer | contracts/cw4-group/src/helpers.rs:45-56 | a list has no duplicate if and only if no neighbours of its sorted form are equal |
| Cw4Group.Group.Setup | contracts/cw4-group/src/contract.rs:40-64 | the group after creation, or the first error |
| Cw4Group.Group.Fill | contracts/cw4-group/src/contract.rs:54-60 | the loop that stores the members and adds up the total |
| Cw4Group.Group.Update | contracts/cw4-group/src/contract.rs:119-158 | members, total and diffs after an update, or an error and no change |
| Cw4Group.Group.ApplyChanges | contracts/cw4-group/src/contract.rs:129-157 | the two loops after each other, then the total |
| Cw4Group.Group.AddMembers | contracts/cw4-group/src/contract.rs:133-144 | the loop of additions, with its running total and diffs |
| Cw4Group.Group.RemoveMembers | contracts/cw4-group/src/contract.rs:146-154 | the loop of removals |
| Cw4Group.AddOneKeeps | contracts/cw4-group/src/contract.rs:134-144 | adding fails exactly for a bad address or a sum beyond 64 bits, never on the subtraction; the total stays the sum |
| Cw4Group.AddAllKeeps | contracts/cw4-group/src/contract.rs:133-144 | the additions fail exactly for a bad address or when a running total leaves 64 bits; the total stays the sum, and the diffs tell the new members |
| Cw4Group.UpdateMembersExactly | contracts/cw4-group/src/contract.rs:119-158 | an update goes through if and only if no address is added twice, the admin calls, all addresses are well formed, and the running total fits 64 bits after each of the sorted additions, removals not counted |
| Cw4Group.ReplacementOverflows | contracts/cw4-group/src/contract.rs:119-158 | a group and an update that fails so though its result would fit |
| Cw4Group.RemoveAllKeeps | contracts/cw4-group/src/contract.rs:146-154 | removing fails exactly for a bad address, however often one is listed; the total stays the sum |
| Cw4Group.UpdateMembersResult | contracts/cw4-group/src/contract.rs:119-158 | who is a member afterwards with which weight (adds, then removes), the total is the sum, and replaying the diffs on the old members gives the new ones |
| Cw4Group.CreateResult | contracts/cw4-group/src/contract.rs:40-64 | a new group holds exactly the listed weights, and their sum |
| Cw4Group.CreateExactly | contracts/cw4-group/src/contract.rs:40-64 | a group can be created if and only if no address is listed twice, all addresses and the admin's are well formed, and 64 bits hold all weights together; it has that admin and just those members |
| Cw4Stake.Stake.Setup | contracts/cw4-stake/src/contract.rs:28-51 | an empty contract with a validated admin, if any, and a minimum bond of at least one |
| Cw4Stake.Stake.AlertHooks | contracts/cw4-stake/src/contract.rs:224-230 | the loop that tells every hook the diff, in order |
| Cw4Stake.Stake.DoUpdateAdmin | contracts/cw4-stake/src/contract.rs:63-65 | the admin after the admin's call, address checked first |
| Cw4Stake.Stake.DoAddHook | contracts/cw4-stake/src/contract.rs:66-68 | one more hook, for the admin, if it is not registered |
| Cw4Stake.Stake.DoRemoveHook | contracts/cw4-stake/src/contract.rs:69-71 | one hook less, for the admin, if it is registered |
| Cw4Stake.Stake.DoUpdateMembership | contracts/cw4-stake/src/contract.rs:198-231 | member weight and total follow the new stake, and the hooks hear of a change; or a trap |
| Cw4Stake.Stake.DoBond | contracts/cw4-stake/src/contract.rs:79-122 | the whole effect of bonding the right tokens |
| Cw4Stake.Stake.DoUnbond | contracts/cw4-stake/src/contract.rs:147-180 | the whole effect of unbonding: less stake, one more claim, or a trap where 64 bits cannot hold its deadline |
| Cw4Stake.Stake.DoClaim | contracts/cw4-stake/src/contract.rs:242-283 | due claims are paid together and leave the list |
| Cw4Stake.Stake.Call | contracts/cw4-stake/src/contract.rs:55-77 | a call of any of the messages as the chain runs it: new state, payout and alerts, or an error and no change |
| Cw4StakeTheorems.StakeConserved | contracts/cw4-stake/src/contract.rs:79-283 | in every run, in total and for each address: what really came in of the staked token = staked + waiting in claims + paid out |
| Cw4StakeTheorems.PaymentExactly | contracts/cw4-stake/src/contract.rs:87-196 | funds are taken if and only if they are one coin of the configured denomination, or cw20 tokens of the configured contract; and count with all that came in of that token |
| Cw4StakeCalls.CallExactly | contracts/cw4-stake/src/contract.rs:55-283 | every call of every run: exactly when it goes through and what it does: the stake rises by what really came in or falls by the amount, one claim is filed that is due when the waiting period has passed, due claims are paid and no others, the weight and the total follow the stake, every hook is told of just that change, and admin and hooks change as named |
| Cw4StakeCalls.WeighsExactly | contracts/cw4-stake/src/contract.rs:233-240 | a stake has no weight below the minimum bond, else its quotient by the rate up to whole 64-bit turns; a trap only for a rate of zero |
| Cw4StakeCalls.InstantiateExactly | contracts/cw4-stake/src/contract.rs:28-51 | a new contract: the configuration given, with a minimum bond of at least one, the validated admin, and nothing staked |
| Cw4StakeTheorems.PaidExactlyAfterWaiting | contracts/cw4-stake/src/contract.rs:147-283 | in every run what an address got plus what it could claim now is exactly what it unbonded at least one period before |
| Cw4StakeTheorems.WeightIsDerived | contracts/cw4-stake/src/contract.rs:198-240 | in every run every address has exactly the weight of its stake, or none |
| Cw4StakeTheorems.TotalWeightBacked | contracts/cw4-stake/src/contract.rs:198-240 | in every run the total is the sum of the weights, and times the rate never more than the total stake, despite the truncating cast |
| Cw4StakeTheorems.TotalNeverUnderflows | contracts/cw4-stake/src/contract.rs:198-240 | an update traps exactly when the weight does, or when the total with the new weight leaves 64 bits; never on the subtraction |
| Cw4StakeTheorems.StakeTrapsExactly | contracts/cw4-stake/src/contract.rs:55-283 | in every run exactly which calls trap: a bond beyond 128 bits or whose weight traps; an unbonding whose deadline leaves 64 bits or whose weight leaves them beside the old total; a claim beyond 128 bits; no other |
| Cw4StakeTheorems.WeightIsQuotientExactly | contracts/cw4-stake/src/contract.rs:233-240 | a sufficient stake weighs its quotient by the rate if and only if that fits 64 bits |
| Cw4StakeTheorems.WeightsMonotoneExactly | contracts/cw4-stake/src/contract.rs:233-240 | up to some stake more never weighs less if and only if the 64 bits do not wrap around between the minimum bond and that stake |
| Cw4StakeExamples.UnbondingLocked | contracts/cw4-stake/src/contract.rs:147-240 | a run after which the unbonding of one token traps on the total |
| Cw4StakeHooks.HookKnowsMembers | contracts/cw4-stake/src/contract.rs:198-231 | over any part of any run, the diffs that a registered hook hears, replayed in order on the members at its start, give the members at its end, and each names the weight that it replaces |
| Cw4StakeHooks.HooksKept | contracts/cw4-stake/src/contract.rs:63-71 | no call registers a hook twice, and only the admin changes the hooks |
| Prelude.Duration.AfterIsExact | contracts/cw4-stake/src/contract.rs:163-168 | a deadline that 64 bits hold is expired exactly when the duration has passed |
| Cw4StakeTheorems.DueSplits | contracts/cw4-stake/src/contract.rs:242-283 | paying the due claims changes nothing about any other claim at any later block |
| Cw20Base.CheckAccounts | contracts/cw20-base/src/contract.rs:174-184 | sort, dedup and compare lengths: refused exactly if an address is listed twice |
| Cw20Base.SortedDedupLength | contracts/cw20-base/src/contract.rs:174-184 | sorting and removing neighbouring repeats keeps the length if and only if all addresses differ |
| Cw20Base.Token.Setup | contracts/cw20-base/src/contract.rs:94-156 | balances, supply and minter of a new token, or the first error; parameters say whether token info and marketing pass their checks |
| Cw20Base.Token.DoCreateAccounts | contracts/cw20-base/src/contract.rs:158-172 | the loop that stores the opening balances and adds up the supply |
| Cw20Base.Token.MoveTokens | contracts/cw20-base/src/contract.rs:247-259 | checked subtraction at one end, trapping addition at the other |
| Cw20Base.Token.DoTransfer | contracts/cw20-base/src/contract.rs:238-266 | the whole effect of a transfer |
| Cw20Base.Token.DoBurn | contracts/cw20-base/src/contract.rs:268-293 | the whole effect of a burn |
| Cw20Base.Token.DoMint | contracts/cw20-base/src/contract.rs:295-338 | the whole effect of a mint, checks in the source's order |
| Cw20Base.Token.DoUpdateMinter | contracts/cw20-base/src/contract.rs:380-416 | a new minter or none; the cap stays with the new one |
| Cw20Base.Token.DoIncrease | contracts/cw20-base/src/allowances.rs:10-44 | the same update of both maps |
| Cw20Base.Token.DoDecrease | contracts/cw20-base/src/allowances.rs:46-93 | both entries lowered, or both removed |
| Cw20Base.Token.Deduct | contracts/cw20-base/src/allowances.rs:96-122 | the same deduction from both entries, or the first error |
| Cw20Base.Token.DoTransferFrom | contracts/cw20-base/src/allowances.rs:124-159 | deduction, then the move |
| Cw20Base.Token.DoBurnFrom | contracts/cw20-base/src/allowances.rs:161-195 | deduction, then the burn |
| Cw20Base.Token.Call | contracts/cw20-base/src/contract.rs:187-236 | a call as the chain runs it: new state and notice, or an error and no change |
| Cw20Base.Token.DoMigrate | contracts/cw20-base/src/contract.rs:589-603 | the loop that copies every allowance into the mirror |
| Cw20Theorems.SupplyConserved | contracts/cw20-base/src/contract.rs:158-416 | in every run, of a new or an upgraded token, the balances add up to the supply, which is within any stored cap |
| Cw20Theorems.CapHoldsForEver | contracts/cw20-base/src/contract.rs:295-416 | the cap of the start bounds the supply for ever, through every minter; without a minter the supply never rises again |
| Cw20Theorems.TrapsExactly | contracts/cw20-base/src/contract.rs:238-378 | in every run a call traps exactly when it would raise the supply or an allowance beyond 128 bits; receiving balances never overflow |
| Cw20Theorems.MoveResult | contracts/cw20-base/src/contract.rs:247-259 | a move fails exactly for want of funds, keeps the sum, and changes the two ends by the amount, even if they are one |
| Cw20Theorems.MirrorExact | contracts/cw20-base/src/allowances.rs:10-122 | in every run the spender-keyed map is the exact transpose of the owner-keyed one, and nobody has an allowance from the own account |
| Cw20Theorems.AllowanceAccounting | contracts/cw20-base/src/allowances.rs:10-244 | in every run, per pair: granted = remaining + spent + revoked |
| Cw20Theorems.SpendingExactly | contracts/cw20-base/src/allowances.rs:96-159 | in every run a spender's transfer succeeds exactly if a live allowance and the balance cover it; then both drop by the amount and the receiver gets it |
| Cw20Theorems.BurnFromResult | contracts/cw20-base/src/allowances.rs:161-195 | the same for burning, with the supply |
| Cw20Theorems.OnlyOwnerOrSpenderTakes | contracts/cw20-base/src/allowances.rs:96-244 | a balance falls only by its owner's own transfer, burn or send, or by a spender under a live allowance that covers it, and by exactly the amount of the call |
| Cw20Theorems.OnlyMinterMints | contracts/cw20-base/src/contract.rs:295-338 | the supply rises only by a mint of the stored minter, by just what its receiver gets |
| Cw20Theorems.NoticeIsTrue | contracts/cw20-base/src/contract.rs:340-378 | a notice goes out exactly for a send, and tells what the contract received from whom |
| Cw20Theorems.InstantiateResult | contracts/cw20-base/src/contract.rs:94-184 | refused as duplicate exactly if the token info is valid and an address repeats; otherwise the listed balances and their sum |
| Cw20Theorems.MigrateMirrorsExactly | contracts/cw20-base/src/contract.rs:589-603 | after the migration the mirror is exact if and only if it held no stray entry before |
| Cw20Theorems.MigrateAgain | contracts/cw20-base/src/contract.rs:589-603 | migrating a token with an exact mirror changes nothing |
| Cw20Calls.CallExactly | contracts/cw20-base/src/contract.rs:187-416 | every call of every run: exactly when it goes through; every balance, the supply, the one allowance and its mirror with amount and expiration, the minter and its cap afterwards; and the notice sent |
| Cw20Calls.MigrateExactly | contracts/cw20-base/src/contract.rs:589-603 | a migration from a version without a mirror writes the entry of every allowance into it, replacing what was there; any other changes nothing |
| Cw20Calls.InstantiateExactly | contracts/cw20-base/src/contract.rs:94-184 | a token can be made if and only if its info is valid, no address repeats, all are well formed, and their amounts fit 128 bits and the cap; it has just those accounts, their sum, and that minter |
| Cw20Listings.AllowanceListingComplete | contracts/cw20-base/src/enumerable.rs:14-64 | paging through allowances with any limit but 0 collects each once, in ascending order; with 0 nothing |
| Cw20Listings.ListingsAgree | contracts/cw20-base/src/enumerable.rs:14-64 | in every run the owner's and the spender's full listings tell the same |
| Cw20Listings.AccountsListingComplete | contracts/cw20-base/src/enumerable.rs:66-79 | paging through accounts lists every account once |
| Paging.RangeAfter | contracts/cw20-base/src/enumerable.rs:20-26 | a range that starts after a key of another range is the rest of it |
| Paging.PageSize | contracts/cw20-base/src/enumerable.rs:11-37 | a page is the beginning of what is left, of at most 30 entries, cut only at the number asked for, 10 if none is, or 30 |
| Paging.NextPage | contracts/cw1-subkeys/src/contract.rs:402-431 | with a filter before the limit, starting after the last entry of a page leaves exactly the rest |
| Paging.FollowIsComplete | contracts/cw1-subkeys/src/contract.rs:394-431 | following the pages gives the whole listing if and only if the limit is positive or there is nothing to list |
| Paging.ListingIsExact | contracts/cw1-subkeys/src/contract.rs:402-431 | that listing is every entry beyond the start that passes the filter, once, in ascending order |
| Cw1Subkeys.Proxy.Setup | contracts/cw1-whitelist/src/contract.rs:23-40 | admins stored if all addresses are valid |
| Cw1Subkeys.Proxy.DoExecute | contracts/cw1-subkeys/src/contract.rs:78-131 | the loop over the messages, with the allowance written after each, or the first error |
| Cw1Subkeys.Proxy.DoIncrease | contracts/cw1-subkeys/src/contract.rs:168-220 | an allowance raised, or begun anew where it had expired |
| Cw1Subkeys.Proxy.DoDecrease | contracts/cw1-subkeys/src/contract.rs:222-273 | a live allowance lowered, and removed when it is worth nothing |
| Cw1Subkeys.Proxy.Call | contracts/cw1-subkeys/src/contract.rs:49-76 | a call as the chain runs it: new state and relayed messages, or an error and no change |
| Cw1Theorems.QueryAgreesWithExecution | contracts/cw1-subkeys/src/contract.rs:355-392 | the query is true if and only if executing that message in the same state succeeds; it fails exactly for a string that is no admin and no address |
| Cw1Theorems.BatchIsOneByOne | contracts/cw1-subkeys/src/contract.rs:78-131 | a batch has exactly the result of its messages sent one by one: success, final allowance and error |
| Cw1Theorems.BatchSucceedsExactly | contracts/cw1-subkeys/src/contract.rs:78-166 | a batch of a subkey succeeds if and only if each message without coins has its flag set and one live allowance covers all coins together; nothing else changes |
| Cw1Theorems.FlagsDecide | contracts/cw1-subkeys/src/contract.rs:133-166 | a message without coins of an account that is no admin is relayed if and only if the account has permissions with the flag for just that message: delegate, undelegate, redelegate, or withdraw for both distribution messages; other messages never |
| Cw1Calls.RunCallExactly | contracts/cw1-subkeys/src/contract.rs:49-302 | every call of every run: exactly when it goes through, and the admins, permissions, and amount and expiration of the one allowance afterwards; and what is relayed |
| Cw1Calls.SubAllExactly | contracts/cw1-subkeys/src/contract.rs:103-119 | coins can be spent one after the other if and only if each finds enough left and an entry that is not used up |
| Cw1Calls.CoversTotals | contracts/cw1-subkeys/src/contract.rs:103-119 | for coins that are all worth something: if and only if the balance has the total of each denomination |
| Cw1Calls.InstantiateExactly | contracts/cw1-whitelist/src/contract.rs:23-40 | made if and only if all admins' addresses are well formed; with just those admins and no rights granted |
| Cw1Theorems.SpendingWithinGrants | contracts/cw1-subkeys/src/contract.rs:78-273 | in every run, per subkey and denomination: held + spent is at most granted, and granted at most held + spent + revoked + lapsed |
| Cw1Theorems.OnlyAdminsGrant | contracts/cw1-subkeys/src/contract.rs:78-302 | an account that is no admin can only relay permitted messages and pay for their coins from its own allowance; no other right, and nobody else's, changes |
| Cw1Theorems.FrozenForEver | contracts/cw1-whitelist/src/contract.rs:77-110 | over any run a frozen admin list stays as it is |
| Cw1Theorems.ListsAllLive | contracts/cw1-subkeys/src/contract.rs:402-431 | the pages taken in one block hold every allowance that is not expired, once |
| Cw1Coins.SubAllTakes | contracts/cw1-subkeys/src/contract.rs:103-119 | spending coins takes exactly their amount of every denomination |
| Cw1Coins.SaturatingLowers | contracts/cw1-subkeys/src/contract.rs:249-258 | revoking takes no more than the coin, and gives nothing |
| Cw1Coins.AddAdds | contracts/cw1-subkeys/src/contract.rs:208-209 | granting adds exactly the coin |
| Cw1Coins.PlaceKeepsOrder | contracts/cw1-subkeys/src/contract.rs:208-209 | a coin of a new denomination is put where the order of denominations has it, and no coin is lost |

## Left out

- Bytes: JSON, events, attributes, response data, contract versions. Packets and messages are datatypes.
- Opening and connecting channels beyond recording the remote endpoint, and closing them, which the contract does not do.
- The migrations of the bridge from before 0.13, which depend on queries of the bank and of tokens: runs of the bridge start from a fresh instantiation.
- A remote chain's own decision to accept a transfer, and time on it: any accept, refusal or timeout may come.
- Gas: gas limits are numbers that the allow list keeps, and that only a payout carries.
- What the messages of a proposal do once dispatched; they are counted.
- The hooks of cw4-group, which are those of cw4-stake; a group's admin is fixed in the runs.
- The deposit's transfer itself: taking and returning it are entries of the log.
- What makes a name, symbol, logo or marketing text valid.
- Listings of proposals, votes, voters, members, channels and permissions: the same paging, with no filter.
- Cw3Proposal.UnrejectedIsWithinOne: with vetoes rejection can lag by their whole weight, as `is_rejected` does not count them.
- Cw20Base.Token.Call: the messages that change marketing data and the logo, which touch no balance.
- Cw1Theorems.SpendingWithinGrants: what an admin sends is not limited, so it is not counted as spent.
- Ics20Theorems.RedemptionPaysReceiver: for positive amounts; an endpoint with a slash in its port or channel name is never paid, by `parse_voucher_denom`; the identifiers of IBC have none.
