/** What every contract of the suite takes from the CosmWasm platform: addresses,
    machine integers that refuse to overflow, blocks, deadlines and errors. */
module Prelude {

  type Addr = string

  const U64_MAX: int := 0xFFFF_FFFF_FFFF_FFFF
  const U128_MAX: int := 0xFFFF_FFFF_FFFF_FFFF_FFFF_FFFF_FFFF_FFFF

  type Uint64 = x: int | 0 <= x <= U64_MAX
  type Uint128 = x: int | 0 <= x <= U128_MAX

  datatype Option<+T> = None | Some(value: T) {
    function UnwrapOr(default: T): T {
      if Some? then value else default
    }
  }

  /** The errors of the handlers. `Panic` is a trap of the virtual machine: an arithmetic
      overflow under `overflow-checks = true`, or an `unwrap` of nothing. */
  datatype Error =
    | Panic
    | InvalidAddress
    | MalformedData
    | Overflow
    | Unauthorized
    | NotFound
    // cw20-ics20
    | NoFunds
    | NonPayable
    | NoSuchChannel
    | NotOnAllowList
    | AmountOverflow
    | InsufficientFunds
    | NoForeignTokens
    | FromOtherPort
    | FromOtherChannel
    | CannotLowerGas
    | UnknownReplyId
    // cw3
    | NoVoters
    | InvalidThreshold
    | WrongExpiration
    | NotOpen
    | Expired
    | AlreadyVoted
    | WrongExecuteStatus
    | WrongCloseStatus
    | NotExpired
    | InvalidDeposit
    // cw4
    | DuplicateMember
    | InvalidDenom
    | NothingToClaim
    | HookAlreadyRegistered
    | HookNotRegistered
    // cw20-base
    | DuplicateInitialBalanceAddresses
    | InitialSupplyAboveCap
    | InvalidTokenInfo
    | InvalidMarketing
    | CannotSetOwnAccount
    | InvalidExpiration
    | NoAllowance
    | CannotExceedCap
    // cw1-subkeys
    | NotAllowed
    | DelegatePerm
    | UnDelegatePerm
    | ReDelegatePerm
    | WithdrawAddrPerm
    | WithdrawPerm
    | UnsupportedMessage
    | MessageTypeRejected
    | SettingExpiredAllowance

  datatype Result<+T> = Ok(value: T) | Err(error: Error) {
    predicate IsFailure() {
      Err?
    }
    function PropagateFailure<U>(): Result<U>
      requires Err?
    {
      Err(error)
    }
    function Extract(): T
      requires Ok?
    {
      value
    }
  }

  /** A failure-compatible check: `:- Need(condition, error);` */
  datatype Check = Pass | Fail(error: Error) {
    predicate IsFailure() {
      Fail?
    }
    function PropagateFailure<U>(): Result<U>
      requires Fail?
    {
      Err(error)
    }
  }

  function Need(condition: bool, error: Error): Check {
    if condition then Pass else Fail(error)
  }

  function CheckedSub(a: nat, b: nat, error: Error): Result<nat> {
    if b <= a then Ok(a - b) else Err(error)
  }

  function CheckedAdd64(a: nat, b: nat, error: Error): Result<Uint64> {
    if a + b <= U64_MAX then Ok(a + b) else Err(error)
  }

  function CheckedAdd128(a: nat, b: nat, error: Error): Result<Uint128> {
    if a + b <= U128_MAX then Ok(a + b) else Err(error)
  }

  /** Address validation of the chain. `api` tells which strings it accepts; an accepted
      string is its own address, so validation is injective. */
  function AddrValidate(api: string -> bool, human: string): Result<Addr> {
    if api(human) then Ok(human) else Err(InvalidAddress)
  }

  const NANOS_PER_SECOND: nat := 1_000_000_000

  /** `Timestamp::plus_seconds`, in nanoseconds; both operations trap on overflow. */
  function PlusSeconds(time: Uint64, seconds: Uint64): Result<Uint64> {
    var nanos := seconds * NANOS_PER_SECOND;
    if nanos <= U64_MAX then CheckedAdd64(time, nanos, Panic) else Err(Panic)
  }

  /** The height of a block, and its time in nanoseconds. */
  datatype Block = Block(height: Uint64, time: Uint64) {
    /** Neither the height nor the clock of the chain ever goes back. */
    predicate NotAfter(later: Block) {
      height <= later.height && time <= later.time
    }
  }

  datatype Expiration = AtHeight(height: Uint64) | AtTime(time: Uint64) | Never {
    predicate IsExpired(block: Block) {
      match this
      case AtHeight(h) => block.height >= h
      case AtTime(t) => block.time >= t
      case Never => false
    }

    /** A deadline is over from its own height or time on, for ever; without one nothing is. */
    lemma OverExactly(block: Block, later: Block)
      requires block.NotAfter(later)
      ensures IsExpired(block) ==> IsExpired(later)
      ensures AtHeight(block.height).IsExpired(block) && AtTime(block.time).IsExpired(block)
      ensures !Never.IsExpired(block)
    {
    }

    /** `self.partial_cmp(&other)` being `None`. */
    predicate Incomparable(other: Expiration) {
      (AtHeight? && other.AtTime?) || (AtTime? && other.AtHeight?)
    }

    /** `self.partial_cmp(&other)` being `Greater`. */
    predicate LaterThan(other: Expiration) {
      match (this, other)
      case (AtHeight(a), AtHeight(b)) => a > b
      case (AtTime(a), AtTime(b)) => a > b
      case (Never, Never) => false
      case (Never, _) => true
      case (_, _) => false
    }
  }

  datatype Duration = Height(blocks: Uint64) | Time(seconds: Uint64) {
    /** The deadline one duration after a block; it traps if 64 bits cannot hold it. */
    function After(block: Block): Result<Expiration> {
      match this
      case Height(n) =>
        var height :- CheckedAdd64(block.height, n, Panic);
        Ok(AtHeight(height))
      case Time(n) =>
        var time :- PlusSeconds(block.time, n);
        Ok(AtTime(time))
    }

    /** 64 bits hold the deadline one duration after a block. */
    predicate Fits(block: Block) {
      match this
      case Height(n) => block.height + n <= 0xFFFF_FFFF_FFFF_FFFF
      case Time(n) => block.time + n * 1_000_000_000 <= 0xFFFF_FFFF_FFFF_FFFF
    }

    /** Whether a later block is at least one duration after an earlier one. */
    predicate PassedBetween(earlier: Block, later: Block) {
      match this
      case Height(n) => later.height >= earlier.height + n
      case Time(n) => later.time >= earlier.time + n * NANOS_PER_SECOND
    }

    /** A deadline that 64 bits hold is expired exactly when the duration has passed. */
    lemma AfterIsExact(block: Block, later: Block)
      ensures After(block).Ok? ==> (After(block).value.IsExpired(later) <==> PassedBetween(block, later))
    {
    }
  }

  /** A deadline that is asked for, if one is, is not over yet. */
  predicate NotOver(expires: Option<Expiration>, now: Block) {
    expires.Some? ==> !expires.value.IsExpired(now)
  }

  /** A coin of the bank. */
  datatype Coin = Coin(denom: string, amount: Uint128)

  /** A token: a coin of the bank, or a cw20 contract. */
  datatype Denom = NativeDenom(name: string) | Cw20Denom(address: Addr)
}
