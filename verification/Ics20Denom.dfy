/** Denominations of the bridge: how an amount is written as one string
    (contracts/cw20-ics20/src/amount.rs) and how a voucher that comes back from the
    remote chain is read (`parse_voucher_denom` in contracts/cw20-ics20/src/ibc.rs). */
module Ics20Denom {
  import opened Prelude

  const CW20_PREFIX := "cw20:"

  /** What actually moves on the local chain: a coin of the bank, or a cw20 token. */
  datatype Token = Bank(denom: string) | Contract(address: Addr) {
    function Denom(): string {
      match this
      case Bank(denom) => denom
      case Contract(address) => CW20_PREFIX + address
    }
  }

  datatype Amount = Native(denom: string, amount: Uint128) | Cw20(address: Addr, amount: Uint128) {
    function Token(): Token {
      match this
      case Native(denom, _) => Bank(denom)
      case Cw20(address, _) => Contract(address)
    }

    function Denom(): string {
      Token().Denom()
    }

    static function FromParts(denom: string, amount: Uint128): Amount {
      if CW20_PREFIX <= denom then Cw20(denom[|CW20_PREFIX|..], amount) else Native(denom, amount)
    }
  }

  function TokenOf(denom: string): Token {
    Amount.FromParts(denom, 0).Token()
  }

  /** Every stored denomination can be read back: nothing is lost by `FromParts`. */
  lemma DenomOfFromParts(denom: string, amount: Uint128)
    ensures Amount.FromParts(denom, amount).Denom() == denom
    ensures Amount.FromParts(denom, amount).amount == amount
    ensures Amount.FromParts(denom, amount).Token() == TokenOf(denom)
  {
    if CW20_PREFIX <= denom {
      assert CW20_PREFIX + denom[|CW20_PREFIX|..] == denom;
    }
  }

  /** Writing an amount and reading it back is exact for all cw20 tokens, and for a bank
      coin exactly when its name does not begin with the cw20 prefix. */
  lemma FromPartsOfDenom(a: Amount)
    ensures Amount.FromParts(a.Denom(), a.amount) == a
            <==> (a.Native? ==> !(CW20_PREFIX <= a.denom))
    ensures TokenOf(a.Denom()) == a.Token() <==> (a.Native? ==> !(CW20_PREFIX <= a.denom))
  {
    if a.Cw20? {
      assert (CW20_PREFIX + a.address)[|CW20_PREFIX|..] == a.address;
    }
  }

  /** Different denominations never share a token. */
  lemma TokenOfInjective(d: string, e: string)
    ensures TokenOf(d) == TokenOf(e) <==> d == e
  {
    DenomOfFromParts(d, 0);
    DenomOfFromParts(e, 0);
  }

  datatype Endpoint = Endpoint(portId: string, channelId: string)

  function FirstIndex(s: string, c: char): (i: nat)
    requires c in s
    ensures i < |s| && s[i] == c
    ensures forall j | 0 <= j < i :: s[j] != c
  {
    if s[0] == c then 0 else 1 + FirstIndex(s[1..], c)
  }

  /** The text before and after the first separator. */
  function SplitOnce(s: string, c: char): Option<(string, string)> {
    if c !in s then None
    else
      var i := FirstIndex(s, c);
      Some((s[..i], s[i + 1..]))
  }

  /** The local denomination carried by a voucher of the expected remote endpoint. The
      source splits at the first two slashes; three pieces are there when both exist. */
  function ParseVoucherDenom(voucher: string, remote: Endpoint): Result<string> {
    match SplitOnce(voucher, '/')
    case None => Err(NoForeignTokens)
    case Some((port, rest)) =>
      match SplitOnce(rest, '/')
      case None => Err(NoForeignTokens)
      case Some((channel, denom)) =>
        if port != remote.portId then Err(FromOtherPort)
        else if channel != remote.channelId then Err(FromOtherChannel)
        else Ok(denom)
  }

  /** How the remote chain names the voucher of a local denomination. */
  function Voucher(remote: Endpoint, denom: string): string {
    remote.portId + "/" + remote.channelId + "/" + denom
  }

  lemma VoucherParts(remote: Endpoint, denom: string)
    ensures Voucher(remote, denom) == remote.portId + "/" + (remote.channelId + "/" + denom)
  {
  }

  /** Splitting is the inverse of joining with one separator. */
  lemma SplitOnceExactly(s: string, c: char, head: string, tail: string)
    ensures SplitOnce(s, c) == Some((head, tail)) <==> s == head + [c] + tail && c !in head
  {
    if s == head + [c] + tail && c !in head {
      assert s[|head|] == c;
      assert forall j | 0 <= j < |head| :: s[j] == head[j];
      assert FirstIndex(s, c) == |head|;
      assert s[..|head|] == head && s[|head| + 1..] == tail;
    }
  }

  /** A voucher is accepted, with local denomination `denom`, exactly when it is the name
      the remote endpoint gives to `denom` and no slash blurs the endpoint's two parts. */
  lemma ParseVoucherExactly(voucher: string, remote: Endpoint, denom: string)
    ensures ParseVoucherDenom(voucher, remote) == Ok(denom)
            <==> voucher == Voucher(remote, denom) && '/' !in remote.portId && '/' !in remote.channelId
  {
    var rest := remote.channelId + "/" + denom;
    VoucherParts(remote, denom);
    SplitOnceExactly(voucher, '/', remote.portId, rest);
    SplitOnceExactly(rest, '/', remote.channelId, denom);
    if ParseVoucherDenom(voucher, remote) == Ok(denom) {
      var after := SplitOnce(voucher, '/').value.1;
      SplitOnceExactly(voucher, '/', remote.portId, after);
      SplitOnceExactly(after, '/', remote.channelId, denom);
    }
  }
}
