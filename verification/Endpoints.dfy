/** What the providers of one endpoint share: its chain id and its tip. */
module Endpoints {
  import opened Wrappers
  import opened Chains

  const TWO_64: int := 0x1_0000_0000_0000_0000
  const TWO_63: int := 0x8000_0000_0000_0000

  type Uint64 = x: int | 0 <= x < TWO_64

  datatype EndpointState = EndpointState(chainId: string, tip: Uint64)

  datatype Failure = Upstream | ChainMismatch | Behind

  /** The first report fixes the chain. */
  function Claimed(e: EndpointState, chainId: string): EndpointState {
    if e.chainId == "" then e.(chainId := chainId) else e
  }

  predicate Mismatch(e: EndpointState, chainId: string) { e.chainId != "" && e.chainId != chainId }

  function Observed(e: EndpointState, height: Uint64): EndpointState {
    if height > e.tip then e.(tip := height) else e
  }

  function Tolerance(kind: Kind, configured: Option<int>): (t: nat)
    requires configured.Some? ==> configured.value < TWO_63
    ensures t < TWO_63
  {
    match configured
    case Some(n) => if n > 0 then n else 0
    case None => match kind case Eth => 50 case Solana => 50 case Tron => 10 case Btc => 0
  }

  /** The lag test as the machine computes it, in 64 bits. */
  predicate TooFarBehind(height: Uint64, tolerance: nat, tip: Uint64) {
    (height + tolerance) % TWO_64 < tip
  }

  /** The 64-bit test is the intended one exactly when the sum fits, or wraps without harm. */
  lemma LagTestExactly(height: Uint64, tolerance: nat, tip: Uint64)
    requires tolerance < TWO_63
    ensures (TooFarBehind(height, tolerance, tip) <==> height + tolerance < tip)
      <==> height + tolerance < TWO_64 || tip <= height + tolerance - TWO_64
  {
    if height + tolerance >= TWO_64 {
      assert (height + tolerance) % TWO_64 == height + tolerance - TWO_64;
    }
  }

  /** At the very end of the range a provider far ahead of the tip is turned away. */
  lemma WrapRejectsLeader()
    ensures TooFarBehind(TWO_64 - 1, Tolerance(Eth, None), 100)
  {
  }

  /** What is too far behind stays so as the tip grows, and so is everything lower. */
  lemma BehindStays(height: Uint64, lower: Uint64, tolerance: nat, tip: Uint64, later: Uint64)
    requires height + tolerance < TWO_64 && lower <= height && tip <= later
    requires TooFarBehind(height, tolerance, tip)
    ensures TooFarBehind(lower, tolerance, later)
  {
  }

  class Endpoint {
    var chainId: string
    var tip: Uint64

    function View(): EndpointState
      reads this
    {
      EndpointState(chainId, tip)
    }

    method SetChainID(id: string) returns (ok: bool)
      modifies this
      ensures ok == !Mismatch(old(View()), id)
      ensures View() == Claimed(old(View()), id)
    {
      if chainId == "" {
        chainId := id;
        return true;
      }
      return chainId == id;
    }

    method HighestBlock() returns (height: Uint64)
      ensures height == View().tip
    {
      return tip;
    }

    method ObserveBlock(height: Uint64)
      modifies this
      ensures View() == Observed(old(View()), height)
    {
      if height > tip {
        tip := height;
      }
    }
  }
}
