/**
 * A payment channel: two endpoint ids, a fixed capacity split into two side
 * balances, fee parameters and a fee counter.
 *
 * `ChannelState` is the value of a channel's fields at one moment; the
 * channel's pure operations are defined on it once, and the mutable class
 * `Channel` reads and updates its fields through them.
 */
module Channels {
  import opened Wrappers
  import opened Errors
  import opened Ids
  import opened Fees

  datatype ChannelState = ChannelState(
    nodeA: NodeId,
    nodeB: NodeId,
    capacity: int,
    balanceA: int,
    balanceB: int,
    baseFee: int,
    feeRate: Rate,
    feeEarned: int)
  {
    /** The two side balances add up to the capacity. */
    predicate Conserved() {
      balanceA + balanceB == capacity
    }

    /** Neither side is overdrawn. */
    predicate Solvent() {
      balanceA >= 0 && balanceB >= 0
    }

    predicate IsEndpoint(node: NodeId) {
      node == nodeA || node == nodeB
    }

    /** The canonical key of this channel. */
    function Key(): Key {
      KeyOf(nodeA, nodeB)
    }

    /** The balance a sending endpoint may spend: side A is checked first. */
    function SideOf(node: NodeId): int
      requires IsEndpoint(node)
    {
      if node == nodeA then balanceA else balanceB
    }

    /** `get_other_node`. */
    function OtherNode(node: NodeId): (r: Result<NodeId, Error>)
      ensures r.Err? <==> !IsEndpoint(node)
      ensures r.Err? ==> r.error == NotPartOfChannel
      ensures r.Ok? ==> IsEndpoint(r.value) && KeyOf(node, r.value) == Key()
    {
      KeyOfSymmetric(nodeA, nodeB);
      if node == nodeA then Ok(nodeB)
      else if node == nodeB then Ok(nodeA)
      else Err(NotPartOfChannel)
    }

    /** Forwards to `Fees.Fee` on this value's own base fee and rate; `calculate_fee` is `Channel.CalculateFee`. */
    function Fee(amount: int): int {
      Fees.Fee(baseFee, feeRate, amount)
    }

    /** `can_forward`: whether `from`'s side holds at least `amount`. */
    function CanForward(from: NodeId, amount: int): (r: Result<bool, Error>)
      ensures r.Err? <==> !IsEndpoint(from)
      ensures r.Err? ==> r.error == NotPartOfChannel
      ensures r.Ok? ==> (r.value <==> SideOf(from) >= amount)
    {
      if from == nodeA then Ok(balanceA >= amount)
      else if from == nodeB then Ok(balanceB >= amount)
      else Err(NotPartOfChannel)
    }

    /**
     * `update_balances`: move `amount` from `from`'s side to the other side,
     * or silently leave the channel as it is when that side is short.
     */
    function Transfer(from: NodeId, amount: int): (r: Result<ChannelState, Error>)
      ensures r.Err? <==> !IsEndpoint(from)
      ensures r.Err? ==> r.error == NotPartOfChannel
      ensures r.Ok? ==> r.value.(balanceA := balanceA, balanceB := balanceB) == this
      ensures r.Ok? ==> r.value.balanceA + r.value.balanceB == balanceA + balanceB
      ensures CanForward(from, amount) == Ok(true) ==>
        r.value.SideOf(from) == SideOf(from) - amount
      ensures CanForward(from, amount) == Ok(false) ==> r == Ok(this)
    {
      if from == nodeA then
        if balanceA < amount then Ok(this)
        else Ok(this.(balanceA := balanceA - amount, balanceB := balanceB + amount))
      else if from == nodeB then
        if balanceB < amount then Ok(this)
        else Ok(this.(balanceB := balanceB - amount, balanceA := balanceA + amount))
      else Err(NotPartOfChannel)
    }
  }

  /** A transfer keeps the capacity invariant. */
  lemma TransferConserves(st: ChannelState, from: NodeId, amount: int)
    requires st.Conserved() && st.IsEndpoint(from)
    ensures st.Transfer(from, amount).value.Conserved()
  {
  }

  /** A transfer of a non-negative amount never overdraws a side. */
  lemma TransferSolvent(st: ChannelState, from: NodeId, amount: int)
    requires st.Solvent() && st.IsEndpoint(from) && amount >= 0
    ensures st.Transfer(from, amount).value.Solvent()
  {
  }

  /** If a side can forward an amount it can forward any smaller amount. */
  lemma CanForwardDownward(st: ChannelState, from: NodeId, x: int, y: int)
    requires x <= y && st.CanForward(from, y) == Ok(true)
    ensures st.CanForward(from, x) == Ok(true)
  {
  }

  class Channel {
    const nodeA: NodeId
    const nodeB: NodeId
    const capacity: int
    var balanceA: int
    var balanceB: int
    var baseFee: int
    var feeRate: Rate
    const id: Key
    var feeEarned: int

    /** The current value of the channel's fields. */
    function State(): ChannelState
      reads this
    {
      ChannelState(nodeA, nodeB, capacity, balanceA, balanceB, baseFee, feeRate, feeEarned)
    }

    constructor (nodeA: NodeId, nodeB: NodeId, capacity: int, balanceA: int, balanceB: int,
                 baseFee: int, feeRate: Rate, id: Key)
      ensures State() == ChannelState(nodeA, nodeB, capacity, balanceA, balanceB, baseFee, feeRate, 0)
      ensures this.id == id
    {
      this.nodeA := nodeA;
      this.nodeB := nodeB;
      this.capacity := capacity;
      this.balanceA := balanceA;
      this.balanceB := balanceB;
      this.baseFee := baseFee;
      this.feeRate := feeRate;
      this.id := id;
      this.feeEarned := 0;
    }

    /** `Channel(...)`: raises unless the balances add up to the capacity. */
    static method Open(nodeA: NodeId, nodeB: NodeId, capacity: int, balanceA: int, balanceB: int,
                       baseFee: int, feeRate: Rate, id: Key) returns (r: Result<Channel, Error>)
      ensures r.Err? <==> balanceA + balanceB != capacity
      ensures r.Err? ==> r.error == BalanceMismatch
      ensures r.Ok? ==> fresh(r.value) && r.value.id == id && r.value.State().Conserved()
      ensures r.Ok? ==>
                r.value.State() == ChannelState(nodeA, nodeB, capacity, balanceA, balanceB, baseFee, feeRate, 0)
    {
      if balanceA + balanceB != capacity {
        return Err(BalanceMismatch);
      }
      var c := new Channel(nodeA, nodeB, capacity, balanceA, balanceB, baseFee, feeRate, id);
      return Ok(c);
    }

    /** `get_other_node`: the endpoint that, together with `node`, makes up the channel. */
    function GetOtherNode(node: NodeId): (r: Result<NodeId, Error>)
      reads this
      ensures r.Err? <==> node != nodeA && node != nodeB
      ensures r.Err? ==> r.error == NotPartOfChannel
      ensures r.Ok? ==> multiset{node, r.value} == multiset{nodeA, nodeB}
    {
      State().OtherNode(node)
    }

    /** `calculate_fee` on the channel's current fee parameters. */
    function CalculateFee(amount: int): (r: int)
      reads this
      ensures amount >= 0 ==>
                baseFee <= r && (r - baseFee) * feeRate.den <= amount * feeRate.num < (r - baseFee + 1) * feeRate.den
      ensures amount < 0 ==> r <= baseFee
    {
      State().Fee(amount)
    }

    /** `update_balances`, in place. */
    method UpdateBalances(from: NodeId, amount: int) returns (r: Outcome<Error>)
      modifies this
      ensures r == (if old(State()).IsEndpoint(from) then Pass else Fail(NotPartOfChannel))
      ensures State() == old(State()).Transfer(from, amount).GetOr(old(State()))
    {
      if from == nodeA {
        if balanceA < amount {
          return Pass;
        }
        balanceA := balanceA - amount;
        balanceB := balanceB + amount;
      } else if from == nodeB {
        if balanceB < amount {
          return Pass;
        }
        balanceB := balanceB - amount;
        balanceA := balanceA + amount;
      } else {
        return Fail(NotPartOfChannel);
      }
      return Pass;
    }
  }
}
