/**
 * The channels of a network as a value: a map from channel key to channel
 * state. Routes, their total cost, and the hop-by-hop effect of executing a
 * payment along a route are defined here as functions of a ledger.
 */
module Ledgers {
  import opened Wrappers
  import opened Ids
  import opened Fees
  import opened Channels

  type Ledger = map<Key, ChannelState>

  /** Every channel is stored under its own canonical key. */
  predicate Consistent(l: Ledger) {
    forall k | k in l :: l[k].Key() == k
  }

  predicate AllConserved(l: Ledger) {
    forall k | k in l :: l[k].Conserved()
  }

  predicate AllSolvent(l: Ledger) {
    forall k | k in l :: l[k].Solvent()
  }

  /** Fee parameters under which every fee on a non-negative amount is non-negative. */
  predicate FeesNonNegative(l: Ledger) {
    forall k | k in l :: l[k].baseFee >= 0
  }

  /** Consecutive nodes of `path` share a channel of `l`. */
  predicate Hops(l: Ledger, path: seq<NodeId>) {
    forall i | 0 <= i < |path| - 1 :: KeyOf(path[i], path[i + 1]) in l
  }

  predicate Distinct(path: seq<NodeId>) {
    forall i, j | 0 <= i < j < |path| :: path[i] != path[j]
  }

  /** No hop of `path` uses the channel `k`. */
  predicate OffPath(path: seq<NodeId>, k: Key) {
    forall i | 0 <= i < |path| - 1 :: KeyOf(path[i], path[i + 1]) != k
  }

  lemma HopsSuffix(l: Ledger, path: seq<NodeId>, n: nat)
    requires Hops(l, path) && n <= |path|
    ensures Hops(l, path[n..])
  {
    forall i | 0 <= i < |path[n..]| - 1
      ensures KeyOf(path[n..][i], path[n..][i + 1]) in l
    {
      assert path[n..][i] == path[n + i] && path[n..][i + 1] == path[n + i + 1];
    }
  }

  /** Both ends of a hop are endpoints of the channel the hop uses. */
  lemma HopEndpoints(l: Ledger, u: NodeId, v: NodeId)
    requires Consistent(l) && KeyOf(u, v) in l
    ensures l[KeyOf(u, v)].IsEndpoint(u) && l[KeyOf(u, v)].IsEndpoint(v)
  {
    var st := l[KeyOf(u, v)];
    KeyOfSamePair(st.nodeA, st.nodeB, u, v);
  }

  /** On a path without repeated nodes, different hops use different channels. */
  lemma DistinctHopKeys(path: seq<NodeId>, i: nat, j: nat)
    requires Distinct(path) && i < j < |path| - 1
    ensures KeyOf(path[i], path[i + 1]) != KeyOf(path[j], path[j + 1])
  {
    KeyOfSamePair(path[i], path[i + 1], path[j], path[j + 1]);
  }

  /**
   * The amount that must leave the first node of `path` so that its last
   * node receives `amount`: each node's label is the next node's label plus
   * the fee of their channel on that label.
   */
  function Cost(l: Ledger, path: seq<NodeId>, amount: int): (r: int)
    requires |path| >= 1 && Hops(l, path)
    ensures |path| == 1 ==> r == amount
    ensures |path| >= 2 ==>
              Hops(l, path[1..]) &&
              var next, st := Cost(l, path[1..], amount), l[KeyOf(path[0], path[1])];
              next >= 0 ==> next + st.baseFee <= r && (r - next - st.baseFee) * st.feeRate.den <= next * st.feeRate.num
    decreases |path|
  {
    if |path| == 1 then amount
    else
      HopsSuffix(l, path, 1);
      var next := Cost(l, path[1..], amount);
      next + l[KeyOf(path[0], path[1])].Fee(next)
  }

  /** With non-negative fees no label is below the delivered amount, and labels grow toward the sender. */
  lemma {:induction false} CostAtLeastAmount(l: Ledger, path: seq<NodeId>, amount: int)
    requires |path| >= 1 && Hops(l, path) && FeesNonNegative(l) && amount >= 0
    ensures Cost(l, path, amount) >= amount
    ensures |path| >= 2 ==> Hops(l, path[1..]) && Cost(l, path, amount) >= Cost(l, path[1..], amount)
  {
    if |path| >= 2 {
      HopsSuffix(l, path, 1);
      CostAtLeastAmount(l, path[1..], amount);
      var next := Cost(l, path[1..], amount);
      var st := l[KeyOf(path[0], path[1])];
      FeeAtLeastBase(st.baseFee, st.feeRate, next);
    }
  }

  /**
   * The check the search made for each hop: the sending node's side could
   * forward the label of the node after it.
   */
  predicate Forwardable(l: Ledger, path: seq<NodeId>, amount: int)
    requires |path| >= 1 && Hops(l, path)
  {
    forall i | 0 <= i < |path| - 1 ::
      HopsSuffix(l, path, i + 1);
      l[KeyOf(path[i], path[i + 1])].CanForward(path[i], Cost(l, path[i + 1..], amount)) == Ok(true)
  }

  /** A walk from `from` to `to` along channels of `l` that passes the search's checks. */
  predicate Viable(l: Ledger, path: seq<NodeId>, from: NodeId, to: NodeId, amount: int) {
    && |path| >= 1
    && path[0] == from
    && path[|path| - 1] == to
    && Hops(l, path)
    && Forwardable(l, path, amount)
  }

  /** Two ledgers that differ at most in balances and fee counters. */
  predicate SameShape(l: Ledger, l': Ledger) {
    && l'.Keys == l.Keys
    && forall k | k in l ::
         l'[k].(balanceA := l[k].balanceA, balanceB := l[k].balanceB, feeEarned := l[k].feeEarned) == l[k]
  }

  /** Costs only depend on the fee parameters, so balances and counters do not change them. */
  lemma {:induction false} CostSameShape(l: Ledger, l': Ledger, path: seq<NodeId>, amount: int)
    requires SameShape(l, l') && |path| >= 1 && Hops(l, path)
    ensures Hops(l', path) && Cost(l', path, amount) == Cost(l, path, amount)
  {
    if |path| >= 2 {
      HopsSuffix(l, path, 1);
      CostSameShape(l, l', path[1..], amount);
      var k := KeyOf(path[0], path[1]);
      assert l'[k].baseFee == l[k].baseFee && l'[k].feeRate == l[k].feeRate;
    }
  }

  /**
   * One iteration of the execution loop on the channel of a hop: recompute
   * the fee on the amount that must arrive, move amount plus fee from the
   * sending side (or nothing, silently, when that side is short), and add
   * the fee to the channel's counter whether or not anything moved.
   */
  function Hop(st: ChannelState, sender: NodeId, amount: int): (r: (ChannelState, int))
    requires st.IsEndpoint(sender)
    ensures r.1 - amount == st.Fee(amount) && r.0.feeEarned == st.feeEarned + (r.1 - amount)
    ensures r.0.(balanceA := st.balanceA, balanceB := st.balanceB, feeEarned := st.feeEarned) == st
    ensures r.0.balanceA + r.0.balanceB == st.balanceA + st.balanceB
    ensures st.SideOf(sender) >= r.1 ==> r.0.SideOf(sender) == st.SideOf(sender) - r.1
    ensures st.SideOf(sender) < r.1 ==> r.0.balanceA == st.balanceA && r.0.balanceB == st.balanceB
  {
    var fee := st.Fee(amount);
    var moved := st.Transfer(sender, amount + fee).value;
    (moved.(feeEarned := moved.feeEarned + fee), amount + fee)
  }

  /**
   * The effect of executing a payment of `amount` along `path`: hops are
   * processed from the receiver end back to the sender, each on the state
   * the later hops left behind. Returns the new ledger and the amount that
   * left the sender.
   */
  function Walk(l: Ledger, path: seq<NodeId>, amount: int): (r: (Ledger, int))
    requires |path| >= 1 && Consistent(l) && Hops(l, path)
    ensures SameShape(l, r.0) && Consistent(r.0)
    decreases |path|
  {
    if |path| == 1 then (l, amount)
    else
      HopsSuffix(l, path, 1);
      var (l1, arriving) := Walk(l, path[1..], amount);
      var k := KeyOf(path[0], path[1]);
      HopEndpoints(l1, path[0], path[1]);
      var (st, leaving) := Hop(l1[k], path[0], arriving);
      (l1[k := st], leaving)
  }

  /** The amount execution sends out of the sender is the cost the search computed. */
  lemma {:induction false} WalkCost(l: Ledger, path: seq<NodeId>, amount: int)
    requires |path| >= 1 && Consistent(l) && Hops(l, path)
    ensures Walk(l, path, amount).1 == Cost(l, path, amount)
  {
    if |path| >= 2 {
      HopsSuffix(l, path, 1);
      WalkCost(l, path[1..], amount);
      CostSameShape(l, Walk(l, path[1..], amount).0, path[1..], amount);
    }
  }

  /** Channels that no hop uses come out of the walk unchanged. */
  lemma {:induction false} WalkOffPath(l: Ledger, path: seq<NodeId>, amount: int, k: Key)
    requires |path| >= 1 && Consistent(l) && Hops(l, path) && k in l && OffPath(path, k)
    ensures Walk(l, path, amount).0[k] == l[k]
  {
    if |path| >= 2 {
      HopsSuffix(l, path, 1);
      assert OffPath(path[1..], k) by {
        forall i | 0 <= i < |path[1..]| - 1
          ensures KeyOf(path[1..][i], path[1..][i + 1]) != k
        {
          assert path[1..][i] == path[i + 1] && path[1..][i + 1] == path[i + 2];
        }
      }
      WalkOffPath(l, path[1..], amount, k);
    }
  }

  /** The first hop of a walk is applied to the ledger that the rest of the walk left behind. */
  lemma WalkFirst(l: Ledger, path: seq<NodeId>, amount: int)
    requires |path| >= 2 && Consistent(l) && Hops(l, path)
    ensures Hops(l, path[1..]) && KeyOf(path[0], path[1]) in Walk(l, path[1..], amount).0
    ensures Walk(l, path[1..], amount).0[KeyOf(path[0], path[1])].IsEndpoint(path[0])
    ensures Walk(l, path, amount).0
            == Walk(l, path[1..], amount).0[KeyOf(path[0], path[1]) :=
                 Hop(Walk(l, path[1..], amount).0[KeyOf(path[0], path[1])], path[0], Walk(l, path[1..], amount).1).0]
    ensures Walk(l, path, amount).1
            == Hop(Walk(l, path[1..], amount).0[KeyOf(path[0], path[1])], path[0], Walk(l, path[1..], amount).1).1
  {
    HopsSuffix(l, path, 1);
    HopEndpoints(Walk(l, path[1..], amount).0, path[0], path[1]);
  }

  /** On a path without repeated nodes, the rest of the path never uses the first hop's channel. */
  lemma FirstHopOffRest(path: seq<NodeId>)
    requires |path| >= 2 && Distinct(path)
    ensures OffPath(path[1..], KeyOf(path[0], path[1]))
  {
    forall j | 0 <= j < |path[1..]| - 1
      ensures KeyOf(path[1..][j], path[1..][j + 1]) != KeyOf(path[0], path[1])
    {
      DistinctHopKeys(path, 0, j + 1);
    }
  }

  /**
   * On a path without repeated nodes, each hop's channel ends up as that
   * hop applied to its original state, with the label of the node after it.
   */
  lemma {:induction false} WalkHop(l: Ledger, path: seq<NodeId>, amount: int, i: nat)
    requires |path| >= 1 && Consistent(l) && Hops(l, path) && Distinct(path) && i < |path| - 1
    ensures Hops(l, path[i + 1..]) && l[KeyOf(path[i], path[i + 1])].IsEndpoint(path[i])
    ensures Walk(l, path, amount).0[KeyOf(path[i], path[i + 1])]
            == Hop(l[KeyOf(path[i], path[i + 1])], path[i], Cost(l, path[i + 1..], amount)).0
  {
    HopsSuffix(l, path, i + 1);
    HopEndpoints(l, path[i], path[i + 1]);
    WalkFirst(l, path, amount);
    var tail := path[1..];
    WalkCost(l, tail, amount);
    if i == 0 {
      FirstHopOffRest(path);
      WalkOffPath(l, tail, amount, KeyOf(path[0], path[1]));
    } else {
      assert Distinct(tail);
      assert tail[i - 1] == path[i] && tail[i] == path[i + 1] && tail[i..] == path[i + 1..];
      WalkHop(l, tail, amount, i - 1);
      DistinctHopKeys(path, 0, i);
    }
  }

  /** Execution keeps every channel's capacity invariant. */
  lemma {:induction false} WalkConserves(l: Ledger, path: seq<NodeId>, amount: int)
    requires |path| >= 1 && Consistent(l) && Hops(l, path) && AllConserved(l)
    ensures AllConserved(Walk(l, path, amount).0)
  {
    if |path| >= 2 {
      HopsSuffix(l, path, 1);
      WalkConserves(l, path[1..], amount);
      var l1 := Walk(l, path[1..], amount).0;
      HopEndpoints(l1, path[0], path[1]);
    }
  }

  /** With non-negative fees and amount, execution never overdraws a side and never lowers a fee counter. */
  lemma {:induction false} WalkSolvent(l: Ledger, path: seq<NodeId>, amount: int)
    requires |path| >= 1 && Consistent(l) && Hops(l, path)
    requires AllSolvent(l) && FeesNonNegative(l) && amount >= 0
    ensures AllSolvent(Walk(l, path, amount).0)
    ensures forall k | k in l :: Walk(l, path, amount).0[k].feeEarned >= l[k].feeEarned
  {
    if |path| >= 2 {
      HopsSuffix(l, path, 1);
      WalkSolvent(l, path[1..], amount);
      var (l1, arriving) := Walk(l, path[1..], amount);
      WalkCost(l, path[1..], amount);
      CostAtLeastAmount(l, path[1..], amount);
      var k := KeyOf(path[0], path[1]);
      HopEndpoints(l1, path[0], path[1]);
      FeeAtLeastBase(l1[k].baseFee, l1[k].feeRate, arriving);
      TransferSolvent(l1[k], path[0], arriving + l1[k].Fee(arriving));
    }
  }

  /** The fees charged hop by hop along `path`, each on the label of the node after it. */
  function HopFees(l: Ledger, path: seq<NodeId>, amount: int): int
    requires |path| >= 1 && Hops(l, path)
    decreases |path|
  {
    if |path| == 1 then 0
    else
      HopsSuffix(l, path, 1);
      l[KeyOf(path[0], path[1])].Fee(Cost(l, path[1..], amount)) + HopFees(l, path[1..], amount)
  }

  /** The total cost is the delivered amount plus the sum of the per-hop fees. */
  lemma {:induction false} CostIsAmountPlusFees(l: Ledger, path: seq<NodeId>, amount: int)
    requires |path| >= 1 && Hops(l, path)
    ensures Cost(l, path, amount) == amount + HopFees(l, path, amount)
  {
    if |path| >= 2 {
      HopsSuffix(l, path, 1);
      CostIsAmountPlusFees(l, path[1..], amount);
    }
  }

  /** How much the fee counters of the channels along `path` grew from `l` to `l'`. */
  function Earned(l: Ledger, l': Ledger, path: seq<NodeId>): int
    requires |path| >= 1 && Hops(l, path) && l'.Keys == l.Keys
    decreases |path|
  {
    if |path| == 1 then 0
    else
      HopsSuffix(l, path, 1);
      var k := KeyOf(path[0], path[1]);
      (l'[k].feeEarned - l[k].feeEarned) + Earned(l, l', path[1..])
  }

  lemma {:induction false} EarnedMatchesHopFees(l: Ledger, path: seq<NodeId>, amount: int, n: nat)
    requires |path| >= 1 && Consistent(l) && Hops(l, path) && Distinct(path) && n < |path|
    ensures Hops(l, path[n..])
    ensures Earned(l, Walk(l, path, amount).0, path[n..]) == HopFees(l, path[n..], amount)
    decreases |path| - n
  {
    HopsSuffix(l, path, n);
    var s := path[n..];
    if |s| >= 2 {
      HopsSuffix(l, path, n + 1);
      assert s[1..] == path[n + 1..];
      EarnedMatchesHopFees(l, path, amount, n + 1);
      WalkHop(l, path, amount, n);
      assert s[0] == path[n] && s[1] == path[n + 1];
    }
  }

  /**
   * The fees the payment reports, `total_cost - amount`, are exactly what
   * the fee counters of the path's channels gained.
   */
  lemma WalkFeesEarned(l: Ledger, path: seq<NodeId>, amount: int)
    requires |path| >= 1 && Consistent(l) && Hops(l, path) && Distinct(path)
    ensures Earned(l, Walk(l, path, amount).0, path) == Cost(l, path, amount) - amount
  {
    EarnedMatchesHopFees(l, path, amount, 0);
    assert path[0..] == path;
    CostIsAmountPlusFees(l, path, amount);
  }
}
