/**
 * The network: the nodes by id and the channels by their sorted pair of
 * endpoint ids. Node and channel objects are shared: a channel object is
 * reachable from the network's channel map and from the channel maps of
 * both of its endpoints, so an update through one is seen through all.
 */
module Networks {
  import opened Wrappers
  import opened Errors
  import opened Ids
  import opened Fees
  import opened Channels
  import opened Nodes
  import opened Ledgers
  import opened Routing

  /** Each node's channel map, by node id. */
  type Wiring = map<NodeId, map<NodeId, Channel>>

  /** Every node is stored under its own id. */
  ghost predicate Named(nodes: map<NodeId, Node>) {
    forall u | u in nodes :: nodes[u].id == u
  }

  /** Every channel is stored under the sorted pair of its endpoints, which are nodes. */
  ghost predicate Keyed(nodes: map<NodeId, Node>, channels: map<Key, Channel>) {
    forall k | k in channels ::
      && channels[k].id == k && KeyOf(channels[k].nodeA, channels[k].nodeB) == k
      && channels[k].nodeA in nodes && channels[k].nodeB in nodes
  }

  /** A node's channel to a neighbour is the network's channel for that pair. */
  ghost predicate Filing(nodes: map<NodeId, Node>, channels: map<Key, Channel>, w: Wiring) {
    && w.Keys == nodes.Keys
    && forall u, v | u in w && v in w[u] :: v in nodes && KeyOf(u, v) in channels && w[u][v] == channels[KeyOf(u, v)]
  }

  /** Every channel is known to both of its ends. */
  ghost predicate Complete(nodes: map<NodeId, Node>, channels: map<Key, Channel>, w: Wiring)
    requires w.Keys == nodes.Keys
  {
    forall u, v | u in nodes && v in nodes && KeyOf(u, v) in channels :: v in w[u]
  }

  /**
   * How the objects hang together, given each node's channel map `w`.
   */
  ghost predicate Wired(nodes: map<NodeId, Node>, channels: map<Key, Channel>, w: Wiring) {
    Named(nodes) && Keyed(nodes, channels) && Filing(nodes, channels, w) && Complete(nodes, channels, w)
  }

  /** A channel's key names two nodes of the network. */
  lemma EndpointsKnown(nodes: map<NodeId, Node>, channels: map<Key, Channel>, u: NodeId, v: NodeId)
    requires Keyed(nodes, channels) && KeyOf(u, v) in channels
    ensures u in nodes && v in nodes
  {
    var c := channels[KeyOf(u, v)];
    KeyOfSamePair(c.nodeA, c.nodeB, u, v);
  }

  /** A node's channel map after `c` has been filed with both endpoints, seen from node `u`. */
  function Filed(m: map<NodeId, Channel>, u: NodeId, c: Channel): (m': map<NodeId, Channel>)
    ensures u == c.nodeA || u == c.nodeB ==> m'.Keys == m.Keys + {if u == c.nodeA then c.nodeB else c.nodeA}
    ensures u != c.nodeA && u != c.nodeB ==> m' == m
  {
    if u == c.nodeA then m[c.nodeB := c] else if u == c.nodeB then m[c.nodeA := c] else m
  }

  /** Every node's channel map after `c` has been filed with both endpoints. */
  function Joined(w: Wiring, c: Channel): (w': Wiring)
    requires c.nodeA in w && c.nodeB in w
    ensures w'.Keys == w.Keys
  {
    var w1 := w[c.nodeA := Filed(w[c.nodeA], c.nodeA, c)];
    w1[c.nodeB := Filed(w1[c.nodeB], c.nodeB, c)]
  }

  /** A channel the network does not have is in neither end's channel map. */
  lemma NotYetFiled(nodes: map<NodeId, Node>, channels: map<Key, Channel>, w: Wiring, c: Channel)
    requires Filing(nodes, channels, w)
    requires c.nodeA in nodes && c.nodeB in nodes && c.id == KeyOf(c.nodeA, c.nodeB) && c.id !in channels
    ensures c.nodeB !in w[c.nodeA] && c.nodeA !in w[c.nodeB]
  {
    KeyOfSymmetric(c.nodeA, c.nodeB);
  }

  /** Filing with the second end changes nothing more for a channel from a node to itself. */
  lemma JoinedSteps(w: Wiring, c: Channel)
    requires c.nodeA in w && c.nodeB in w
    ensures var w1 := w[c.nodeA := Filed(w[c.nodeA], c.nodeA, c)];
            Joined(w, c) == if c.nodeA == c.nodeB then w1 else w1[c.nodeB := Filed(w[c.nodeB], c.nodeB, c)]
  {
    var w1 := w[c.nodeA := Filed(w[c.nodeA], c.nodeA, c)];
    if c.nodeA == c.nodeB {
      assert Filed(w1[c.nodeA], c.nodeA, c) == w1[c.nodeA];
    }
  }

  /** A new node without channels keeps the objects hanging together. */
  lemma AddNodeKeepsWired(nodes: map<NodeId, Node>, channels: map<Key, Channel>, w: Wiring, n: Node)
    requires Wired(nodes, channels, w) && n.id !in nodes
    ensures Wired(nodes[n.id := n], channels, w[n.id := map[]])
  {
    forall u, v | u in nodes[n.id := n] && v in nodes[n.id := n] && KeyOf(u, v) in channels
      ensures v in w[n.id := map[]][u]
    {
      EndpointsKnown(nodes, channels, u, v);
    }
  }

  lemma RegisterKeepsKeyed(nodes: map<NodeId, Node>, channels: map<Key, Channel>, c: Channel)
    requires Keyed(nodes, channels)
    requires c.nodeA in nodes && c.nodeB in nodes && c.id == KeyOf(c.nodeA, c.nodeB)
    ensures Keyed(nodes, channels[c.id := c])
  {
  }

  lemma RegisterKeepsFiling(nodes: map<NodeId, Node>, channels: map<Key, Channel>, w: Wiring, c: Channel)
    requires Filing(nodes, channels, w)
    requires c.nodeA in nodes && c.nodeB in nodes && c.id == KeyOf(c.nodeA, c.nodeB) && c.id !in channels
    ensures Filing(nodes, channels[c.id := c], Joined(w, c))
  {
    var w', channels' := Joined(w, c), channels[c.id := c];
    KeyOfSymmetric(c.nodeA, c.nodeB);
    forall u, v | u in w' && v in w'[u]
      ensures v in nodes && KeyOf(u, v) in channels' && w'[u][v] == channels'[KeyOf(u, v)]
    {
      if (u == c.nodeA && v == c.nodeB) || (u == c.nodeB && v == c.nodeA) {
      } else {
        assert v in w[u];
      }
    }
  }

  lemma RegisterKeepsComplete(nodes: map<NodeId, Node>, channels: map<Key, Channel>, w: Wiring, c: Channel)
    requires w.Keys == nodes.Keys && Complete(nodes, channels, w)
    requires c.nodeA in nodes && c.nodeB in nodes && c.id == KeyOf(c.nodeA, c.nodeB)
    ensures Complete(nodes, channels[c.id := c], Joined(w, c))
  {
    var w', channels' := Joined(w, c), channels[c.id := c];
    forall u, v | u in nodes && v in nodes && KeyOf(u, v) in channels'
      ensures v in w'[u]
    {
      KeyOfSamePair(u, v, c.nodeA, c.nodeB);
    }
  }

  /** Filing a new channel with the network and with both of its ends keeps the objects hanging together. */
  lemma RegisterKeepsWired(nodes: map<NodeId, Node>, channels: map<Key, Channel>, w: Wiring, c: Channel)
    requires Wired(nodes, channels, w)
    requires c.nodeA in nodes && c.nodeB in nodes && c.id == KeyOf(c.nodeA, c.nodeB) && c.id !in channels
    ensures Wired(nodes, channels[c.id := c], Joined(w, c))
  {
    RegisterKeepsKeyed(nodes, channels, c);
    RegisterKeepsFiling(nodes, channels, w, c);
    RegisterKeepsComplete(nodes, channels, w, c);
  }

  /**
   * What one `execute_payment` did, as a relation between the ledgers before
   * (`l`) and after (`l'`): on success the payment went along `path`, a
   * cheapest viable walk without repeated nodes, and `fees` is its cost minus
   * the amount; on failure nothing changed and, when both ends exist, no
   * viable walk joins them.
   */
  ghost predicate Settles(l: Ledger, l': Ledger, nodes: set<NodeId>, from: NodeId, to: NodeId, amount: int,
                          path: seq<NodeId>, success: bool, fees: int)
  {
    if success then
      && from in nodes && to in nodes && Consistent(l)
      && Distinct(path) && Viable(l, path, from, to, amount)
      && (forall p | Viable(l, p, from, to, amount) :: Cost(l, path, amount) <= Cost(l, p, amount))
      && fees == Cost(l, path, amount) - amount
      && l' == Walk(l, path, amount).0
    else
      && fees == 0 && l' == l
      && (from in nodes && to in nodes ==> forall p :: !Viable(l, p, from, to, amount))
  }

  /** A successful payment along a cheapest viable walk settles. */
  lemma SettlesOnSuccess(l: Ledger, l': Ledger, nodes: set<NodeId>, from: NodeId, to: NodeId, amount: int,
                         path: seq<NodeId>, fees: int)
    requires from in nodes && to in nodes && Consistent(l) && Distinct(path) && Viable(l, path, from, to, amount)
    requires forall p | Viable(l, p, from, to, amount) :: Cost(l, path, amount) <= Cost(l, p, amount)
    requires fees == Cost(l, path, amount) - amount && l' == Walk(l, path, amount).0
    ensures Settles(l, l', nodes, from, to, amount, path, true, fees)
  {
  }

  /** Balances and fee counters do not decide whether fees are non-negative. */
  lemma SameShapeFees(l: Ledger, l': Ledger)
    requires SameShape(l, l') && FeesNonNegative(l)
    ensures FeesNonNegative(l')
  {
    forall k | k in l'
      ensures l'[k].baseFee >= 0
    {
      assert l'[k].baseFee == l'[k].(balanceA := l[k].balanceA, balanceB := l[k].balanceB, feeEarned := l[k].feeEarned).baseFee;
    }
  }

  /** Adding a channel whose balances add up keeps every channel's balances adding up. */
  lemma ConservedAfterAdd(l: Ledger, k: Key, st: ChannelState)
    requires AllConserved(l) && st.Conserved()
    ensures AllConserved(l[k := st])
  {
  }

  class Network {
    var nodes: map<NodeId, Node>
    var channels: map<Key, Channel>

    /** Every node's channel map, by node id. */
    function Wiring(): (w: Wiring)
      reads this`nodes, nodes.Values
      ensures w.Keys == nodes.Keys
    {
      map u | u in nodes :: nodes[u].channels
    }

    /** The state of every channel, by key. */
    function Ledger(): (l: Ledgers.Ledger)
      reads this`channels, channels.Values
      ensures l.Keys == channels.Keys
    {
      map k | k in channels :: channels[k].State()
    }

    /** The objects hang together and every channel's balances add up to its capacity. */
    ghost predicate Valid()
      reads this, nodes.Values, channels.Values
    {
      Wired(nodes, channels, Wiring()) && AllConserved(Ledger())
    }

    /** Every channel charges a non-negative base fee. */
    ghost predicate NonNegativeFees()
      reads this`channels, channels.Values
    {
      FeesNonNegative(Ledger())
    }

    /** What `find_path` reads: each node's neighbours and each channel's state. */
    function View(): Graph
      reads this, nodes.Values, channels.Values
    {
      var w := Wiring();
      Graph(map u | u in w :: w[u].Keys, Ledger())
    }

    /** The view of a valid network is a well-formed graph over the same nodes and channels. */
    lemma ViewWellFormed()
      requires Valid()
      ensures View().WellFormed() && View().adj.Keys == nodes.Keys && View().ledger == Ledger()
    {
      var g, w := View(), Wiring();
      forall k | k in g.ledger
        ensures g.ledger[k].Key() == k && k.lo in g.adj && k.hi in g.adj
      {
        var c := channels[k];
        KeyOfSamePair(c.nodeA, c.nodeB, k.lo, k.hi);
      }
      forall u, v | u in g.adj && v in g.adj
        ensures v in g.adj[u] <==> KeyOf(u, v) in g.ledger
      {
      }
    }

    /** `get_neighbors`: in a valid network, the neighbours of `u` are the nodes it shares a channel with. */
    lemma NeighborsAreChannels(u: NodeId, v: NodeId)
      requires Valid() && u in nodes
      ensures v in nodes[u].Neighbors() <==> KeyOf(u, v) in channels
    {
      assert nodes[u].channels == Wiring()[u];
      if KeyOf(u, v) in channels {
        EndpointsKnown(nodes, channels, u, v);
      }
    }

    constructor ()
      ensures Valid() && nodes == map[] && channels == map[]
    {
      nodes := map[];
      channels := map[];
    }

    /** `add_node`: a fresh node without channels, refused when the id is taken. */
    method AddNode(id: NodeId) returns (r: Result<Node, Error>)
      requires Valid()
      modifies this`nodes
      ensures Valid()
      ensures id in old(nodes) ==> r == Err(NodeExists) && nodes == old(nodes)
      ensures id !in old(nodes) ==>
                && r.Ok? && fresh(r.value) && r.value.id == id && r.value.channels == map[]
                && nodes == old(nodes)[id := r.value]
    {
      if id in nodes {
        return Err(NodeExists);
      }
      ghost var w := Wiring();
      var node := new Node(id);
      AddNodeKeepsWired(nodes, channels, w, node);
      nodes := nodes[id := node];
      assert Wiring() == w[id := map[]];
      return Ok(node);
    }

    /**
     * `add_channel`: refused when an end is missing, when the pair already has
     * a channel or when the balances do not add up to the capacity; otherwise
     * the channel is registered with the network and with both ends. For a
     * channel from a node to itself the network and the node register it
     * before the second registration fails.
     */
    method AddChannel(a: NodeId, b: NodeId, capacity: int, balanceA: int, balanceB: int,
                      baseFee: int, feeRate: Rate) returns (r: Result<Channel, Error>)
      requires Valid()
      modifies this`channels, nodes.Values
      ensures Valid() && nodes == old(nodes)
      ensures a !in nodes || b !in nodes ==> r == Err(MissingNode)
      ensures a in nodes && b in nodes && KeyOf(a, b) in old(channels) ==> r == Err(ChannelExists)
      ensures a in nodes && b in nodes && KeyOf(a, b) !in old(channels) && balanceA + balanceB != capacity ==>
                r == Err(BalanceMismatch)
      ensures a in nodes && b in nodes && KeyOf(a, b) !in old(channels) && balanceA + balanceB == capacity ==>
                KeyOf(a, b) in channels && r == (if a != b then Ok(channels[KeyOf(a, b)]) else Err(NeighbourExists))
      ensures r.Err? && r.error != NeighbourExists ==>
                channels == old(channels) && Ledger() == old(Ledger()) && Wiring() == old(Wiring())
      ensures (r.Ok? || r == Err(NeighbourExists)) ==>
                && a in nodes && b in nodes && KeyOf(a, b) !in old(channels) && balanceA + balanceB == capacity
                && KeyOf(a, b) in channels && fresh(channels[KeyOf(a, b)])
                && channels == old(channels)[KeyOf(a, b) := channels[KeyOf(a, b)]]
                && Ledger() == old(Ledger())[KeyOf(a, b) := ChannelState(a, b, capacity, balanceA, balanceB, baseFee, feeRate, 0)]
                && Wiring() == Joined(old(Wiring()), channels[KeyOf(a, b)])
                && (r.Ok? <==> a != b)
                && (r.Ok? ==> r.value == channels[KeyOf(a, b)])
    {
      if a !in nodes || b !in nodes {
        return Err(MissingNode);
      }
      var key := KeyOf(a, b);
      if key in channels {
        return Err(ChannelExists);
      }
      r := Create(a, b, capacity, balanceA, balanceB, baseFee, feeRate);
    }

    /** Lines 224-228 of `add_channel`, once both ends exist and the pair has no channel yet. */
    method Create(a: NodeId, b: NodeId, capacity: int, balanceA: int, balanceB: int,
                  baseFee: int, feeRate: Rate) returns (r: Result<Channel, Error>)
      requires Valid() && a in nodes && b in nodes && KeyOf(a, b) !in channels
      modifies this`channels, nodes.Values
      ensures Valid() && nodes == old(nodes)
      ensures balanceA + balanceB != capacity ==>
                r == Err(BalanceMismatch) && channels == old(channels) && Ledger() == old(Ledger()) && Wiring() == old(Wiring())
      ensures balanceA + balanceB == capacity ==>
                && (r.Ok? || r == Err(NeighbourExists))
                && KeyOf(a, b) in channels && fresh(channels[KeyOf(a, b)])
                && channels == old(channels)[KeyOf(a, b) := channels[KeyOf(a, b)]]
                && Ledger() == old(Ledger())[KeyOf(a, b) := ChannelState(a, b, capacity, balanceA, balanceB, baseFee, feeRate, 0)]
                && Wiring() == Joined(old(Wiring()), channels[KeyOf(a, b)])
                && (r.Ok? <==> a != b)
                && (r.Ok? ==> r.value == channels[KeyOf(a, b)])
    {
      ghost var l, w := Ledger(), Wiring();
      var made := Channel.Open(a, b, capacity, balanceA, balanceB, baseFee, feeRate, KeyOf(a, b));
      assert Ledger() == l && Wiring() == w;
      if made.Err? {
        return Err(made.error);
      }
      var c := made.value;
      var registered := Register(c);
      if registered.Fail? {
        return Err(registered.error);
      }
      return Ok(c);
    }

    /**
     * `node.add_channel(channel)` on the node `x`: the channel is filed under
     * its other endpoint unless that neighbour already has one.
     */
    method Attach(x: NodeId, c: Channel) returns (r: Outcome<Error>)
      requires x in nodes && Named(nodes) && (c.nodeA == x || c.nodeB == x)
      modifies nodes[x]
      ensures nodes == old(nodes) && channels == old(channels)
      ensures Ledger() == old(Ledger()) && c.State() == old(c.State())
      ensures var other := if c.nodeA == x then c.nodeB else c.nodeA;
              if other in old(nodes[x].channels) then r == Fail(NeighbourExists) && Wiring() == old(Wiring())
              else r == Pass && Wiring() == old(Wiring())[x := Filed(old(nodes[x].channels), x, c)]
    {
      r := nodes[x].AddChannel(c);
    }

    /** `self.channels[key] = channel`. */
    method File(c: Channel)
      modifies this`channels
      ensures channels == old(channels)[c.id := c]
      ensures Ledger() == old(Ledger())[c.id := c.State()] && Wiring() == old(Wiring())
    {
      channels := channels[c.id := c];
    }

    /**
     * Lines 225-227 of `add_channel`: file the new channel with the network,
     * then with its first and its second endpoint.
     */
    method Register(c: Channel) returns (r: Outcome<Error>)
      requires Valid() && c.State().Conserved()
      requires c.nodeA in nodes && c.nodeB in nodes && c.id == KeyOf(c.nodeA, c.nodeB) && c.id !in channels
      modifies this`channels, nodes.Values
      ensures Valid() && nodes == old(nodes)
      ensures r == (if c.nodeA == c.nodeB then Fail(NeighbourExists) else Pass)
      ensures channels == old(channels)[c.id := c]
      ensures Ledger() == old(Ledger())[c.id := c.State()] && c.State() == old(c.State())
      ensures Wiring() == Joined(old(Wiring()), c)
    {
      ghost var w, l := Wiring(), Ledger();
      RegisterKeepsWired(nodes, channels, w, c);
      ConservedAfterAdd(l, c.id, c.State());
      NotYetFiled(nodes, channels, w, c);
      File(c);
      KeyOfSymmetric(c.nodeA, c.nodeB);
      r := Attach(c.nodeA, c);
      r := Attach(c.nodeB, c);
      JoinedSteps(w, c);
    }

    /**
     * `find_path`: reads the network and changes nothing; the answer is the
     * cheapest viable route, `None` when an end is missing or no walk is
     * viable, and the one-node route for a payment to oneself.
     */
    method FindPath(from: NodeId, to: NodeId, amount: int) returns (r: Option<Route>)
      requires Valid() && NonNegativeFees() && amount >= 0
      ensures from !in nodes || to !in nodes ==> r == None
      ensures from in nodes && from == to ==> r == Some(Route([from], amount))
      ensures r.Some? ==>
                && from in nodes && to in nodes && Consistent(Ledger())
                && Distinct(r.value.path) && Viable(Ledger(), r.value.path, from, to, amount)
                && r.value.totalCost == Cost(Ledger(), r.value.path, amount)
                && forall p | Viable(Ledger(), p, from, to, amount) :: r.value.totalCost <= Cost(Ledger(), p, amount)
      ensures r.None? && from in nodes && to in nodes ==> forall p :: !Viable(Ledger(), p, from, to, amount)
    {
      ViewWellFormed();
      r := Search(View(), from, to, amount);
    }

    /** The states of the channels did not change. */
    twostate lemma LedgerKept()
      requires old(channels) == channels
      requires forall k | k in channels :: old(channels[k].State()) == channels[k].State()
      ensures Ledger() == old(Ledger())
    {
    }

    /** The ledger after the state of the channel under `k`, and of no other channel, changed. */
    twostate lemma LedgerAfterOne(k: Key)
      requires old(channels) == channels && k in channels
      requires forall k' | k' in channels && k' != k :: old(channels[k'].State()) == channels[k'].State()
      ensures Ledger() == old(Ledger())[k := channels[k].State()]
    {
    }

    /** Nothing the network holds changed: neither its maps nor any node or channel object. */
    twostate lemma Untouched()
      requires unchanged(this)
      requires forall u | u in nodes :: unchanged(nodes[u])
      requires forall k | k in channels :: unchanged(channels[k])
      ensures Ledger() == old(Ledger()) && Wiring() == old(Wiring())
      ensures old(Valid()) ==> Valid()
      ensures old(NonNegativeFees()) ==> NonNegativeFees()
    {
      LedgerKept();
      WiringKept();
    }

    /**
     * `change_fee` through the channel map of `u` rewrites the fee parameters
     * of the one channel object that `u`, `v` and the network share: the
     * network sees the new parameters under the pair's key and nothing else
     * changes.
     */
    twostate lemma FeeChanged(u: NodeId, v: NodeId, baseFee: int, rate: Rate)
      requires old(Valid()) && unchanged(this) && u in nodes
      requires forall x | x in nodes :: unchanged(nodes[x])
      requires v in nodes[u].channels
      requires forall k | k in channels && channels[k] != nodes[u].channels[v] :: unchanged(channels[k])
      requires nodes[u].channels[v].State() == old(nodes[u].channels[v].State()).(baseFee := baseFee, feeRate := rate)
      ensures KeyOf(u, v) in channels && Valid() && Wiring() == old(Wiring())
      ensures Ledger() == old(Ledger())[KeyOf(u, v) := old(Ledger())[KeyOf(u, v)].(baseFee := baseFee, feeRate := rate)]
    {
      WiringKept();
      var k := KeyOf(u, v);
      assert nodes[u].channels == Wiring()[u];
      assert channels[k] == nodes[u].channels[v];
      forall k' | k' in channels && k' != k
        ensures old(channels[k'].State()) == channels[k'].State()
      {
        assert channels[k'].id != channels[k].id;
      }
      LedgerAfterOne(k);
    }

    /** The channel maps of the nodes did not change. */
    twostate lemma WiringKept()
      requires old(nodes) == nodes
      requires forall u | u in nodes :: old(nodes[u].channels) == nodes[u].channels
      ensures Wiring() == old(Wiring())
    {
    }

    /**
     * One iteration of the loop of `execute_payment`: the fee on `current`,
     * the transfer of `current` plus that fee out of `sender`'s side of the
     * channel to `receiver`, and the fee added to the channel's counter.
     */
    method PayHop(sender: NodeId, receiver: NodeId, current: int) returns (forwarded: int)
      requires Keyed(nodes, channels) && KeyOf(sender, receiver) in channels
      requires Ledger()[KeyOf(sender, receiver)].IsEndpoint(sender)
      modifies channels[KeyOf(sender, receiver)]
      ensures Ledger() == old(Ledger())[KeyOf(sender, receiver) :=
                Hop(old(Ledger())[KeyOf(sender, receiver)], sender, current).0]
      ensures forwarded == Hop(old(Ledger())[KeyOf(sender, receiver)], sender, current).1
      ensures nodes == old(nodes) && channels == old(channels) && Wiring() == old(Wiring())
    {
      var channel := channels[KeyOf(sender, receiver)];
      ghost var st := channel.State();
      assert st == old(Ledger())[KeyOf(sender, receiver)];
      var fee := channel.CalculateFee(current);
      forwarded := current + fee;
      var _ := channel.UpdateBalances(sender, forwarded);
      assert channel.State() == st.Transfer(sender, forwarded).value;
      channel.feeEarned := channel.feeEarned + fee;
      assert channel.State() == Hop(st, sender, current).0;
      WiringKept();
      LedgerAfterOne(KeyOf(sender, receiver));
    }

    /**
     * The loop of `execute_payment`: the hops of `route` from the receiver end
     * back to the sender, each on the amount the later hops forwarded.
     */
    method PayAlong(route: seq<NodeId>, amount: int)
      requires Keyed(nodes, channels) && |route| >= 1 && Consistent(Ledger()) && Hops(Ledger(), route)
      modifies channels.Values
      ensures nodes == old(nodes) && channels == old(channels) && Wiring() == old(Wiring())
      ensures Ledger() == Walk(old(Ledger()), route, amount).0
    {
      ghost var l0 := Ledger();
      var current := amount;
      var i := |route| - 1;
      while i > 0
        invariant 0 <= i < |route| && Hops(l0, route[i..])
        invariant nodes == old(nodes) && channels == old(channels) && Wiring() == old(Wiring())
        invariant (Ledger(), current) == Walk(l0, route[i..], amount)
        decreases i
      {
        WalkFirst(l0, route[i - 1..], amount);
        assert route[i - 1..][1..] == route[i..];
        current := PayHop(route[i - 1], route[i], current);
        i := i - 1;
      }
      assert route[0..] == route;
    }

    /**
     * `execute_payment`: find a route, then walk it from the receiver end back
     * to the sender, hop by hop; reports success and `total_cost - amount`.
     */
    method ExecutePayment(from: NodeId, to: NodeId, amount: int) returns (success: bool, fees: int, ghost path: seq<NodeId>)
      requires Valid() && NonNegativeFees() && amount >= 0
      modifies channels.Values
      ensures Valid() && NonNegativeFees() && Wiring() == old(Wiring())
      ensures nodes == old(nodes) && channels == old(channels)
      ensures Settles(old(Ledger()), Ledger(), nodes.Keys, from, to, amount, path, success, fees)
    {
      var found := FindPath(from, to, amount);
      LedgerKept();
      WiringKept();
      if found.None? {
        return false, 0, [];
      }
      var route := found.value.path;
      fees := found.value.totalCost - amount;
      ghost var l0 := Ledger();
      PayAlong(route, amount);
      WalkConserves(l0, route, amount);
      SameShapeFees(l0, Ledger());
      SettlesOnSuccess(l0, Ledger(), nodes.Keys, from, to, amount, route, fees);
      return true, fees, route;
    }
  }
}
