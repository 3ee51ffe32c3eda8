/**
 * The fee-aware backward search of `find_path`.
 *
 * The search runs from the receiver. A node's label is the amount that must
 * leave it so that the receiver gets `amount`; relaxing the channel from an
 * extracted node `u` to a neighbour `v` gives `v` the label
 * `label[u] + fee(label[u])`, provided `v`'s side can forward `label[u]`.
 * The heap is a finite set of (label, id) entries from which the smallest
 * entry in tuple order is extracted, as `heapq` does; infinite labels are
 * `None`.
 */
module Routing {
  import opened Wrappers
  import opened Ids
  import opened Fees
  import opened Channels
  import opened Ledgers

  /** What the search reads: every node's neighbour ids and every channel's state. */
  datatype Graph = Graph(adj: map<NodeId, set<NodeId>>, ledger: Ledger)
  {
    predicate WellFormed() {
      && Consistent(ledger)
      && (forall u, v | u in adj && v in adj[u] :: v in adj)
      && (forall k | k in ledger :: k.lo in adj && k.hi in adj)
      && (forall u, v | u in adj && v in adj :: v in adj[u] <==> KeyOf(u, v) in ledger)
    }
  }

  /** A channel of the ledger makes its endpoints neighbours of each other. */
  lemma Adjacent(g: Graph, u: NodeId, v: NodeId)
    requires g.WellFormed() && KeyOf(u, v) in g.ledger
    ensures u in g.adj && v in g.adj && v in g.adj[u] && u in g.adj[v]
  {
    KeyOfSymmetric(u, v);
  }

  datatype Route = Route(path: seq<NodeId>, totalCost: int)

  /** A heap entry `(label, node id)`. */
  datatype Entry = Entry(cost: int, node: NodeId)

  /**
   * Python's tuple order on heap entries: by label, then by node id. Any two
   * entries are ordered one way or the other, and only equal entries both ways.
   */
  predicate EntryAtMost(a: Entry, b: Entry): (r: bool)
    ensures r || (b.cost < a.cost || (b.cost == a.cost && AtMost(b.node, a.node)))
    ensures r && (b.cost < a.cost || (b.cost == a.cost && AtMost(b.node, a.node))) ==> a == b
  {
    AtMostTotal(a.node, b.node);
    if AtMost(a.node, b.node) && AtMost(b.node, a.node) then
      AtMostAntisymmetric(a.node, b.node);
      a.cost <= b.cost
    else
      a.cost < b.cost || (a.cost == b.cost && AtMost(a.node, b.node))
  }

  predicate IsMin(e: Entry, s: set<Entry>) {
    e in s && forall f | f in s :: EntryAtMost(e, f)
  }

  /** A non-empty heap has a smallest entry. */
  lemma MinExists(s: set<Entry>)
    requires s != {}
    ensures exists e :: IsMin(e, s)
  {
    var x :| x in s;
    AtMostReflexive(x.node);
    if s == {x} {
      assert IsMin(x, s);
    } else {
      MinExists(s - {x});
      var m :| IsMin(m, s - {x});
      if EntryAtMost(m, x) {
        assert IsMin(m, s);
      } else {
        AtMostTotal(m.node, x.node);
        assert EntryAtMost(x, m);
        forall f | f in s
          ensures EntryAtMost(x, f)
        {
          if f != x {
            assert EntryAtMost(m, f);
            if x.cost == f.cost {
              AtMostTransitive(x.node, m.node, f.node);
            }
          }
        }
        assert IsMin(x, s);
      }
    }
  }

  // ---------------------------------------------------------------------
  // The search's invariants, named so that the loops can state them.
  // ---------------------------------------------------------------------

  type Labels = map<NodeId, Option<int>>
  type Preds = map<NodeId, Option<NodeId>>

  /** `dist` and `pred` have an entry for every node. */
  ghost predicate Shape(g: Graph, dist: Labels, pred: Preds) {
    dist.Keys == g.adj.Keys && pred.Keys == g.adj.Keys
  }

  /**
   * The receiver keeps the label `amount` and no predecessor; every finite
   * label is at least `amount`; every other node with a finite label has a
   * predecessor.
   */
  ghost predicate Anchored(to: NodeId, amount: int, dist: Labels, pred: Preds) {
    && to in dist && to in pred
    && dist[to] == Some(amount) && pred[to] == None
    && (forall x | x in dist && dist[x].Some? :: dist[x].value >= amount)
    && (forall x | x in dist && x in pred && x != to && dist[x].Some? :: pred[x].Some?)
  }

  /**
   * `pred[v] == u` records a relaxation by an extracted `u` of its channel
   * to `v`: `v`'s label is `u`'s label plus that channel's fee on it, and
   * `v`'s side could forward `u`'s label. A predecessor was extracted before
   * the node itself.
   */
  ghost predicate Link(g: Graph, dist: Labels, done: set<NodeId>, rank: map<NodeId, nat>, v: NodeId, u: NodeId) {
    && u in done && u in rank && u in g.adj && v in g.adj[u]
    && u in dist && v in dist && KeyOf(v, u) in g.ledger && dist[u].Some?
    && dist[v] == Some(dist[u].value + g.ledger[KeyOf(v, u)].Fee(dist[u].value))
    && g.ledger[KeyOf(v, u)].CanForward(v, dist[u].value) == Ok(true)
    && (v in rank ==> rank[u] < rank[v])
  }

  ghost predicate Linked(g: Graph, dist: Labels, pred: Preds, done: set<NodeId>, rank: map<NodeId, nat>) {
    forall v | v in pred && pred[v].Some? :: Link(g, dist, done, rank, v, pred[v].value)
  }

  /** Extracted nodes are numbered in extraction order. */
  ghost predicate Ranked(done: set<NodeId>, rank: map<NodeId, nat>) {
    rank.Keys == done && forall x | x in rank :: rank[x] < |done|
  }

  /** Extracted nodes have final labels no greater than the last extracted label `floor`. */
  ghost predicate Settled(dist: Labels, done: set<NodeId>, floor: int) {
    forall x | x in done :: x in dist && dist[x].Some? && dist[x].value <= floor
  }

  /** Heap entries are never below a node's label nor below `floor`; an extracted node has only stale entries. */
  ghost predicate Queued(dist: Labels, pq: set<Entry>, done: set<NodeId>, floor: int) {
    forall e | e in pq ::
      && e.node in dist && dist[e.node].Some?
      && dist[e.node].value <= e.cost && floor <= e.cost
      && (e.node in done ==> dist[e.node].value < e.cost)
  }

  /** Every node with a finite label that is not yet extracted has its current label in the heap. */
  ghost predicate Frontier(dist: Labels, pq: set<Entry>, done: set<NodeId>) {
    forall x | x in dist && x !in done && dist[x].Some? :: Entry(dist[x].value, x) in pq
  }

  /** Relaxing the hop from `v` to `u` could not lower `v`'s label any further. */
  ghost predicate RelaxedEdge(g: Graph, dist: Labels, u: NodeId, v: NodeId) {
    (u in dist && v in dist && KeyOf(v, u) in g.ledger && dist[u].Some?
     && g.ledger[KeyOf(v, u)].CanForward(v, dist[u].value) == Ok(true))
    ==> (dist[v].Some? && dist[v].value <= dist[u].value + g.ledger[KeyOf(v, u)].Fee(dist[u].value))
  }

  /** Every extracted node other than `skip` has relaxed all of its channels. */
  ghost predicate RelaxedBut(g: Graph, dist: Labels, done: set<NodeId>, skip: Option<NodeId>) {
    forall u, v | u in done && Some(u) != skip && u in g.adj && v in g.adj[u] :: RelaxedEdge(g, dist, u, v)
  }

  /** The invariant of the search loop, apart from relaxation. */
  ghost predicate Searching(g: Graph, to: NodeId, amount: int, dist: Labels, pred: Preds, pq: set<Entry>,
                            done: set<NodeId>, rank: map<NodeId, nat>, floor: int) {
    && Shape(g, dist, pred) && Anchored(to, amount, dist, pred)
    && Linked(g, dist, pred, done, rank) && Ranked(done, rank)
    && Settled(dist, done, floor) && Queued(dist, pq, done, floor) && Frontier(dist, pq, done)
    && amount <= floor
  }

  /** Lowering the label of a node that is not extracted keeps relaxed channels relaxed. */
  lemma LowerKeepsRelaxed(g: Graph, dist: Labels, done: set<NodeId>, skip: Option<NodeId>, v: NodeId, newDist: int)
    requires v in dist && v !in done && (dist[v].None? || newDist < dist[v].value)
    requires RelaxedBut(g, dist, done, skip)
    ensures RelaxedBut(g, dist[v := Some(newDist)], done, skip)
  {
    forall x, w | x in done && Some(x) != skip && x in g.adj && w in g.adj[x]
      ensures RelaxedEdge(g, dist[v := Some(newDist)], x, w)
    {
      assert RelaxedEdge(g, dist, x, w);
    }
  }

  /** Lowering `v`'s label through `u` keeps every predecessor link, and adds the link from `v` to `u`. */
  lemma LowerKeepsLinked(g: Graph, dist: Labels, pred: Preds, done: set<NodeId>, rank: map<NodeId, nat>,
                         u: NodeId, v: NodeId, newDist: int)
    requires Linked(g, dist, pred, done, rank) && rank.Keys == done && v !in done
    requires u in done && u in g.adj && v in g.adj[u] && u in dist && v in dist && dist[u].Some?
    requires KeyOf(v, u) in g.ledger && g.ledger[KeyOf(v, u)].CanForward(v, dist[u].value) == Ok(true)
    requires newDist == dist[u].value + g.ledger[KeyOf(v, u)].Fee(dist[u].value)
    ensures Linked(g, dist[v := Some(newDist)], pred[v := Some(u)], done, rank)
  {
    var dist', pred' := dist[v := Some(newDist)], pred[v := Some(u)];
    forall w | w in pred' && pred'[w].Some?
      ensures Link(g, dist', done, rank, w, pred'[w].value)
    {
      if w != v {
        assert Link(g, dist, done, rank, w, pred[w].value);
      }
    }
  }

  /** Pushing `v`'s new label keeps the heap's entries above labels and `floor`. */
  lemma LowerKeepsQueued(dist: Labels, pq: set<Entry>, done: set<NodeId>, floor: int, v: NodeId, newDist: int)
    requires Queued(dist, pq, done, floor) && v in dist && v !in done && floor <= newDist
    requires dist[v].None? || newDist < dist[v].value
    ensures Queued(dist[v := Some(newDist)], pq + {Entry(newDist, v)}, done, floor)
  {
    var dist' := dist[v := Some(newDist)];
    forall e | e in pq + {Entry(newDist, v)}
      ensures e.node in dist' && dist'[e.node].Some? && dist'[e.node].value <= e.cost && floor <= e.cost
      ensures e.node in done ==> dist'[e.node].value < e.cost
    {
      if e != Entry(newDist, v) {
        assert e in pq;
      }
    }
  }

  /** Pushing `v`'s new label keeps every open node's label in the heap. */
  lemma LowerKeepsFrontier(dist: Labels, pq: set<Entry>, done: set<NodeId>, v: NodeId, newDist: int)
    requires Frontier(dist, pq, done) && v in dist
    ensures Frontier(dist[v := Some(newDist)], pq + {Entry(newDist, v)}, done)
  {
    var dist' := dist[v := Some(newDist)];
    forall x | x in dist' && x !in done && dist'[x].Some?
      ensures Entry(dist'[x].value, x) in pq + {Entry(newDist, v)}
    {
      if x != v {
        assert Entry(dist[x].value, x) in pq;
      }
    }
  }

  /** Giving the open node `v` a finite label of at least `amount` keeps the receiver anchored. */
  lemma LowerKeepsAnchored(g: Graph, to: NodeId, amount: int, dist: Labels, pred: Preds,
                           u: NodeId, v: NodeId, newDist: int)
    requires Shape(g, dist, pred) && Anchored(to, amount, dist, pred)
    requires v in dist && v != to && newDist >= amount
    ensures Shape(g, dist[v := Some(newDist)], pred[v := Some(u)])
    ensures Anchored(to, amount, dist[v := Some(newDist)], pred[v := Some(u)])
  {
  }

  /** Lowering an open node's label keeps the extracted nodes settled. */
  lemma LowerKeepsSettled(dist: Labels, done: set<NodeId>, floor: int, v: NodeId, newDist: int)
    requires Settled(dist, done, floor) && v in dist && v !in done
    ensures Settled(dist[v := Some(newDist)], done, floor)
  {
  }

  /** One relaxation that lowers `v`'s label through the extracted node `u` keeps the search invariant. */
  lemma RelaxKeepsSearching(g: Graph, to: NodeId, amount: int, u: NodeId, v: NodeId,
                            dist: Labels, pred: Preds, pq: set<Entry>,
                            done: set<NodeId>, rank: map<NodeId, nat>, floor: int, newDist: int)
    requires Searching(g, to, amount, dist, pred, pq, done, rank, floor)
    requires u in done && u in g.adj && v in g.adj[u] && u in dist && dist[u] == Some(floor)
    requires KeyOf(v, u) in g.ledger && g.ledger[KeyOf(v, u)].CanForward(v, floor) == Ok(true)
    requires newDist == floor + g.ledger[KeyOf(v, u)].Fee(floor) && newDist >= floor
    requires v in dist && (dist[v].None? || newDist < dist[v].value)
    ensures v !in done && v != to
    ensures Searching(g, to, amount, dist[v := Some(newDist)], pred[v := Some(u)], pq + {Entry(newDist, v)},
                      done, rank, floor)
  {
    LowerKeepsAnchored(g, to, amount, dist, pred, u, v, newDist);
    LowerKeepsLinked(g, dist, pred, done, rank, u, v, newDist);
    LowerKeepsSettled(dist, done, floor, v, newDist);
    LowerKeepsQueued(dist, pq, done, floor, v, newDist);
    LowerKeepsFrontier(dist, pq, done, v, newDist);
  }

  /** Lowering the label of `v` to `u`'s label plus the fee keeps `u`'s relaxed channels relaxed and relaxes the one to `v`. */
  lemma LowerKeepsEdges(g: Graph, dist: Labels, u: NodeId, handled: set<NodeId>, v: NodeId, newDist: int)
    requires u in dist && dist[u].Some? && v in dist && v != u && (dist[v].None? || newDist < dist[v].value)
    requires KeyOf(v, u) in g.ledger && newDist == dist[u].value + g.ledger[KeyOf(v, u)].Fee(dist[u].value)
    requires forall w | w in handled :: RelaxedEdge(g, dist, u, w)
    ensures forall w | w in handled + {v} :: RelaxedEdge(g, dist[v := Some(newDist)], u, w)
  {
    forall w | w in handled + {v}
      ensures RelaxedEdge(g, dist[v := Some(newDist)], u, w)
    {
      if w != v {
        assert RelaxedEdge(g, dist, u, w);
      }
    }
  }

  /** A channel to `v` that is already relaxed joins `u`'s relaxed channels. */
  lemma KeepEdges(g: Graph, dist: Labels, u: NodeId, handled: set<NodeId>, v: NodeId)
    requires forall w | w in handled :: RelaxedEdge(g, dist, u, w)
    requires RelaxedEdge(g, dist, u, v)
    ensures forall w | w in handled + {v} :: RelaxedEdge(g, dist, u, w)
  {
  }

  /** What one relaxation needs of the search: `u` is extracted at the floor and `v` is its neighbour. */
  ghost predicate Relaxing(g: Graph, to: NodeId, amount: int, u: NodeId, v: NodeId,
                           dist: Labels, pred: Preds, pq: set<Entry>,
                           done: set<NodeId>, rank: map<NodeId, nat>, floor: int, handled: set<NodeId>) {
    && g.WellFormed() && FeesNonNegative(g.ledger) && amount >= 0
    && Searching(g, to, amount, dist, pred, pq, done, rank, floor)
    && u in done && u in g.adj && v in g.adj[u] && u in dist && dist[u] == Some(floor)
    && RelaxedBut(g, dist, done, Some(u))
    && (forall w | w in handled :: RelaxedEdge(g, dist, u, w))
  }

  /** What one relaxation promises of the search after it. */
  ghost predicate Relaxed(g: Graph, to: NodeId, amount: int, u: NodeId, v: NodeId,
                          dist: Labels, pred: Preds, pq: set<Entry>,
                          done: set<NodeId>, rank: map<NodeId, nat>, floor: int, handled: set<NodeId>) {
    && Searching(g, to, amount, dist, pred, pq, done, rank, floor)
    && u in dist && dist[u] == Some(floor)
    && RelaxedBut(g, dist, done, Some(u))
    && (forall w | w in handled + {v} :: RelaxedEdge(g, dist, u, w))
  }

  /** The channel between `u` and `v` is in the ledger under either order of its ends. */
  lemma ChannelOf(g: Graph, u: NodeId, v: NodeId)
    requires g.WellFormed() && u in g.adj && v in g.adj[u]
    ensures v in g.adj && KeyOf(u, v) == KeyOf(v, u) && KeyOf(u, v) in g.ledger
    ensures g.ledger[KeyOf(u, v)].IsEndpoint(v)
  {
    KeyOfSymmetric(u, v);
    HopEndpoints(g.ledger, v, u);
  }

  /** A channel that cannot forward `u`'s label, or whose fee does not beat `v`'s label, changes nothing. */
  lemma RelaxSkips(g: Graph, to: NodeId, amount: int, u: NodeId, v: NodeId,
                   dist: Labels, pred: Preds, pq: set<Entry>,
                   done: set<NodeId>, rank: map<NodeId, nat>, floor: int, handled: set<NodeId>)
    requires Relaxing(g, to, amount, u, v, dist, pred, pq, done, rank, floor, handled)
    requires KeyOf(v, u) in g.ledger && v in dist
    requires g.ledger[KeyOf(v, u)].CanForward(v, floor) == Ok(true) ==>
               dist[v].Some? && floor + g.ledger[KeyOf(v, u)].Fee(floor) >= dist[v].value
    ensures Relaxed(g, to, amount, u, v, dist, pred, pq, done, rank, floor, handled)
  {
    KeepEdges(g, dist, u, handled, v);
  }

  /** A channel whose fee on `u`'s label beats `v`'s label lowers it, records `u` and pushes the new entry. */
  lemma RelaxLowers(g: Graph, to: NodeId, amount: int, u: NodeId, v: NodeId,
                    dist: Labels, pred: Preds, pq: set<Entry>,
                    done: set<NodeId>, rank: map<NodeId, nat>, floor: int, handled: set<NodeId>, newDist: int)
    requires Searching(g, to, amount, dist, pred, pq, done, rank, floor)
    requires u in done && u in g.adj && v in g.adj[u] && u in dist && dist[u] == Some(floor)
    requires RelaxedBut(g, dist, done, Some(u)) && forall w | w in handled :: RelaxedEdge(g, dist, u, w)
    requires amount >= 0 && KeyOf(v, u) in g.ledger && v in dist && g.ledger[KeyOf(v, u)].baseFee >= 0
    requires g.ledger[KeyOf(v, u)].CanForward(v, floor) == Ok(true)
    requires newDist == floor + g.ledger[KeyOf(v, u)].Fee(floor)
    requires dist[v].None? || newDist < dist[v].value
    ensures Relaxed(g, to, amount, u, v, dist[v := Some(newDist)], pred[v := Some(u)], pq + {Entry(newDist, v)},
                    done, rank, floor, handled)
  {
    var st := g.ledger[KeyOf(v, u)];
    FeeAtLeastBase(st.baseFee, st.feeRate, floor);
    RelaxKeepsSearching(g, to, amount, u, v, dist, pred, pq, done, rank, floor, newDist);
    LowerKeepsRelaxed(g, dist, done, Some(u), v, newDist);
    LowerKeepsEdges(g, dist, u, handled, v, newDist);
  }

  /**
   * The body of the `for v in get_neighbors()` loop for one neighbour `v` of
   * the extracted node `u`: if `v`'s side can forward `u`'s label, and the
   * label plus the channel's fee beats `v`'s label, lower it, record `u` as
   * `v`'s predecessor and push the new entry.
   */
  method RelaxChannel(g: Graph, to: NodeId, amount: int, u: NodeId, v: NodeId,
                      dist: Labels, pred: Preds, pq: set<Entry>,
                      ghost done: set<NodeId>, ghost rank: map<NodeId, nat>, ghost floor: int,
                      ghost handled: set<NodeId>)
    returns (dist': Labels, pred': Preds, pq': set<Entry>)
    requires Relaxing(g, to, amount, u, v, dist, pred, pq, done, rank, floor, handled)
    ensures Relaxed(g, to, amount, u, v, dist', pred', pq', done, rank, floor, handled)
  {
    dist', pred', pq' := dist, pred, pq;
    ChannelOf(g, u, v);
    var channel := g.ledger[KeyOf(u, v)];
    var forward := dist[u].value;
    if channel.CanForward(v, forward) == Ok(true) {
      var newDist := forward + channel.Fee(forward);
      if dist[v].None? || newDist < dist[v].value {
        RelaxLowers(g, to, amount, u, v, dist, pred, pq, done, rank, floor, handled, newDist);
        dist' := dist[v := Some(newDist)];
        pred' := pred[v := Some(u)];
        pq' := pq + {Entry(newDist, v)};
        return;
      }
    }
    RelaxSkips(g, to, amount, u, v, dist, pred, pq, done, rank, floor, handled);
  }

  /**
   * The `for v in get_neighbors()` loop of one extracted node `u`: relax
   * every channel of `u`, in any order.
   */
  method Relax(g: Graph, to: NodeId, amount: int, u: NodeId, dist: Labels, pred: Preds, pq: set<Entry>,
               ghost done: set<NodeId>, ghost rank: map<NodeId, nat>, ghost floor: int)
    returns (dist': Labels, pred': Preds, pq': set<Entry>)
    requires g.WellFormed() && FeesNonNegative(g.ledger) && amount >= 0
    requires Searching(g, to, amount, dist, pred, pq, done, rank, floor)
    requires u in done && u in g.adj && u in dist && dist[u] == Some(floor)
    requires RelaxedBut(g, dist, done, Some(u))
    ensures Searching(g, to, amount, dist', pred', pq', done, rank, floor)
    ensures RelaxedBut(g, dist', done, None)
  {
    dist', pred', pq' := dist, pred, pq;
    var neighbours := g.adj[u];
    while neighbours != {}
      invariant neighbours <= g.adj[u]
      invariant Searching(g, to, amount, dist', pred', pq', done, rank, floor)
      invariant dist'[u] == Some(floor)
      invariant RelaxedBut(g, dist', done, Some(u))
      invariant forall w | w in g.adj[u] && w !in neighbours :: RelaxedEdge(g, dist', u, w)
      decreases neighbours
    {
      var v :| v in neighbours;
      dist', pred', pq' := RelaxChannel(g, to, amount, u, v, dist', pred', pq', done, rank, floor,
                                        g.adj[u] - neighbours);
      neighbours := neighbours - {v};
    }
    CloseRelaxed(g, dist', done, u);
  }

  /** Once `u` has relaxed all of its channels, every extracted node has. */
  lemma CloseRelaxed(g: Graph, dist: Labels, done: set<NodeId>, u: NodeId)
    requires u in g.adj && RelaxedBut(g, dist, done, Some(u))
    requires forall v | v in g.adj[u] :: RelaxedEdge(g, dist, u, v)
    ensures RelaxedBut(g, dist, done, None)
  {
  }

  /** Labels along a chain of predecessors are the costs of the chain's suffixes. */
  lemma {:induction false} ChainCost(l: Ledger, path: seq<NodeId>, dist: Labels, amount: int, n: nat)
    requires |path| >= 1 && Hops(l, path) && n < |path|
    requires forall i | 0 <= i < |path| :: path[i] in dist && dist[path[i]].Some?
    requires dist[path[|path| - 1]] == Some(amount)
    requires forall i | 0 <= i < |path| - 1 ::
               dist[path[i]].value == dist[path[i + 1]].value + l[KeyOf(path[i], path[i + 1])].Fee(dist[path[i + 1]].value)
    ensures Hops(l, path[n..]) && Cost(l, path[n..], amount) == dist[path[n]].value
    decreases |path| - n
  {
    HopsSuffix(l, path, n);
    if n < |path| - 1 {
      ChainCost(l, path, dist, amount, n + 1);
      assert path[n..][1..] == path[n + 1..];
    }
  }

  /**
   * Once every finite label is final and every channel relaxed, each node of
   * a walk that passes the search's checks has a label no greater than the
   * cost of the rest of the walk.
   */
  lemma {:induction false} SuffixBound(g: Graph, to: NodeId, amount: int, dist: Labels, done: set<NodeId>,
                                       path: seq<NodeId>, n: nat)
    requires g.WellFormed() && FeesNonNegative(g.ledger) && amount >= 0
    requires dist.Keys == g.adj.Keys && to in dist && dist[to] == Some(amount)
    requires RelaxedBut(g, dist, done, None)
    requires forall x | x in dist && dist[x].Some? :: x in done
    requires |path| >= 1 && path[|path| - 1] == to && Hops(g.ledger, path) && Forwardable(g.ledger, path, amount)
    requires n < |path|
    ensures path[n] in dist && dist[path[n]].Some?
    ensures Hops(g.ledger, path[n..]) && dist[path[n]].value <= Cost(g.ledger, path[n..], amount)
    decreases |path| - n
  {
    HopsSuffix(g.ledger, path, n);
    if n == |path| - 1 {
      assert path[n..] == [to];
    } else {
      SuffixBound(g, to, amount, dist, done, path, n + 1);
      HopsSuffix(g.ledger, path, n + 1);
      var u, v := path[n + 1], path[n];
      var st := g.ledger[KeyOf(v, u)];
      var rest := Cost(g.ledger, path[n + 1..], amount);
      var d := dist[u].value;
      KeyOfSymmetric(u, v);
      Adjacent(g, v, u);
      assert st.CanForward(v, rest) == Ok(true);
      HopEndpoints(g.ledger, v, u);
      CanForwardDownward(st, v, d, rest);
      assert RelaxedEdge(g, dist, u, v);
      FeeMonotone(st.baseFee, st.feeRate, d, rest);
      assert path[n..][1..] == path[n + 1..];
    }
  }

  /** The search's invariant holds before the first extraction. */
  lemma InitSearching(g: Graph, to: NodeId, amount: int, dist: Labels, pred: Preds)
    requires to in g.adj
    requires dist == (map x | x in g.adj :: None)[to := Some(amount)]
    requires pred == map x | x in g.adj :: None
    ensures Searching(g, to, amount, dist, pred, {Entry(amount, to)}, {}, map[], amount)
    ensures RelaxedBut(g, dist, {}, None)
  {
  }

  /** Popping a stale entry, one above its node's label, keeps the invariant. */
  lemma SkipKeeps(g: Graph, to: NodeId, amount: int, dist: Labels, pred: Preds, pq: set<Entry>,
                  done: set<NodeId>, rank: map<NodeId, nat>, floor: int, e: Entry)
    requires Searching(g, to, amount, dist, pred, pq, done, rank, floor)
    requires e in pq && e.node in dist && dist[e.node].Some? && e.cost > dist[e.node].value
    ensures Searching(g, to, amount, dist, pred, pq - {e}, done, rank, floor)
  {
    forall x | x in dist && x !in done && dist[x].Some?
      ensures Entry(dist[x].value, x) in pq - {e}
    {
      assert Entry(dist[x].value, x) in pq;
    }
  }

  /** Numbering the extracted node `n` after all earlier ones keeps every predecessor link. */
  lemma ExtractKeepsLinked(g: Graph, dist: Labels, pred: Preds, done: set<NodeId>, rank: map<NodeId, nat>,
                           n: NodeId)
    requires Linked(g, dist, pred, done, rank) && Ranked(done, rank) && n !in done
    ensures Linked(g, dist, pred, done + {n}, rank[n := |done|])
  {
    forall v | v in pred && pred[v].Some?
      ensures Link(g, dist, done + {n}, rank[n := |done|], v, pred[v].value)
    {
      assert Link(g, dist, done, rank, v, pred[v].value);
    }
  }

  /** Removing the smallest entry `e` raises the floor to its label and leaves only stale entries for its node. */
  lemma ExtractKeepsQueued(dist: Labels, pq: set<Entry>, done: set<NodeId>, floor: int, e: Entry)
    requires Queued(dist, pq, done, floor) && IsMin(e, pq) && e.node in dist && dist[e.node] == Some(e.cost)
    ensures Queued(dist, pq - {e}, done + {e.node}, e.cost)
  {
    forall f | f in pq - {e}
      ensures e.cost <= f.cost && (f.node in done + {e.node} ==> dist[f.node].value < f.cost)
    {
      assert EntryAtMost(e, f);
      if f.node == e.node {
        assert f != Entry(dist[e.node].value, e.node);
      }
    }
  }

  /** Every open node other than the extracted one still has its label in the heap. */
  lemma ExtractKeepsFrontier(dist: Labels, pq: set<Entry>, done: set<NodeId>, e: Entry)
    requires Frontier(dist, pq, done)
    ensures Frontier(dist, pq - {e}, done + {e.node})
  {
    forall x | x in dist && x !in done + {e.node} && dist[x].Some?
      ensures Entry(dist[x].value, x) in pq - {e}
    {
      assert Entry(dist[x].value, x) in pq;
    }
  }

  /** The smallest entry, when not stale, carries its node's label, no lower than `floor`, and the node is open. */
  lemma ExtractOpen(dist: Labels, pq: set<Entry>, done: set<NodeId>, floor: int, e: Entry)
    requires Queued(dist, pq, done, floor)
    requires e in pq && e.node in dist && dist[e.node].Some? && e.cost <= dist[e.node].value
    ensures e.node !in done && dist[e.node] == Some(e.cost) && floor <= e.cost
  {
  }

  /** Numbering one more extracted node keeps the numbering. */
  lemma ExtractKeepsRanked(done: set<NodeId>, rank: map<NodeId, nat>, n: NodeId)
    requires Ranked(done, rank) && n !in done
    ensures Ranked(done + {n}, rank[n := |done|])
  {
    assert |done + {n}| == |done| + 1;
  }

  /** Extracting `n` at its label `cost`, no lower than `floor`, keeps the extracted nodes settled at the new floor. */
  lemma ExtractKeepsSettled(dist: Labels, done: set<NodeId>, floor: int, n: NodeId, cost: int)
    requires Settled(dist, done, floor) && floor <= cost && n in dist && dist[n] == Some(cost)
    ensures Settled(dist, done + {n}, cost)
  {
  }

  /** Extracting `n` leaves every other extracted node relaxed. */
  lemma ExtractKeepsRelaxed(g: Graph, dist: Labels, done: set<NodeId>, n: NodeId)
    requires RelaxedBut(g, dist, done, None)
    ensures RelaxedBut(g, dist, done + {n}, Some(n))
  {
  }

  /** Extracting the smallest entry of the heap that is not stale settles its node at the new floor. */
  lemma ExtractKeeps(g: Graph, to: NodeId, amount: int, dist: Labels, pred: Preds, pq: set<Entry>,
                     done: set<NodeId>, rank: map<NodeId, nat>, floor: int, e: Entry)
    requires Searching(g, to, amount, dist, pred, pq, done, rank, floor)
    requires RelaxedBut(g, dist, done, None)
    requires IsMin(e, pq) && e.node in dist && dist[e.node].Some? && e.cost <= dist[e.node].value
    ensures e.node !in done && e.node in g.adj && dist[e.node] == Some(e.cost)
    ensures Searching(g, to, amount, dist, pred, pq - {e}, done + {e.node}, rank[e.node := |done|], e.cost)
    ensures RelaxedBut(g, dist, done + {e.node}, Some(e.node))
  {
    var n := e.node;
    ExtractOpen(dist, pq, done, floor, e);
    ExtractKeepsLinked(g, dist, pred, done, rank, n);
    ExtractKeepsRanked(done, rank, n);
    ExtractKeepsSettled(dist, done, floor, n, e.cost);
    ExtractKeepsQueued(dist, pq, done, floor, e);
    ExtractKeepsFrontier(dist, pq, done, e);
    ExtractKeepsRelaxed(g, dist, done, n);
  }

  /** Adding an open node to the extracted ones leaves fewer open nodes. */
  lemma FewerOpen(nodes: set<NodeId>, done: set<NodeId>, n: NodeId)
    requires n in nodes && n !in done
    ensures |nodes - (done + {n})| < |nodes - done|
  {
    assert nodes - (done + {n}) == (nodes - done) - {n};
  }

  /** `path` starts at `from`, visits distinct labelled nodes and follows predecessor links. */
  ghost predicate Chain(g: Graph, dist: Labels, done: set<NodeId>, rank: map<NodeId, nat>, from: NodeId, path: seq<NodeId>) {
    && |path| >= 1 && path[0] == from && Distinct(path)
    && (forall i | 0 <= i < |path| :: path[i] in g.adj && path[i] in rank && path[i] in dist && dist[path[i]].Some?)
    && (forall i | 0 <= i < |path| - 1 :: Link(g, dist, done, rank, path[i], path[i + 1]))
  }

  /** Every node of `path` was extracted after `u`. */
  ghost predicate Above(rank: map<NodeId, nat>, path: seq<NodeId>, u: NodeId) {
    u in rank && forall i | 0 <= i < |path| :: path[i] in rank && rank[path[i]] > rank[u]
  }

  /** Following the predecessor link from the end of a chain extends the chain. */
  lemma ChainStep(g: Graph, dist: Labels, pred: Preds, done: set<NodeId>, rank: map<NodeId, nat>,
                  from: NodeId, path: seq<NodeId>, next: NodeId)
    requires Shape(g, dist, pred) && Linked(g, dist, pred, done, rank) && rank.Keys == done
    requires Chain(g, dist, done, rank, from, path)
    requires Link(g, dist, done, rank, path[|path| - 1], next) && Above(rank, path, next)
    ensures Chain(g, dist, done, rank, from, path + [next])
    ensures pred[next].Some? ==>
              Link(g, dist, done, rank, next, pred[next].value) && Above(rank, path + [next], pred[next].value)
  {
    var p := path + [next];
    forall i, j | 0 <= i < j < |p|
      ensures p[i] != p[j]
    {
      if j == |p| - 1 {
        assert rank[p[i]] > rank[next];
      }
    }
    forall i | 0 <= i < |p| - 1
      ensures Link(g, dist, done, rank, p[i], p[i + 1])
    {
      if i < |path| - 1 {
        assert p[i] == path[i] && p[i + 1] == path[i + 1];
      }
    }
    if pred[next].Some? {
      var u := pred[next].value;
      assert Link(g, dist, done, rank, next, u);
      assert forall i | 0 <= i < |path| :: rank[p[i]] > rank[next];
    }
  }

  /**
   * The `while current is not None` loop: follow predecessors from `from`
   * until the node without one, which is the receiver.
   */
  method Reconstruct(g: Graph, to: NodeId, amount: int, from: NodeId, dist: Labels, pred: Preds,
                     ghost done: set<NodeId>, ghost rank: map<NodeId, nat>)
    returns (path: seq<NodeId>)
    requires Shape(g, dist, pred) && Anchored(to, amount, dist, pred)
    requires Linked(g, dist, pred, done, rank) && rank.Keys == done
    requires forall x | x in dist && dist[x].Some? :: x in done
    requires from in g.adj && dist[from].Some?
    ensures |path| >= 1 && path[0] == from && path[|path| - 1] == to && Distinct(path)
    ensures forall i | 0 <= i < |path| - 1 :: Link(g, dist, done, rank, path[i], path[i + 1])
    ensures pred[from].None? ==> path == [from]
  {
    path := [from];
    var current := pred[from];
    while current.Some?
      invariant Chain(g, dist, done, rank, from, path)
      invariant current == pred[path[|path| - 1]]
      invariant current.Some? ==>
                  Link(g, dist, done, rank, path[|path| - 1], current.value) && Above(rank, path, current.value)
      invariant pred[from].None? ==> path == [from]
      decreases if current.Some? && current.value in rank then rank[current.value] + 1 else 0
    {
      var next := current.value;
      ChainStep(g, dist, pred, done, rank, from, path, next);
      path := path + [next];
      current := pred[next];
    }
  }

  /** A chain of predecessor links from `from` to `to` is a viable walk whose cost is `from`'s label. */
  lemma ChainViable(g: Graph, to: NodeId, amount: int, from: NodeId, dist: Labels,
                    done: set<NodeId>, rank: map<NodeId, nat>, path: seq<NodeId>)
    requires |path| >= 1 && path[0] == from && path[|path| - 1] == to
    requires to in dist && dist[to] == Some(amount)
    requires forall i | 0 <= i < |path| - 1 :: Link(g, dist, done, rank, path[i], path[i + 1])
    ensures path[0] in dist && dist[path[0]].Some?
    ensures Viable(g.ledger, path, from, to, amount) && Cost(g.ledger, path, amount) == dist[from].value
  {
    forall i | 0 <= i < |path|
      ensures path[i] in dist && dist[path[i]].Some?
    {
      if i < |path| - 1 {
        assert Link(g, dist, done, rank, path[i], path[i + 1]);
      }
    }
    assert Hops(g.ledger, path);
    ChainCost(g.ledger, path, dist, amount, 0);
    assert path[0..] == path;
    forall j | 1 <= j < |path|
      ensures Hops(g.ledger, path[j..]) && Cost(g.ledger, path[j..], amount) == dist[path[j]].value
    {
      ChainCost(g.ledger, path, dist, amount, j);
    }
    assert Forwardable(g.ledger, path, amount);
  }

  /** Popping a stale entry or the smallest one leaves the heap smaller. */
  lemma RemoveOne(pq: set<Entry>, e: Entry)
    requires e in pq
    ensures |pq - {e}| == |pq| - 1
  {
  }

  /**
   * One round of the `while pq` loop: pop the smallest entry; skip it when it
   * is stale, otherwise settle its node and relax the node's channels. Either
   * the heap shrinks or one more node is settled.
   */
  method Visit(g: Graph, to: NodeId, amount: int, dist: Labels, pred: Preds, pq: set<Entry>,
               ghost done: set<NodeId>, ghost rank: map<NodeId, nat>, ghost floor: int)
    returns (dist': Labels, pred': Preds, pq': set<Entry>,
             ghost done': set<NodeId>, ghost rank': map<NodeId, nat>, ghost floor': int)
    requires g.WellFormed() && FeesNonNegative(g.ledger) && amount >= 0 && pq != {}
    requires Searching(g, to, amount, dist, pred, pq, done, rank, floor) && RelaxedBut(g, dist, done, None)
    ensures Searching(g, to, amount, dist', pred', pq', done', rank', floor') && RelaxedBut(g, dist', done', None)
    ensures (done' == done && |pq'| < |pq|) || |g.adj.Keys - done'| < |g.adj.Keys - done|
  {
    MinExists(pq);
    var e :| IsMin(e, pq);
    var u := e.node;
    RemoveOne(pq, e);
    if e.cost > dist[u].value {
      SkipKeeps(g, to, amount, dist, pred, pq, done, rank, floor, e);
      return dist, pred, pq - {e}, done, rank, floor;
    }
    ExtractKeeps(g, to, amount, dist, pred, pq, done, rank, floor, e);
    FewerOpen(g.adj.Keys, done, u);
    done', rank', floor' := done + {u}, rank[u := |done|], e.cost;
    dist', pred', pq' := Relax(g, to, amount, u, dist, pred, pq - {e}, done', rank', floor');
  }

  /** When the heap is empty every finite label belongs to an extracted node. */
  lemma Exhausted(g: Graph, to: NodeId, amount: int, dist: Labels, pred: Preds,
                  done: set<NodeId>, rank: map<NodeId, nat>, floor: int)
    requires Searching(g, to, amount, dist, pred, {}, done, rank, floor)
    ensures Shape(g, dist, pred) && Anchored(to, amount, dist, pred)
    ensures Linked(g, dist, pred, done, rank) && rank.Keys == done
    ensures forall x | x in dist && dist[x].Some? :: x in done
  {
    forall x | x in dist && dist[x].Some?
      ensures x in done
    {
      var none: set<Entry> := {};
      assert Entry(dist[x].value, x) !in none;
    }
  }

  /**
   * Lines 246-267 of `find_path`: label every node from the receiver outward
   * until the heap is empty. On return every finite label belongs to an
   * extracted node, every extracted node has relaxed all of its channels,
   * and predecessor links join every labelled node to the receiver.
   */
  method Explore(g: Graph, to: NodeId, amount: int)
    returns (dist: Labels, pred: Preds, ghost done: set<NodeId>, ghost rank: map<NodeId, nat>)
    requires g.WellFormed() && FeesNonNegative(g.ledger) && amount >= 0 && to in g.adj
    ensures Shape(g, dist, pred) && Anchored(to, amount, dist, pred)
    ensures Linked(g, dist, pred, done, rank) && rank.Keys == done
    ensures RelaxedBut(g, dist, done, None)
    ensures forall x | x in dist && dist[x].Some? :: x in done
  {
    dist := (map x | x in g.adj :: None)[to := Some(amount)];
    pred := map x | x in g.adj :: None;
    var pq := {Entry(amount, to)};
    done, rank := {}, map[];
    ghost var floor := amount;
    InitSearching(g, to, amount, dist, pred);

    while pq != {}
      invariant Searching(g, to, amount, dist, pred, pq, done, rank, floor)
      invariant RelaxedBut(g, dist, done, None)
      decreases |g.adj.Keys - done|, |pq|
    {
      dist, pred, pq, done, rank, floor := Visit(g, to, amount, dist, pred, pq, done, rank, floor);
    }
    Exhausted(g, to, amount, dist, pred, done, rank, floor);
  }

  /**
   * `find_path`: the cheapest route, by total cost, among the walks from
   * `from` to `to` whose every hop passed the sufficiency check, or `None`
   * when either end is missing or no such walk exists.
   */
  method Search(g: Graph, from: NodeId, to: NodeId, amount: int) returns (r: Option<Route>)
    requires g.WellFormed() && FeesNonNegative(g.ledger) && amount >= 0
    ensures from !in g.adj || to !in g.adj ==> r == None
    ensures from in g.adj && from == to ==> r == Some(Route([from], amount))
    ensures r.Some? ==>
              && from in g.adj && to in g.adj
              && Distinct(r.value.path)
              && Viable(g.ledger, r.value.path, from, to, amount)
              && r.value.totalCost == Cost(g.ledger, r.value.path, amount)
    ensures r.Some? ==> forall p | Viable(g.ledger, p, from, to, amount) :: r.value.totalCost <= Cost(g.ledger, p, amount)
    ensures r.None? && from in g.adj && to in g.adj ==> forall p :: !Viable(g.ledger, p, from, to, amount)
  {
    if from !in g.adj || to !in g.adj {
      return None;
    }
    var dist, pred, done, rank := Explore(g, to, amount);
    if dist[from].None? {
      forall p | Viable(g.ledger, p, from, to, amount)
        ensures false
      {
        SuffixBound(g, to, amount, dist, done, p, 0);
      }
      return None;
    }

    var path := Reconstruct(g, to, amount, from, dist, pred, done, rank);
    ChainViable(g, to, amount, from, dist, done, rank, path);
    forall p | Viable(g.ledger, p, from, to, amount)
      ensures dist[from].value <= Cost(g.ledger, p, amount)
    {
      SuffixBound(g, to, amount, dist, done, p, 0);
      assert p[0..] == p;
    }
    return Some(Route(path, dist[from].value));
  }
}
