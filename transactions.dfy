/**
 * The transaction manager: a FIFO queue of payments `(from_id, to_id,
 * amount)` that `simulate` drains, in insertion order, into a log with one
 * line per payment.
 */
module Transactions {
  import opened Ids
  import opened Ledgers
  import opened Networks

  /** A queued payment. */
  datatype Tx = Tx(from: NodeId, to: NodeId, amount: int)

  /** A log line: the success format reports the total fees, the failure format does not. */
  datatype LogEntry =
    | Succeeded(tx: Tx, fees: int)
    | Failed(tx: Tx)

  /**
   * The log line `e` records the payment `tx`, and `execute_payment` for `tx`
   * took the ledger from `l` to `l'` with the outcome the line reports.
   */
  ghost predicate Logged(l: Ledger, l': Ledger, nodes: set<NodeId>, tx: Tx, e: LogEntry, path: seq<NodeId>) {
    && e.tx == tx
    && Settles(l, l', nodes, tx.from, tx.to, tx.amount, path, e.Succeeded?, if e.Succeeded? then e.fees else 0)
  }

  /** The line `process_tx` writes for the outcome of `execute_payment`. */
  function Entry(tx: Tx, success: bool, fees: int): (e: LogEntry)
    ensures e.tx == tx && (e.Succeeded? <==> success)
    ensures e.Succeeded? ==> e.fees == fees
  {
    if success then Succeeded(tx, fees) else Failed(tx)
  }

  /** The line written for an outcome of `execute_payment` records that outcome. */
  lemma LoggedOutcome(l: Ledger, l': Ledger, nodes: set<NodeId>, tx: Tx, success: bool, fees: int, path: seq<NodeId>)
    requires Settles(l, l', nodes, tx.from, tx.to, tx.amount, path, success, fees)
    ensures Logged(l, l', nodes, tx, Entry(tx, success, fees), path)
  {
    if !success {
      assert fees == 0;
    }
  }

  class TransactionManager {
    const network: Network
    var queue: seq<Tx>
    var log: seq<LogEntry>

    /** The managed network is valid and charges non-negative base fees. */
    ghost predicate Valid()
      reads network, network.nodes.Values, network.channels.Values
    {
      network.Valid() && network.NonNegativeFees() && Apart()
    }

    /** The manager is none of the objects the network holds. */
    ghost predicate Apart()
      reads network
    {
      var held: set<object> := network.channels.Values + network.nodes.Values + {network};
      this !in held
    }

    constructor (network: Network)
      ensures this.network == network && queue == [] && log == [] && Apart()
    {
      this.network := network;
      queue := [];
      log := [];
    }

    /** `add_transaction`: append to the queue, nothing else. */
    method AddTransaction(from: NodeId, to: NodeId, amount: int)
      modifies this`queue
      ensures queue == old(queue) + [Tx(from, to, amount)]
    {
      queue := queue + [Tx(from, to, amount)];
    }

    /** `process_tx`: execute the payment and append the line that reports its outcome. */
    method ProcessTx(from: NodeId, to: NodeId, amount: int) returns (ghost path: seq<NodeId>)
      requires Valid() && amount >= 0
      modifies this`log, network.channels.Values
      ensures Valid() && network.nodes == old(network.nodes) && network.channels == old(network.channels)
      ensures queue == old(queue)
      ensures |log| == |old(log)| + 1 && log[..|old(log)|] == old(log)
      ensures Logged(old(network.Ledger()), network.Ledger(), network.nodes.Keys, Tx(from, to, amount), log[|old(log)|], path)
    {
      var success, fees;
      success, fees, path := network.ExecutePayment(from, to, amount);
      label paid:
      var entry := Entry(Tx(from, to, amount), success, fees);
      LoggedOutcome(old(network.Ledger()), network.Ledger(), network.nodes.Keys, Tx(from, to, amount), success, fees, path);
      log := log + [entry];
      network.Untouched@paid();
    }

    /**
     * The log so far records the first `|log|` payments of `q`, replayed one
     * after the other from the ledger `l0`; `trace` holds the ledger before
     * each of them and after the last.
     */
    ghost predicate Replayed(q: seq<Tx>, l0: Ledger, trace: seq<Ledger>, paths: seq<seq<NodeId>>)
      reads this, network, network.channels.Values
    {
      && |log| <= |q| && |trace| == |log| + 1 && |paths| == |log|
      && trace[0] == l0 && trace[|log|] == network.Ledger()
      && forall j | 0 <= j < |log| :: Logged(trace[j], trace[j + 1], network.nodes.Keys, q[j], log[j], paths[j])
    }

    /** One iteration of the loop of `simulate`: process the next queued payment. */
    method ProcessNext(ghost l0: Ledger, ghost trace: seq<Ledger>, ghost paths: seq<seq<NodeId>>)
      returns (ghost trace': seq<Ledger>, ghost paths': seq<seq<NodeId>>)
      requires Valid() && Replayed(queue, l0, trace, paths) && |log| < |queue| && queue[|log|].amount >= 0
      modifies this`log, network.channels.Values
      ensures Valid() && queue == old(queue) && |log| == |old(log)| + 1 && Replayed(queue, l0, trace', paths')
      ensures network.nodes == old(network.nodes) && network.channels == old(network.channels)
    {
      var tx := queue[|log|];
      ghost var n := |log|;
      var path := ProcessTx(tx.from, tx.to, tx.amount);
      trace', paths' := trace + [network.Ledger()], paths + [path];
      assert forall j | 0 <= j < n :: log[j] == old(log)[j];
    }

    /**
     * `simulate` in sequential mode: clear the log, process the queued
     * payments in insertion order, empty the queue and return the log. The
     * ghost `trace` holds the ledger before each payment and after the last.
     */
    method Simulate() returns (result: seq<LogEntry>, ghost trace: seq<Ledger>, ghost paths: seq<seq<NodeId>>)
      requires Valid() && forall i | 0 <= i < |queue| :: queue[i].amount >= 0
      modifies this`queue, this`log, network.channels.Values
      ensures Valid() && queue == [] && result == log
      ensures network.nodes == old(network.nodes) && network.channels == old(network.channels)
      ensures |log| == |old(queue)| && |trace| == |log| + 1 && |paths| == |log|
      ensures trace[0] == old(network.Ledger()) && trace[|log|] == network.Ledger()
      ensures forall i | 0 <= i < |log| ::
                Logged(trace[i], trace[i + 1], network.nodes.Keys, old(queue)[i], log[i], paths[i])
    {
      ghost var l0 := network.Ledger();
      log := [];
      network.Untouched();
      trace, paths := [l0], [];
      while |log| < |queue|
        invariant queue == old(queue) && Valid() && Replayed(queue, l0, trace, paths)
        invariant network.nodes == old(network.nodes) && network.channels == old(network.channels)
        decreases |queue| - |log|
      {
        trace, paths := ProcessNext(l0, trace, paths);
      }
      label drained:
      queue := [];
      network.Untouched@drained();
      result := log;
    }
  }
}
