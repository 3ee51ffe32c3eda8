# Payment-channel engine of a Lightning Network simulator, in Dafny

This project models the engine of `network.py`, a small Lightning Network
simulator. The engine has four parts:

- **Channels.** Each channel is between two nodes. It has a fixed capacity, split into two side balances. It carries a base fee and a fee rate, and a counter of the fees it has earned.
- **Nodes.** Each node maps every neighbour's id to the channel object it shares with that neighbour.
- **The network.** It holds the nodes by id and the channels by the sorted pair of their endpoint ids. On top of these it runs:
  - `find_path`, a Dijkstra-style search that starts at the receiver. A node's label is the amount that must leave that node so the receiver gets the payment. Relaxing the channel from `u` to `v` gives `v` the label `label[u] + fee(label[u])`, but only if `v`'s side of the channel can forward `label[u]`.
  - `execute_payment`, which walks the found path from the receiver end back to the sender. On each hop it recomputes the fee, moves amount plus fee out of the sender's side, and books the fee on the channel. If the side is short, the move silently does nothing, but the fee is booked anyway.
- **The transaction manager.** It drains a FIFO queue of payments into a log, one entry per payment.

The files:

- `wrappers.dfy`: `Option`, `Result`, `Outcome`, and the causes of the `ValueError`s the engine raises.
- `ids.dfy`: node ids as strings under Python's string order, and the sorted-pair channel key.
- `fees.dfy`: the fee `base_fee + int(amount * fee_rate)`. The rate is a non-negative rational, and truncation toward zero is written out.
- `channel.dfy`: `ChannelState`, the value of a channel's fields, with the pure operations on it. The class `Channel` updates those fields in place.
- `node.dfy`: the class `Node` with `add_channel`, `get_neighbors` and `change_fee`.
- `ledger.dfy`: the channel states by key. On them it defines a route's cost, what executing a payment along a route does, and the lemmas about both.
- `routing.dfy`: the search. It has the `while pq` loop, the relaxation of each channel and the predecessor walk, each proved against the invariants of the search.
- `network.dfy`: the class `Network`. Its invariant says how the shared node and channel objects hang together. It has construction, `find_path` and the payment loop of `execute_payment`.
- `transactions.dfy`: the class `TransactionManager` in sequential mode.
- `scenario.dfy`: a worked payment. On channels A–B (no fees) and B–C (10 plus 1/100), both 500/500 of 1000, A pays C 100. The contract of `execute_payment` forces the route A, B, C, a total cost of 111, fees of 11, and both channels at 389/611.

A payment from a node to itself: `find_path` returns the one-node path with cost `amount`, and `execute_payment` returns success with no fees.

## Model

| member | source | states |
|---|---|---|
| Ids.AtMost | network.py:218 | Python's `<=` on `str`, which `sorted` and `min`/`max` use on ids: a prefix is at most the longer string, and a non-empty string is at most only a non-empty string whose first character is no smaller |
| Ids.AtMostFirstDifference | network.py:218 | the id order is exactly Python's: `a` is a prefix of `b`, or `a` has the smaller character at the first position where they differ |
| Ids.KeyOf | network.py:218-219 | the channel key is the pair of endpoint ids in Python string order, lower first |
| Ids.KeyOfSymmetric | network.py:307 | the key does not depend on the order of the endpoints, so the `min`/`max` key of a hop is the key `add_channel` stored the channel under |
| Ids.KeyOfSamePair | network.py:218-222 | two endpoint pairs get the same key exactly when they are the same unordered pair |
| Ids.AtMostTotal | network.py:218 | any two ids are ordered one way or the other |
| Ids.AtMostAntisymmetric | network.py:218 | ids ordered both ways are equal |
| Ids.AtMostTransitive | network.py:218 | the id order is transitive |
| Fees.Fee | network.py:109-119 | `calculate_fee`: on a non-negative amount, the base fee plus the product of amount and rate truncated toward zero (at least the base fee, less than one unit above the exact product); on a negative amount, at most the base fee |
| Fees.Scaled | network.py:119 | `int(amount * rate)`: the result times the denominator is within one denominator of `amount * num`, on the side of zero (truncation, not floor) |
| Fees.FeeAtLeastBase | network.py:119 | on a non-negative amount the fee is at least the base fee |
| Fees.FeeMonotone | network.py:119 | for fixed parameters the fee never decreases as the amount grows |
| Fees.ScaledMonotone | network.py:119 | the proportional part never decreases as the amount grows |
| Channels.ChannelState.OtherNode | network.py:92-107 | an error exactly for a non-endpoint; otherwise the other endpoint, which has the same channel key |
| Channels.ChannelState.CanForward | network.py:121-137 | an error exactly for a non-endpoint; otherwise true exactly when that side's balance is at least the amount, side A being checked first |
| Channels.ChannelState.Transfer | network.py:139-158 | an error exactly for a non-endpoint; if the side can forward, it loses exactly the amount; if the side cannot forward, nothing changes; the balances' sum and all other fields are kept |
| Channels.TransferConserves | network.py:147-156 | a transfer keeps `balance_a + balance_b == capacity` |
| Channels.TransferSolvent | network.py:147-156 | a transfer of a non-negative amount never makes a balance negative |
| Channels.CanForwardDownward | network.py:121-137 | a side that can forward an amount can forward any smaller one |
| Channels.Channel.constructor | network.py:82-90 | a channel with the given endpoints, capacity, balances, base fee, rate and id, and nothing earned |
| Channels.Channel.GetOtherNode | network.py:92-107 | refused exactly when the node is not an endpoint; otherwise the node and the result are the channel's two endpoints |
| Channels.Channel.CalculateFee | network.py:109-119 | on the channel's current parameters, and on a non-negative amount: the base fee plus the amount-times-rate product truncated toward zero; on a negative amount, at most the base fee |
| Channels.Channel.Open | network.py:64-90 | refused exactly when the balances do not add up to the capacity; otherwise a new channel with the given fields and nothing earned |
| Channels.Channel.UpdateBalances | network.py:139-158 | the fields become the transfer's result, left as they were when the side is short; fails with not-an-endpoint otherwise |
| Nodes.Node.constructor | network.py:9-17 | a node with the given id and no channels |
| Nodes.Node.AddChannel | network.py:19-33 | refused when the channel does not touch the node, or when the other endpoint already has a channel; otherwise the channel is filed under the other endpoint's id and nothing else changes |
| Nodes.Node.Neighbors | network.py:35-42 | `get_neighbors`: the neighbour ids are exactly the keys of the node's channel map |
| Nodes.Node.ChangeFee | network.py:44-57 | refused exactly when there is no channel to the neighbour; otherwise that channel's base fee and rate are overwritten and its balances, capacity and fee counter are kept |
| Ledgers.Cost | network.py:248-266 | the receiver's label is the amount; each earlier node's label is the next label plus its channel's fee on that label, so on a non-negative label it adds at least the base fee and at most the truncated proportional part on top |
| Ledgers.Hop | network.py:312-320 | one iteration of the `execute_payment` loop on a hop's channel: the amount forwarded is the label plus the recomputed fee, the fee counter gains that fee, and only balances and the counter change; when the sending side holds the forwarded amount it loses exactly that much, and otherwise the balances stay as they were |
| Ledgers.CostAtLeastAmount | network.py:258-266 | with non-negative base fees and amount, a route's labels are at least the amount and grow toward the sender |
| Ledgers.CostSameShape | network.py:262-263 | labels depend only on the fee parameters, not on balances or fee counters |
| Ledgers.CostIsAmountPlusFees | network.py:258-266 | a route's total cost is the amount plus the sum of the per-hop fees |
| Ledgers.Walk | network.py:304-320 | executing a route changes only balances and fee counters |
| Ledgers.WalkCost | network.py:300-320 | the amount that leaves the sender in execution is the route's total cost |
| Ledgers.WalkOffPath | network.py:304-320 | channels that no hop uses are unchanged by execution |
| Ledgers.WalkFirst | network.py:304-320 | the sender's hop is applied last, to what the later hops left |
| Ledgers.WalkHop | network.py:312-318 | on a route without repeated nodes, each hop's channel ends as one hop applied to its original state, on the label of the node after it |
| Ledgers.WalkConserves | network.py:147-156 | execution keeps every channel's balances adding up to its capacity |
| Ledgers.WalkSolvent | network.py:312-318 | with non-negative base fees and amount, execution never overdraws a side and never lowers a fee counter |
| Ledgers.EarnedMatchesHopFees | network.py:312-318 | along a suffix of the route, the growth of the fee counters is the sum of the hop fees |
| Ledgers.WalkFeesEarned | network.py:300-322 | the reported fees `total_cost - amount` are exactly what the route's fee counters gained |
| Routing.EntryAtMost | network.py:250-253 | the `(label, id)` tuple order `heapq` pops by: any two entries are ordered one way or the other, and entries ordered both ways are equal |
| Routing.MinExists | network.py:253 | a non-empty heap has a smallest entry in `(label, id)` order |
| Routing.RelaxChannel | network.py:257-267 | relaxing the channel from `u` to `v` keeps the search invariant and leaves the channel relaxed: if `v`'s side can forward `u`'s label, `v`'s label is at most `u`'s label plus the fee |
| Routing.Relax | network.py:256-267 | after all of `u`'s channels are relaxed, the search invariant holds and every extracted node has relaxed all of its channels |
| Routing.Visit | network.py:253-267 | one round of the `while pq` loop: a stale entry is skipped, otherwise the node is settled and relaxed; the heap shrinks or one more node is settled |
| Routing.Explore | network.py:246-267 | when the heap is empty, the receiver has label `amount` and no predecessor; every finite label belongs to an extracted node; predecessor links record relaxations; every extracted node is relaxed |
| Routing.Reconstruct | network.py:272-279 | following predecessors from the sender reaches the receiver without repeating a node, each step a recorded relaxation |
| Routing.ChainViable | network.py:258-266 | a chain of predecessor links is a viable walk whose cost is the sender's label |
| Routing.Search | network.py:230-281 | `None` when an end is missing or no walk is viable; `[from]` with cost `amount` when the ends coincide; otherwise a viable walk without repeated nodes from sender to receiver, whose cost is its total and which is no dearer than any viable walk |
| Networks.AddNodeKeepsWired | network.py:190-193 | a new node without channels keeps the network's objects consistent |
| Networks.RegisterKeepsWired | network.py:225-227 | filing a new channel with the network and both ends keeps the network's objects consistent |
| Networks.Network.ViewWellFormed | network.py:256-257 | in a valid network, a node's neighbours are exactly the nodes it shares a channel with, and every channel's endpoints are nodes |
| Networks.Network.NeighborsAreChannels | network.py:35-42 | `get_neighbors` of `u` holds `v` exactly when the network has a channel for the pair |
| Networks.Network.constructor | network.py:173-178 | an empty network is valid |
| Networks.Network.AddNode | network.py:180-194 | refused and nothing changes when the id is taken; otherwise a new node without channels is added under its id; validity is kept |
| Networks.Network.AddChannel | network.py:196-228 | in order: refused for a missing endpoint, then for an existing pair, then for mismatched balances, changing nothing; once both ends exist, the pair is new and the balances add up, one new channel object is stored under the pair's key and in both ends' maps with the given state, and the result is that channel, or for a self-loop the neighbour-exists refusal after the network and the node have stored it |
| Networks.Network.Create | network.py:224-228 | the channel construction and registration steps of `add_channel` |
| Networks.Network.Register | network.py:225-227 | the network map gains the channel, then each end files it; a self-loop fails at the second filing; validity is kept |
| Networks.Network.Attach | network.py:226-227 | `node.add_channel` on one end, seen from the network: only that node's map changes |
| Networks.Network.File | network.py:225 | the network map gains the channel under its key |
| Networks.Network.FindPath | network.py:230-281 | `find_path` changes nothing and returns the cheapest viable route without repeated nodes, or `None` exactly when an end is missing or no walk is viable |
| Networks.Network.FeeChanged | network.py:44-57 | `change_fee` through one node is seen by the network on that pair's channel alone, with only the fee parameters changed; validity is kept |
| Networks.Network.PayHop | network.py:312-320 | one hop: the channel becomes the hop's result and the amount forwarded is the label plus the fee; nothing else changes |
| Networks.Network.PayAlong | network.py:304-320 | the `for` loop from the receiver end back to the sender leaves the channels as executing the route does |
| Networks.Network.ExecutePayment | network.py:283-322 | with no route, returns failure with 0 fees and changes nothing (and no walk is viable when both ends exist); otherwise it executes the cheapest route, keeps validity, and returns success with fees `total_cost - amount` |
| Transactions.Entry | network.py:395-398 | the log entry reports success with the fees, or failure, for the given payment |
| Transactions.LoggedOutcome | network.py:394-399 | the entry written for an outcome of `execute_payment` records that outcome |
| Transactions.TransactionManager.constructor | network.py:337-346 | empty queue and log over the given network |
| Transactions.TransactionManager.AddTransaction | network.py:348-357 | the queue gains the payment at its end and nothing else changes |
| Transactions.TransactionManager.ProcessTx | network.py:385-399 | executes the payment and appends exactly one entry, which records its outcome; the earlier log is kept |
| Transactions.TransactionManager.ProcessNext | network.py:380-381 | one iteration of the sequential loop |
| Transactions.TransactionManager.Simulate | network.py:359-383 | clears the log, processes the queue in insertion order with one entry per payment, each recording the payment's effect on the ledger left by the one before; empties the queue and returns the log |
| Scenario.Labels | network.py:246-266 | on the worked example, C's label is 100, and B's and A's are 111 |
| Scenario.RouteViable | network.py:256-267 | A, B, C passes the search's checks and repeats no node |
| Scenario.OnlyRoute | network.py:269-281 | A, B, C is the only viable walk from A to C without repeated nodes |
| Scenario.RouteExecuted | network.py:304-322 | executing A, B, C sends 111 out of A, leaves both channels at 389/611, and books 11 on B–C and 0 on A–B |
| Scenario.Payment | network.py:283-322 | any outcome `execute_payment`'s contract allows here is success along A, B, C with fees 11 and both channels at 389/611 |

## Left out

- The concurrent branch of `simulate` (network.py:370-378) is left out. It runs one unsynchronised thread per payment over shared state, and its log order is not determined.
- Log lines are the datatype `LogEntry` (success with fees, or failure) rather than formatted strings. `print_network` and `Channel.__repr__` are console output and are not modelled.
- `simulation_single.py`, `transaction_gen.py` and `plot_channel_fee_variation.py` are not part of this model. They hold random topology and payment generation, CSV and console I/O, and plotting.
- Fee rates are non-negative rationals `num / den`, not floats. `int(amount * rate)` is exact truncation on them. Float rounding, negative rates and `float('inf')` are not modelled; an infinite label is `None`.
- Channel keys are the sorted pair of ids, not the string `f"{a}-{b}"`. With ids that contain `-`, two different pairs can produce the same string in the source. The model does not reproduce that collision.
- Node and channel identity comparisons in the source (`node == self.node_a`) are modelled as comparisons of node ids. Within one network each id names one node object.
- Node.Neighbors: a set, not a list; the dict's insertion order is not modelled.
- The heap is a finite set of `(label, id)` entries with extract-min in tuple order. A label only falls, so the same entry is never pushed twice, and a set loses nothing. The order in which a node's neighbours are relaxed is not fixed, because each relaxation touches a different neighbour.
- Routing.Search: requires non-negative base fees and amount, because otherwise the `while pq` loop of the source need not end. Take a single channel A–B with base fee -10 and rate 0, both sides well funded, and a payment of 100 to B. B's label 100 gives A the label 90, which gives B 80, then A 70, and the labels never stop falling. With a positive rate a negative amount can fall the same way. At base fee 0 and rate 1/100, a payment of -100 gives the labels -100, -101, -102, … without end. A payment of -50 ends, because `int(-0.5)` is 0.
- Networks.Network.FindPath: requires a valid network with non-negative base fees and a non-negative amount. Without these the search need not end (see Routing.Search), and the cheapest-route proof uses them. Validity is set up by the constructor and kept by every operation.
- Networks.Network.ExecutePayment: same requirements as FindPath. It also requires validity, which every reachable network has.
- Transactions.TransactionManager.Simulate: requires every queued amount to be non-negative and the network to charge non-negative base fees, for the same reason.
- Transactions.TransactionManager.ProcessTx: same requirements as ExecutePayment.
- Networks.Network.AddNode: requires the network invariant. The source states no precondition, but every network built through its operations satisfies the invariant.
- Networks.Network.AddChannel: requires the network invariant, as for AddNode.
- Networks.Network.FeeChanged: stated as a lemma about the state after `Node.ChangeFee` on one endpoint, not as a network operation, because the source has no network-level `change_fee`.
- Transactions.TransactionManager.Simulate: returns a copy of the log as a value. In the source the returned list is the manager's own `log` object, so a later `simulate` clears it as seen by the caller. That aliasing is not modelled.
- `Node.add_channel`'s unused `channel_id` argument is dropped.
- Three branches are unreachable in a valid network, and the model proves this instead of writing them: skipping an infinite label during relaxation (network.py:259-260), a reconstructed path that misses the receiver (network.py:278-279), and a missing channel during execution (network.py:309-310).
- The search's exact choice among equally cheap routes is not stated. The contract gives a cheapest viable route without repeated nodes.
