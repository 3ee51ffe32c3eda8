/**
 * A node of the network: its id and the map from each neighbour's id to the
 * channel it shares with that neighbour. The channel objects are shared with
 * the other endpoint and with the network's channel map.
 */
module Nodes {
  import opened Wrappers
  import opened Errors
  import opened Ids
  import opened Fees
  import opened Channels

  class Node {
    const id: NodeId
    var channels: map<NodeId, Channel>

    constructor (id: NodeId)
      ensures this.id == id && channels == map[]
    {
      this.id := id;
      channels := map[];
    }

    /** `get_neighbors` (as a set: the dict's insertion order is not modelled). */
    function Neighbors(): (r: set<NodeId>)
      reads this
      ensures forall v :: v in r <==> v in channels
    {
      channels.Keys
    }

    /**
     * `add_channel`: register `channel` under the id of its other endpoint,
     * refusing a channel that does not touch this node or a neighbour that
     * already has a channel.
     */
    method AddChannel(channel: Channel) returns (r: Outcome<Error>)
      modifies this`channels
      ensures channel.nodeA != id && channel.nodeB != id ==> r == Fail(NotConnected) && channels == old(channels)
      ensures channel.nodeA == id || channel.nodeB == id ==>
                var other := if channel.nodeA == id then channel.nodeB else channel.nodeA;
                if other in old(channels) then r == Fail(NeighbourExists) && channels == old(channels)
                else r == Pass && channels == old(channels)[other := channel]
    {
      if channel.nodeA != id && channel.nodeB != id {
        return Fail(NotConnected);
      }
      var other := channel.GetOtherNode(id).value;
      if other in channels {
        return Fail(NeighbourExists);
      }
      channels := channels[other := channel];
      return Pass;
    }

    /**
     * `change_fee`: overwrite the fee parameters of the channel to `other`,
     * which is the same object the other endpoint and the network hold.
     */
    method ChangeFee(other: NodeId, newBaseFee: int, newFeeRate: Rate) returns (r: Outcome<Error>)
      modifies if other in channels then {channels[other]} else {}
      ensures r == (if other in channels then Pass else Fail(ChannelNotFound))
      ensures other in channels ==>
                channels[other].State() == old(channels[other].State()).(baseFee := newBaseFee, feeRate := newFeeRate)
    {
      if other !in channels {
        return Fail(ChannelNotFound);
      }
      var channel := channels[other];
      channel.baseFee := newBaseFee;
      channel.feeRate := newFeeRate;
      return Pass;
    }
  }
}
