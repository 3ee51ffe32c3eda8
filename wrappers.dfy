/** Option, Result and Outcome for the ValueError paths of the engine. */
module Wrappers {

  datatype Option<+T> = None | Some(value: T)

  datatype Result<+T, +E> = Ok(value: T) | Err(error: E) {
    function GetOr(default: T): T {
      if Ok? then value else default
    }
  }

  /** The result of an operation that returns nothing but may raise. */
  datatype Outcome<+E> = Pass | Fail(error: E)
}

/** The `ValueError`s the engine raises, one constructor per cause. */
module Errors {

  datatype Error =
    | NodeExists          // `add_node`: the id is taken
    | MissingNode         // `add_channel`: an endpoint is not a node of the network
    | ChannelExists       // `add_channel`: the pair already has a channel
    | BalanceMismatch     // `Channel(...)`: the balances do not add up to the capacity
    | NotPartOfChannel    // `get_other_node`, `can_forward`, `update_balances`: not an endpoint
    | NotConnected        // `Node.add_channel`: the channel does not touch the node
    | NeighbourExists     // `Node.add_channel`: the node already has a channel to that neighbour
    | ChannelNotFound     // `change_fee`: no channel to that neighbour
}
