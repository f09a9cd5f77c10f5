/**
 * Channel and envelope types of the peer-to-peer layer, and the addressing
 * rule their documentation states for outbound envelopes.
 */
module P2P {
  import opened Wrappers

  /** A channel ID: an arbitrary 16-bit unsigned number. */
  type ChannelID = uint16

  /**
   * A peer ID. The empty ID stands for "not set": an outbound envelope has
   * no sender and an inbound envelope has no receiver.
   */
  type PeerID = Bytes

  /** The empty peer ID, meaning "not set". */
  const NoPeer: PeerID := []

  /** A message with its sender and its receiver or broadcast flag; the payload is opaque. */
  datatype Envelope<M> = Envelope(from: PeerID, to: PeerID, broadcast: bool, message: M)

  /** A channel ID from a one-byte reactor channel constant; the conversion widens and loses nothing. */
  function ChannelIDOfByte(b: bv8): (id: ChannelID)
    ensures id as int == b as int
  {
    b as int as ChannelID
  }

  /**
   * The peers an outbound envelope is sent to, given the connected peers, or
   * `None` when it is discarded: a broadcast goes to every connected peer
   * whatever `to` holds, otherwise `to` is the single recipient, and an
   * envelope with neither is discarded.
   */
  function Recipients<M>(e: Envelope<M>, connected: set<PeerID>): (r: Option<set<PeerID>>)
    ensures r.None? <==> !e.broadcast && e.to == NoPeer
    ensures r.Some? ==> r.value <= connected + {e.to}
  {
    if e.broadcast then Some(connected)
    else if e.to != NoPeer then Some({e.to})
    else None
  }

  /** A broadcast reaches exactly the connected peers. */
  lemma BroadcastReachesAllConnected<M>(e: Envelope<M>, connected: set<PeerID>)
    requires e.broadcast
    ensures Recipients(e, connected) == Some(connected)
  {
  }

  /** A broadcast ignores `to`: changing it changes nothing. */
  lemma BroadcastIgnoresTo<M>(e: Envelope<M>, connected: set<PeerID>, to: PeerID)
    requires e.broadcast
    ensures Recipients(e.(to := to), connected) == Recipients(e, connected)
  {
  }

  /** Without the broadcast flag, a set `to` names the one and only recipient, connected or not. */
  lemma DirectedHasOneRecipient<M>(e: Envelope<M>, connected: set<PeerID>)
    requires !e.broadcast && e.to != NoPeer
    ensures Recipients(e, connected).Some?
    ensures |Recipients(e, connected).value| == 1 && e.to in Recipients(e, connected).value
  {
  }

  /** Without the broadcast flag, the connected peers play no part in addressing. */
  lemma DirectedIgnoresConnected<M>(e: Envelope<M>, connected: set<PeerID>, other: set<PeerID>)
    requires !e.broadcast
    ensures Recipients(e, connected) == Recipients(e, other)
  {
  }

  /** An envelope with neither `to` nor the broadcast flag is discarded, and this is not an error. */
  lemma UnaddressedIsDiscarded<M>(e: Envelope<M>, connected: set<PeerID>)
    requires !e.broadcast && e.to == NoPeer
    ensures Recipients(e, connected) == None
  {
  }

  /**
   * An inbound envelope: `from` is always set and `to` is empty. That
   * `broadcast` is unset is a modelling choice: only `from` and `to` are
   * documented for inbound envelopes.
   */
  predicate IsInbound<M>(e: Envelope<M>)
  {
    e.from != NoPeer && e.to == NoPeer && !e.broadcast
  }

  /** The envelope delivered on `In` for a message received from the peer `from`. */
  function Received<M>(from: PeerID, message: M): (e: Envelope<M>)
    requires from != NoPeer
    ensures IsInbound(e)
    ensures e.from == from && e.message == message
  {
    Envelope(from, NoPeer, false, message)
  }

  /** A channel, known here by its ID; its queues and message type are not modelled. */
  datatype Channel = Channel(id: ChannelID)

  /** An error that an operation may return. */
  datatype Error = Error(reason: string)

  /** Closing a channel always succeeds. */
  function Close(c: Channel): (err: Option<Error>)
    ensures err == None
  {
    None
  }
}
