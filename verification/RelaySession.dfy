/** One session of the relay: `session.rs`, with its counters and alias tables updated in place. */
module RelaySession {
  import opened MoqTypes
  import opened RelayState

  class Session {
    const id: SessionKey
    const role: EndpointRole
    var setupDone: bool
    var goawayReceived: bool
    var goawayUri: Option<Bytes>
    var peerNextExpected: nat
    var localNext: nat
    const localMaxExclusive: nat
    var peerMaxExclusive: nat
    var nextOutbound: nat
    var publishedNamespaces: set<Namespace>
    var inboundAliases: map<nat, TrackKey>

    ghost function View(): SessionState
      reads this
    {
      SessionState(role, setupDone, goawayReceived, goawayUri, peerNextExpected, localNext,
                   localMaxExclusive, peerMaxExclusive, nextOutbound, publishedNamespaces, inboundAliases)
    }

    constructor (id: SessionKey, role: EndpointRole, localMax: nat, peerMax: nat)
      ensures View() == NewSession(role, localMax, peerMax) && this.id == id
    {
      this.id := id;
      this.role := role;
      setupDone := false;
      goawayReceived, goawayUri := false, None;
      peerNextExpected := PeerFirst(role);
      localNext := LocalFirst(role);
      localMaxExclusive := localMax;
      peerMaxExclusive := peerMax;
      nextOutbound := 1;
      publishedNamespaces := {};
      inboundAliases := map[];
    }

    /** Accept a new request id of the peer, or say what is wrong with it and change nothing. */
    method ValidatePeerNewRequestId(id: nat) returns (error: Option<SessionError>)
      modifies this`peerNextExpected
      ensures error == PeerIdError(old(View()), id)
      ensures error.None? <==> id == old(peerNextExpected) && id < localMaxExclusive && ValidPeerParity(role, id)
      ensures View() == if error.None? then old(View()).(peerNext := old(peerNextExpected) + 2) else old(View())
    {
      if !ValidPeerParity(role, id) {
        return Some(InvalidRequestId);
      }
      if id != peerNextExpected {
        return Some(InvalidRequestId);
      }
      if id >= localMaxExclusive {
        return Some(TooManyRequests);
      }
      peerNextExpected := id + 2;
      return None;
    }

    /** The next id for a request to the peer, if its limit allows one. */
    method AllocLocalRequestId() returns (id: Option<nat>)
      modifies this`localNext
      ensures id == if CanAllocate(old(View())) then Some(old(localNext)) else None
      ensures id.Some? ==> id.value < peerMaxExclusive
      ensures View() == if id.Some? then old(View()).(localNext := old(localNext) + 2) else old(View())
    {
      var next := localNext;
      if next >= peerMaxExclusive {
        return None;
      }
      localNext := next + 2;
      return Some(next);
    }

    /** The peer's limit may only grow. */
    method OnPeerMaxRequestId(maxExclusive: nat) returns (error: Option<SessionError>)
      modifies this`peerMaxExclusive
      ensures error == if maxExclusive <= old(peerMaxExclusive) then Some(ProtocolViolation) else None
      ensures View() == if error.None? then old(View()).(peerMax := maxExclusive) else old(View())
      ensures old(peerMaxExclusive) <= peerMaxExclusive
    {
      if maxExclusive <= peerMaxExclusive {
        return Some(ProtocolViolation);
      }
      peerMaxExclusive := maxExclusive;
      return None;
    }

    /** A track alias this session has not been given before. */
    method AllocOutboundTrackAlias() returns (alias: nat)
      modifies this`nextOutbound
      ensures alias == old(nextOutbound) && alias < nextOutbound
      ensures View() == old(View()).(nextOutbound := alias + 1)
    {
      alias := nextOutbound;
      nextOutbound := alias + 1;
    }

    /** Bind an alias to a track; an alias already bound keeps its track. */
    method BindInboundAlias(alias: nat, track: TrackKey) returns (error: Option<SessionError>)
      modifies this`inboundAliases
      ensures error == if alias in old(inboundAliases) then Some(DuplicateTrackAlias) else None
      ensures View() == if error.None? then old(View()).(inbound := old(inboundAliases)[alias := track])
              else old(View())
      ensures forall a :: a in old(inboundAliases) ==>
                a in inboundAliases && inboundAliases[a] == old(inboundAliases)[a]
    {
      if alias in inboundAliases {
        return Some(DuplicateTrackAlias);
      }
      inboundAliases := inboundAliases[alias := track];
      return None;
    }
  }
}
