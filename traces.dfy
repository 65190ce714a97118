/** Runs of the transport's delegate callbacks on the client, and what any
    such run does to the peer directory, the record log, the send log and the
    selection.

    A run lists the callbacks' updates in the order they take effect on the
    client. The loss handler writes the directory at once, while the receive
    and state-change handlers defer their writes to the main queue, so that
    order need not be the order in which the transport delivered them.
 */
module Traces {
  import opened Utils
  import opened Client

  /** The update of one delegate callback, at the moment it takes effect. */
  datatype Callback =
    | LostPeer(peer: PeerId)
    | StateChanged(peer: PeerId, state: SessionState, sessionPeers: seq<PeerId>)
    | Received(payload: Data, peer: PeerId)

  function Step(pf: Platform, s: ClientState, c: Callback): ClientState
  {
    match c
    case LostPeer(p) => OnLostPeer(s, p)
    case StateChanged(p, st, peers) => OnStateChange(pf, s, p, st, peers)
    case Received(data, p) => OnReceive(pf, s, data, p)
  }

  /** The state after the updates of `cs` take effect in order, one at a time. */
  function Run(pf: Platform, s: ClientState, cs: seq<Callback>): ClientState
    decreases |cs|
  {
    if cs == [] then s else Step(pf, Run(pf, s, cs[..|cs| - 1]), cs[|cs| - 1])
  }

  /** What the callbacks last said about one peer's directory entry. */
  datatype Fate = Untouched | Removed | Recorded(info: PeerInfo)

  /** The last directory update about `p` to take effect in `cs`: its loss,
      or a payload from it that decodes as a peer record. */
  function LastWord(pf: Platform, cs: seq<Callback>, p: PeerId): Fate
    decreases |cs|
  {
    if cs == [] then Untouched
    else
      var c := cs[|cs| - 1];
      if c.LostPeer? && c.peer == p then Removed
      else if c.Received? && c.peer == p && pf.infoDecode(c.payload).Some? then Recorded(pf.infoDecode(c.payload).value)
      else LastWord(pf, cs[..|cs| - 1], p)
  }

  /** The records of every payload in `cs` that decodes as one, in order,
      whoever sent it. */
  function DecodedInfos(pf: Platform, cs: seq<Callback>): seq<PeerInfo>
    decreases |cs|
  {
    if cs == [] then []
    else
      var c := cs[|cs| - 1];
      DecodedInfos(pf, cs[..|cs| - 1])
        + (if c.Received? && pf.infoDecode(c.payload).Some? then [pf.infoDecode(c.payload).value] else [])
  }

  /** The peers `cs` reports as connected. */
  function ConnectedReports(cs: seq<Callback>): set<PeerId>
  {
    set i | 0 <= i < |cs| && cs[i].StateChanged? && cs[i].state == Connected :: cs[i].peer
  }

  /** The transport's peer list at the last state change in `cs`, if any. */
  function LastSnapshot(cs: seq<Callback>): Option<seq<PeerId>>
    decreases |cs|
  {
    if cs == [] then None
    else if cs[|cs| - 1].StateChanged? then Some(cs[|cs| - 1].sessionPeers)
    else LastSnapshot(cs[..|cs| - 1])
  }

  /** The directory entry of `p` after a run is decided by the last update
      about `p` to take effect, a loss of `p` or a record from `p`: gone after
      a loss, the record after a receipt, and the original entry when neither
      happened. */
  lemma {:induction false} RunDirectory(pf: Platform, s: ClientState, cs: seq<Callback>, p: PeerId)
    ensures var t := Run(pf, s, cs);
            match LastWord(pf, cs, p)
            case Untouched => (p in t.peersDict <==> p in s.peersDict) && (p in s.peersDict ==> t.peersDict[p] == s.peersDict[p])
            case Removed => p !in t.peersDict
            case Recorded(i) => p in t.peersDict && t.peersDict[p] == i
    decreases |cs|
  {
    if cs != [] {
      RunDirectory(pf, s, cs[..|cs| - 1], p);
    }
  }

  /** Every record received is appended to the record log, in arrival order,
      with no deduplication by sender or by content. */
  lemma {:induction false} RunInformationsLog(pf: Platform, s: ClientState, cs: seq<Callback>)
    ensures Run(pf, s, cs).connectedPeersInformations == s.connectedPeersInformations + DecodedInfos(pf, cs)
    decreases |cs|
  {
    if cs != [] {
      RunInformationsLog(pf, s, cs[..|cs| - 1]);
    }
  }

  /** Delegate callbacks never change the selection, the local record, the
      input image or the registered handlers; in particular losing or
      disconnecting the selected peer leaves it selected. */
  lemma {:induction false} RunKeepsSelection(pf: Platform, s: ClientState, cs: seq<Callback>)
    ensures var t := Run(pf, s, cs);
            && t.selectedDevice == s.selectedDevice
            && t.myInformations == s.myInformations
            && t.inputImage == s.inputImage
            && t.hasDataHandler == s.hasDataHandler
            && t.hasConnectedHandler == s.hasConnectedHandler
            && t.hasDisconnectedHandler == s.hasDisconnectedHandler
    decreases |cs|
  {
    if cs != [] {
      RunKeepsSelection(pf, s, cs[..|cs| - 1]);
    }
  }

  /** The only sends delegate callbacks make are pushes of the encoded local
      record, each to a peer the run reported as connected; earlier sends are
      kept. */
  lemma {:induction false} RunSends(pf: Platform, s: ClientState, cs: seq<Callback>)
    ensures var t := Run(pf, s, cs);
            && |s.sends| <= |t.sends|
            && t.sends[..|s.sends|] == s.sends
            && forall i :: |s.sends| <= i < |t.sends| ==>
                 t.sends[i].to in ConnectedReports(cs) && pf.infoEncode(s.myInformations) == Some(t.sends[i].payload)
    decreases |cs|
  {
    if cs != [] {
      var init := cs[..|cs| - 1];
      var c := cs[|cs| - 1];
      RunSends(pf, s, init);
      RunKeepsSelection(pf, s, init);
      var u := Run(pf, s, init);
      var t := Run(pf, s, cs);
      assert ConnectedReports(init) <= ConnectedReports(cs) by {
        forall q | q in ConnectedReports(init) ensures q in ConnectedReports(cs) {
          var i :| 0 <= i < |init| && init[i].StateChanged? && init[i].state == Connected && init[i].peer == q;
          assert cs[i] == init[i];
        }
      }
      if c.StateChanged? && c.state == Connected {
        assert c.peer in ConnectedReports(cs) by {
          assert cs[|cs| - 1] == c;
        }
        assert t.sends == u.sends + PeerInformationsSends(pf, u.myInformations, c.peer, c.sessionPeers);
      } else {
        assert t.sends == u.sends;
      }
    }
  }

  /** The connected-peer snapshot is the transport's list at the last state
      change of the run, and unchanged when there was none. */
  lemma {:induction false} RunConnectedPeers(pf: Platform, s: ClientState, cs: seq<Callback>)
    ensures Run(pf, s, cs).connectedPeers == match LastSnapshot(cs)
                                              case None => s.connectedPeers
                                              case Some(peers) => peers
    decreases |cs|
  {
    if cs != [] {
      RunConnectedPeers(pf, s, cs[..|cs| - 1]);
    }
  }

  /** When a loss of a peer takes effect before its record is written, the
      peer is back in the directory with that record; when the record is
      written first and the loss after, the peer is gone. */
  lemma LostThenRecordedAgain(pf: Platform, s: ClientState, p: PeerId, data: Data)
    requires pf.infoDecode(data).Some?
    ensures var t := Run(pf, s, [LostPeer(p), Received(data, p)]);
            p in t.peersDict && t.peersDict[p] == pf.infoDecode(data).value
    ensures p !in Run(pf, s, [Received(data, p), LostPeer(p)]).peersDict
  {
    RunDirectory(pf, s, [LostPeer(p), Received(data, p)], p);
    RunDirectory(pf, s, [Received(data, p), LostPeer(p)], p);
  }
}
