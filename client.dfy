/** The multipeer client: peer bookkeeping, payload dispatch and the rules
    that decide which peers a send reaches.

    The transport (sessions, advertiser, browser), the platform decoders and
    encoders, and the application's callbacks are outside the model. The
    decoders and encoders are the fields of a `Platform` value; the transport's
    own list of connected peers at the moment of a call is a parameter
    (`sessionPeers`); every call to the transport's send primitive is recorded
    in a ghost log of `Send`s, and every invocation of an application callback
    in a ghost log of `Notice`s.
 */
module Client {
  import opened Utils

  datatype Option<T> = None | Some(value: T)

  newtype byte = x: int | 0 <= x < 256

  /** An opaque byte buffer (`Data`). */
  type Data = seq<byte>

  /** A transport peer identity (`MCPeerID`): compared by identity only. */
  datatype PeerId = PeerId(uid: nat)

  /** The record a device advertises about itself (`PeerInformations`). */
  datatype PeerInfo = PeerInfo(name: string, profilePictureData: Option<Data>)

  /** A decoded platform image (`UIImage`), kept abstract as its bitmap bytes. */
  datatype Image = Image(bitmap: Data)

  /** The connection states the transport reports for a peer. */
  datatype SessionState = NotConnected | Connecting | Connected

  /** One call of the transport's reliable send primitive, to a single peer. */
  datatype Send = Send(to: PeerId, payload: Data)

  /** One invocation of an application callback registered on the client. */
  datatype Notice =
    | PeerConnectedNotice(peer: PeerId)
    | PeerDisconnectedNotice(peer: PeerId)
    | PeerDataNotice(payload: Data, peer: PeerId)

  /** The platform codecs the client relies on, as total functions. */
  datatype Platform = Platform(
    utf8Encode: string -> Data,           // message.data(using: .utf8)!
    utf8Decode: Data -> Option<string>,   // String(data:encoding: .utf8)
    imageDecode: Data -> Option<Image>,   // UIImage(data:scale:)
    pngData: Image -> Option<Data>,       // UIImage.pngData()
    infoEncode: PeerInfo -> Option<Data>, // getDataFromPeerInformations
    infoDecode: Data -> Option<PeerInfo>, // getPeerInformationsFromData
    tokenDecodes: Data -> bool            // NSKeyedUnarchiver of NIDiscoveryToken succeeds
  )

  /** A snapshot of every field of the client the model tracks. */
  datatype ClientState = ClientState(
    myInformations: PeerInfo,
    receivedMsg: Option<string>,
    receivedImage: Option<Image>,
    inputImage: Option<Image>,
    connectedPeers: seq<PeerId>,
    connectedPeersInformations: seq<PeerInfo>,
    peersDict: map<PeerId, PeerInfo>,
    selectedDevice: Option<PeerId>,
    hasDataHandler: bool,
    hasConnectedHandler: bool,
    hasDisconnectedHandler: bool,
    sends: seq<Send>,
    notices: seq<Notice>
  )

  /** The state right after initialisation, with the profile loaded from settings. */
  function Initial(myInformations: PeerInfo): (s: ClientState)
    ensures s.myInformations == myInformations
    ensures s.peersDict == map[] && s.connectedPeers == [] && s.connectedPeersInformations == []
    ensures s.selectedDevice.None? && s.receivedMsg.None? && s.receivedImage.None? && s.inputImage.None?
    ensures !s.hasDataHandler && !s.hasConnectedHandler && !s.hasDisconnectedHandler
    ensures s.sends == [] && s.notices == []
  {
    ClientState(myInformations, None, None, None, [], [], map[], None,
                false, false, false, [], [])
  }

  // ---------------------------------------------------------------------
  // Send-target rules
  // ---------------------------------------------------------------------

  /** One send of `payload` to each peer of `dests`, in order. */
  function Fanout(dests: seq<PeerId>, payload: Data): (r: seq<Send>)
    ensures |r| == |dests|
    ensures forall i :: 0 <= i < |r| ==> r[i] == Send(dests[i], payload)
  {
    if dests == [] then [] else [Send(dests[0], payload)] + Fanout(dests[1..], payload)
  }

  /** The peers `sendMessage` and `sendImage` address: the selected device,
      provided the transport has at least one connected peer. */
  function SelectedTargets(sessionPeers: seq<PeerId>, selected: Option<PeerId>): (dests: seq<PeerId>)
    ensures |dests| <= 1
    ensures dests == [] <==> sessionPeers == [] || selected.None?
    ensures forall p :: p in dests ==> selected == Some(p)
  {
    if sessionPeers != [] && selected.Some? then [selected.value] else []
  }

  /** The peers `sendData` addresses: the explicit target first, then the
      selected device, each when present, and nobody when the transport has
      no connected peer. Nothing removes a duplicate. */
  function SendDataTargets(sessionPeers: seq<PeerId>, target: Option<PeerId>, selected: Option<PeerId>): (dests: seq<PeerId>)
    ensures sessionPeers == [] ==> dests == []
    ensures sessionPeers != [] ==> |dests| == (if target.Some? then 1 else 0) + (if selected.Some? then 1 else 0)
    ensures forall p :: p in dests ==> target == Some(p) || selected == Some(p)
    ensures sessionPeers != [] && target.Some? ==> dests[0] == target.value
    ensures sessionPeers != [] && selected.Some? ==> dests[|dests| - 1] == selected.value
  {
    if sessionPeers == [] then []
    else (if target.Some? then [target.value] else []) + (if selected.Some? then [selected.value] else [])
  }

  /** With both a target and a selection, `sendData` sends the payload twice,
      even when both name the same peer. */
  lemma SendDataSendsTwice(sessionPeers: seq<PeerId>, target: PeerId, selected: PeerId, data: Data)
    requires sessionPeers != []
    ensures SendDataTargets(sessionPeers, Some(target), Some(selected)) == [target, selected]
    ensures Fanout(SendDataTargets(sessionPeers, Some(target), Some(selected)), data)
            == [Send(target, data), Send(selected, data)]
  {
  }

  /** The payload `inputImage?.pngData()`: none when there is no image or the
      image has no PNG representation. */
  function ImagePayload(pf: Platform, input: Option<Image>): (r: Option<Data>)
    ensures r.Some? ==> input.Some? && pf.pngData(input.value) == r
    ensures input.Some? && pf.pngData(input.value).Some? ==> r.Some?
  {
    if input.Some? then pf.pngData(input.value) else None
  }

  /** The sends of `sendImage`, or `None` when its forced unwrap of the
      image payload traps. */
  function SendImageSends(pf: Platform, sessionPeers: seq<PeerId>, selected: Option<PeerId>, input: Option<Image>): (r: Option<seq<Send>>)
    ensures r.None? <==> sessionPeers != [] && selected.Some? && ImagePayload(pf, input).None?
    ensures r.Some? && (sessionPeers == [] || selected.None?) ==> r.value == []
    ensures r.Some? && sessionPeers != [] && selected.Some? ==>
              r.value == [Send(selected.value, ImagePayload(pf, input).value)]
  {
    var dests := SelectedTargets(sessionPeers, selected);
    if dests == [] then Some([])
    else if ImagePayload(pf, input).None? then None
    else Some(Fanout(dests, ImagePayload(pf, input).value))
  }

  /** The sends of `sendPeerInformations(target)`: the encoded local record to
      `target`, unless no peer is connected or the encoding fails. */
  function PeerInformationsSends(pf: Platform, info: PeerInfo, target: PeerId, sessionPeers: seq<PeerId>): (r: seq<Send>)
    ensures |r| <= 1
    ensures r == [] <==> sessionPeers == [] || pf.infoEncode(info).None?
    ensures forall m :: m in r ==> m.to == target && pf.infoEncode(info) == Some(m.payload)
  {
    if sessionPeers != [] && pf.infoEncode(info).Some? then [Send(target, pf.infoEncode(info).value)] else []
  }

  // ---------------------------------------------------------------------
  // Delegate callbacks, as steps on the state
  // ---------------------------------------------------------------------

  /** The callbacks a state change invokes: the connected handler on
      `connected`, the disconnected handler on `notConnected`, each only when
      registered, and nothing on `connecting`. */
  function ConnectionNotices(s: ClientState, peer: PeerId, state: SessionState): (r: seq<Notice>)
    ensures |r| <= 1
    ensures r != [] <==> (state == Connected && s.hasConnectedHandler) || (state == NotConnected && s.hasDisconnectedHandler)
    ensures state == Connected && r != [] ==> r == [PeerConnectedNotice(peer)]
    ensures state == NotConnected && r != [] ==> r == [PeerDisconnectedNotice(peer)]
  {
    match state
    case Connected => if s.hasConnectedHandler then [PeerConnectedNotice(peer)] else []
    case NotConnected => if s.hasDisconnectedHandler then [PeerDisconnectedNotice(peer)] else []
    case Connecting => []
  }

  /** `browser(_:lostPeer:)`: the lost peer's directory entry goes, nothing else changes. */
  function OnLostPeer(s: ClientState, peer: PeerId): (t: ClientState)
    ensures peer !in t.peersDict
    ensures t.peersDict.Keys == s.peersDict.Keys - {peer}
    ensures forall q :: q in t.peersDict ==> t.peersDict[q] == s.peersDict[q]
    ensures t.(peersDict := s.peersDict) == s
  {
    s.(peersDict := RemoveKey(s.peersDict, peer))
  }

  /** `session(_:peer:didChange:)`: notify the registered handler, refresh the
      connected-peer snapshot from the transport, and push the local record to
      the peer that just connected. */
  function OnStateChange(pf: Platform, s: ClientState, peer: PeerId, state: SessionState, sessionPeers: seq<PeerId>): (t: ClientState)
    ensures t.connectedPeers == sessionPeers
    ensures t.notices == s.notices + ConnectionNotices(s, peer, state)
    ensures state != Connected ==> t.sends == s.sends
    ensures state == Connected ==> t.sends == s.sends + PeerInformationsSends(pf, s.myInformations, peer, sessionPeers)
    ensures t.(connectedPeers := s.connectedPeers, notices := s.notices, sends := s.sends) == s
  {
    var notified := s.(notices := s.notices + ConnectionNotices(s, peer, state));
    var refreshed := notified.(connectedPeers := sessionPeers);
    if state == Connected then
      refreshed.(sends := refreshed.sends + PeerInformationsSends(pf, refreshed.myInformations, peer, sessionPeers))
    else
      refreshed
  }

  /** `session(_:didReceive:fromPeer:)`: every decoder is tried on the payload
      and each one that succeeds applies its own update; no decoder excludes
      another. */
  function OnReceive(pf: Platform, s: ClientState, data: Data, from: PeerId): (t: ClientState)
    // UTF-8 text becomes the last received message
    ensures pf.utf8Decode(data).Some? ==> t.receivedMsg == pf.utf8Decode(data)
    ensures pf.utf8Decode(data).None? ==> t.receivedMsg == s.receivedMsg
    // an image becomes the last received image
    ensures pf.imageDecode(data).Some? ==> t.receivedImage == pf.imageDecode(data)
    ensures pf.imageDecode(data).None? ==> t.receivedImage == s.receivedImage
    // a peer record is logged once more and becomes the sender's directory entry
    ensures pf.infoDecode(data).Some? ==>
              && t.connectedPeersInformations == s.connectedPeersInformations + [pf.infoDecode(data).value]
              && t.peersDict == Appending(s.peersDict, from, pf.infoDecode(data).value)
    ensures pf.infoDecode(data).None? ==>
              t.connectedPeersInformations == s.connectedPeersInformations && t.peersDict == s.peersDict
    // a discovery token goes to the data handler, when one is registered
    ensures s.hasDataHandler && pf.tokenDecodes(data) ==> t.notices == s.notices + [PeerDataNotice(data, from)]
    ensures !(s.hasDataHandler && pf.tokenDecodes(data)) ==> t.notices == s.notices
    // nothing else changes, and in particular nothing is sent
    ensures t.(receivedMsg := s.receivedMsg, receivedImage := s.receivedImage,
               connectedPeersInformations := s.connectedPeersInformations,
               peersDict := s.peersDict, notices := s.notices) == s
  {
    var s1 := if pf.utf8Decode(data).Some? then s.(receivedMsg := pf.utf8Decode(data)) else s;
    var s2 := if pf.imageDecode(data).Some? then s1.(receivedImage := pf.imageDecode(data)) else s1;
    var s3 :=
      if pf.infoDecode(data).Some? then
        s2.(connectedPeersInformations := s2.connectedPeersInformations + [pf.infoDecode(data).value],
            peersDict := Appending(s2.peersDict, from, pf.infoDecode(data).value))
      else s2;
    if s3.hasDataHandler && pf.tokenDecodes(data) then s3.(notices := s3.notices + [PeerDataNotice(data, from)]) else s3
  }

  /** One payload that several decoders accept updates every matching field
      at once; there is no exclusive classification. */
  lemma OnePayloadManyConsumers(pf: Platform, s: ClientState, data: Data, from: PeerId)
    requires pf.utf8Decode(data).Some? && pf.imageDecode(data).Some? && pf.infoDecode(data).Some?
    requires s.hasDataHandler && pf.tokenDecodes(data)
    ensures var t := OnReceive(pf, s, data, from);
            && t.receivedMsg == pf.utf8Decode(data)
            && t.receivedImage == pf.imageDecode(data)
            && t.peersDict[from] == pf.infoDecode(data).value
            && |t.connectedPeersInformations| == |s.connectedPeersInformations| + 1
            && t.notices[|t.notices| - 1] == PeerDataNotice(data, from)
  {
  }

  /** Each field's update depends on its own decoder alone: two platforms that
      agree on one decoder for a payload agree on the field it drives. */
  lemma DecodersIndependent(pf1: Platform, pf2: Platform, s: ClientState, data: Data, from: PeerId)
    ensures pf1.utf8Decode(data) == pf2.utf8Decode(data) ==>
              OnReceive(pf1, s, data, from).receivedMsg == OnReceive(pf2, s, data, from).receivedMsg
    ensures pf1.imageDecode(data) == pf2.imageDecode(data) ==>
              OnReceive(pf1, s, data, from).receivedImage == OnReceive(pf2, s, data, from).receivedImage
    ensures pf1.infoDecode(data) == pf2.infoDecode(data) ==>
              && OnReceive(pf1, s, data, from).peersDict == OnReceive(pf2, s, data, from).peersDict
              && OnReceive(pf1, s, data, from).connectedPeersInformations
                 == OnReceive(pf2, s, data, from).connectedPeersInformations
    ensures pf1.tokenDecodes(data) == pf2.tokenDecodes(data) ==>
              OnReceive(pf1, s, data, from).notices == OnReceive(pf2, s, data, from).notices
  {
  }

  /** Receiving the same record twice from the same peer logs it twice but
      leaves the directory as after the first receipt. */
  lemma RepeatedInfoNotDeduplicated(pf: Platform, s: ClientState, data: Data, from: PeerId)
    requires pf.infoDecode(data).Some?
    ensures var once := OnReceive(pf, s, data, from);
            var twice := OnReceive(pf, once, data, from);
            && twice.peersDict == once.peersDict
            && twice.connectedPeersInformations
               == s.connectedPeersInformations + [pf.infoDecode(data).value, pf.infoDecode(data).value]
  {
    var i := pf.infoDecode(data).value;
    var once := OnReceive(pf, s, data, from);
    AppendingIdempotent(s.peersDict, from, i);
    assert OnReceive(pf, once, data, from).peersDict == Appending(once.peersDict, from, i);
  }

  // ---------------------------------------------------------------------
  // The client object
  // ---------------------------------------------------------------------

  /** The client object: its fields are updated in place by the send methods
      and the transport's delegate callbacks. */
  class MPCClient {
    /** The rendezvous tag shared by all participants. */
    const serviceType: string := "uwb-session"
    const platform: Platform

    var myInformations: PeerInfo
    var receivedMsg: Option<string>
    var receivedImage: Option<Image>
    var inputImage: Option<Image>
    var connectedPeers: seq<PeerId>
    var connectedPeersInformations: seq<PeerInfo>
    var peersDict: map<PeerId, PeerInfo>
    var selectedDevice: Option<PeerId>
    var hasDataHandler: bool
    var hasConnectedHandler: bool
    var hasDisconnectedHandler: bool

    /** Every call of the transport's send primitive, in order. */
    ghost var sends: seq<Send>
    /** Every application callback invoked, in order. */
    ghost var notices: seq<Notice>

    ghost function State(): ClientState
      reads this
    {
      ClientState(myInformations, receivedMsg, receivedImage, inputImage, connectedPeers,
                  connectedPeersInformations, peersDict, selectedDevice,
                  hasDataHandler, hasConnectedHandler, hasDisconnectedHandler, sends, notices)
    }

    /** `init()`, with the stored profile passed in. */
    constructor (platform: Platform, myInformations: PeerInfo)
      ensures this.platform == platform
      ensures State() == Initial(myInformations)
    {
      this.platform := platform;
      this.myInformations := myInformations;
      receivedMsg, receivedImage, inputImage := None, None, None;
      connectedPeers, connectedPeersInformations, peersDict := [], [], map[];
      selectedDevice := None;
      hasDataHandler, hasConnectedHandler, hasDisconnectedHandler := false, false, false;
      sends, notices := [], [];
    }

    /** `sendMessage(message:)`: the UTF-8 text to the selected device. */
    method SendMessage(message: string, sessionPeers: seq<PeerId>)
      modifies this
      ensures sends == old(sends) + Fanout(SelectedTargets(sessionPeers, selectedDevice), platform.utf8Encode(message))
      ensures State() == old(State()).(sends := sends)
    {
      if sessionPeers != [] {
        if selectedDevice.Some? {
          sends := sends + [Send(selectedDevice.value, platform.utf8Encode(message))];
        }
      }
    }

    /** `sendImage()`: the PNG of the input image to the selected device;
        `trapped` when the forced unwrap of a missing payload aborts. */
    method SendImage(sessionPeers: seq<PeerId>) returns (trapped: bool)
      modifies this
      ensures trapped <==> SendImageSends(platform, sessionPeers, selectedDevice, inputImage).None?
      ensures trapped ==> sends == old(sends)
      ensures !trapped ==> sends == old(sends) + SendImageSends(platform, sessionPeers, selectedDevice, inputImage).value
      ensures State() == old(State()).(sends := sends)
    {
      trapped := false;
      if sessionPeers != [] {
        if selectedDevice.Some? {
          var data := if inputImage.Some? then platform.pngData(inputImage.value) else None;
          if data.None? {
            trapped := true;
            return;
          }
          sends := sends + [Send(selectedDevice.value, data.value)];
        }
      }
    }

    /** `sendData(data:targetDevice:)`: to the target and then to the selection. */
    method SendData(data: Data, targetDevice: Option<PeerId>, sessionPeers: seq<PeerId>)
      modifies this
      ensures sends == old(sends) + Fanout(SendDataTargets(sessionPeers, targetDevice, selectedDevice), data)
      ensures State() == old(State()).(sends := sends)
    {
      if sessionPeers != [] {
        if targetDevice.Some? {
          sends := sends + [Send(targetDevice.value, data)];
        }
        if selectedDevice.Some? {
          sends := sends + [Send(selectedDevice.value, data)];
        }
      }
    }

    /** `sendPeerInformations(targetDevice:)`: the encoded local record to `targetDevice`. */
    method SendPeerInformations(targetDevice: PeerId, sessionPeers: seq<PeerId>)
      modifies this
      ensures sends == old(sends) + PeerInformationsSends(platform, myInformations, targetDevice, sessionPeers)
      ensures State() == old(State()).(sends := sends)
    {
      if sessionPeers != [] {
        var encoded := platform.infoEncode(myInformations);
        if encoded.Some? {
          sends := sends + [Send(targetDevice, encoded.value)];
        }
      }
    }

    /** `browser(_:lostPeer:)`. */
    method LostPeer(peer: PeerId)
      modifies this
      ensures State() == OnLostPeer(old(State()), peer)
    {
      peersDict := RemoveKey(peersDict, peer);
    }

    /** `session(_:peer:didChange:)`; `sessionPeers` is the transport's list
        of connected peers when the change is handled. */
    method DidChangeState(peer: PeerId, state: SessionState, sessionPeers: seq<PeerId>)
      modifies this
      ensures State() == OnStateChange(platform, old(State()), peer, state, sessionPeers)
    {
      match state {
        case Connected =>
          if hasConnectedHandler {
            notices := notices + [PeerConnectedNotice(peer)];
          }
        case NotConnected =>
          if hasDisconnectedHandler {
            notices := notices + [PeerDisconnectedNotice(peer)];
          }
        case Connecting =>
      }
      connectedPeers := sessionPeers;
      if state == Connected {
        SendPeerInformations(peer, sessionPeers);
      }
    }

    /** `session(_:didReceive:fromPeer:)`. */
    method DidReceive(data: Data, from: PeerId)
      modifies this
      ensures State() == OnReceive(platform, old(State()), data, from)
    {
      var text := platform.utf8Decode(data);
      if text.Some? {
        receivedMsg := text;
      }
      var image := platform.imageDecode(data);
      if image.Some? {
        receivedImage := image;
      }
      var info := platform.infoDecode(data);
      if info.Some? {
        connectedPeersInformations := connectedPeersInformations + [info.value];
        peersDict := Appending(peersDict, from, info.value);
      }
      if hasDataHandler && platform.tokenDecodes(data) {
        notices := notices + [PeerDataNotice(data, from)];
      }
    }
  }
}
