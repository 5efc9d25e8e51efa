/** The XOXO view controller: the player colour buttons, the tap that either colours a tile or
    places a game board, the peer-admission rule and session-ID command of the collaborative
    session, and the clearing of the session's anchors. */
module XOXO {
  import opened Wrappers

  datatype PlayerColor = Blue | Red

  /** Peers, anchors and tiles are known only by identity. */
  type PeerId = nat
  type AnchorId = nat
  type TileId = nat

  /** The translation of a raycast result's world transform, kept as an opaque value. */
  datatype WorldTransform = WorldTransform(x: real, y: real, z: real)

  const SessionIdPrefix: string := "SessionID:"
  /** Above this many connected peers, a discovered peer is not invited. */
  const MaxConnectedPeers: nat := 2
  const NoSurfaceWarning: string := "[WARNING] No surface detected!"

  /** peerDiscovered: invite the peer only when there is a session with at most two peers. */
  function PeerAdmission(hasSession: bool, connectedPeers: nat): (accept: bool)
    ensures !hasSession ==> !accept
    ensures hasSession ==> (accept <==> connectedPeers <= MaxConnectedPeers)
  {
    hasSession && !(connectedPeers > MaxConnectedPeers)
  }

  /** The command that tells peers this device's AR session identifier. */
  function SessionIdCommand(sessionId: string): (command: string)
    ensures |command| == |SessionIdPrefix| + |sessionId|
    ensures command[..|SessionIdPrefix|] == SessionIdPrefix
    ensures command[|SessionIdPrefix|..] == sessionId
  {
    SessionIdPrefix + sessionId
  }

  /** The identifier can be read back from the command, so different sessions send different
      commands. */
  lemma SessionIdCommandInjective(a: string, b: string)
    requires SessionIdCommand(a) == SessionIdCommand(b)
    ensures a == b
  {
    assert a == SessionIdCommand(a)[|SessionIdPrefix|..];
  }

  /** peerLeft: the departed peer's entry goes; every other entry stays as it was. */
  function WithoutPeer(ids: map<PeerId, string>, peer: PeerId): (r: map<PeerId, string>)
    ensures r.Keys == ids.Keys - {peer}
    ensures forall p :: p in r ==> r[p] == ids[p]
  {
    ids - {peer}
  }

  /** What a tap finds: no location; an entity (a tile), whether this device owns it, and
      whether an ownership request would be granted; or no entity, with the raycast results
      against horizontal surfaces. */
  datatype TapHit =
    | NoLocation
    | EntityHit(tile: TileId, isOwner: bool, granted: bool)
    | NoEntity(results: seq<WorldTransform>)

  /** Data handed to the multipeer session: the receiving peers and the command text. */
  datatype Packet = Packet(peers: seq<PeerId>, command: string)

  class ViewController {
    var playerColor: PlayerColor
    var peerSessionIDs: map<PeerId, string>
    var message: string
    var hasMultipeerSession: bool
    /** The colour each tile was last painted. */
    var tileColors: map<TileId, PlayerColor>
    /** The tiles whose ownership was requested, oldest first. */
    var ownershipRequests: seq<TileId>
    /** The game boards placed, oldest first. */
    var boards: seq<WorldTransform>
    var sessionAnchors: set<AnchorId>
    /** The identity the next anchor this app creates gets. */
    var nextAnchorId: AnchorId
    var sent: seq<Packet>

    constructor ()
      ensures playerColor == Blue && peerSessionIDs == map[] && !hasMultipeerSession
      ensures tileColors == map[] && ownershipRequests == [] && boards == []
      ensures sessionAnchors == {} && sent == []
    {
      playerColor := Blue;
      peerSessionIDs := map[];
      message := "";
      hasMultipeerSession := false;
      tileColors := map[];
      ownershipRequests := [];
      boards := [];
      sessionAnchors := {};
      nextAnchorId := 0;
      sent := [];
    }

    method Player1ButtonPressed()
      modifies this`playerColor
      ensures playerColor == Blue
    {
      playerColor := Blue;
    }

    method Player2ButtonPressed()
      modifies this`playerColor
      ensures playerColor == Red
    {
      playerColor := Red;
    }

    /** removeAnchors. `frame` lists the anchors of the session's current frame, None when
        there is no frame yet. */
    method RemoveAnchors(frame: Option<seq<AnchorId>>)
      modifies this`sessionAnchors, this`message
      ensures frame.None? ==> sessionAnchors == old(sessionAnchors) && message == old(message)
      ensures frame.Some? ==> sessionAnchors == old(sessionAnchors) - (set a | a in frame.value)
      ensures frame.Some? ==> message == "All anchors removed!"
    {
      if frame.None? { return; }
      var anchors := frame.value;
      for i := 0 to |anchors|
        invariant sessionAnchors == old(sessionAnchors) - (set a | a in anchors[..i])
      {
        assert anchors[..i + 1] == anchors[..i] + [anchors[i]];
        sessionAnchors := sessionAnchors - {anchors[i]};
      }
      assert anchors[..|anchors|] == anchors;
      message := "All anchors removed!";
    }

    method ClearButtonPressed(frame: Option<seq<AnchorId>>)
      modifies this`sessionAnchors, this`message
      ensures frame.None? ==> sessionAnchors == old(sessionAnchors) && message == old(message)
      ensures frame.Some? ==> sessionAnchors == old(sessionAnchors) - (set a | a in frame.value)
    {
      RemoveAnchors(frame);
    }

    /** A board anchor is added to the scene and to the session. */
    method AddGameBoardAnchor(transform: WorldTransform)
      modifies this`boards, this`sessionAnchors, this`nextAnchorId
      ensures boards == old(boards) + [transform]
      ensures sessionAnchors == old(sessionAnchors) + {old(nextAnchorId)}
      ensures nextAnchorId == old(nextAnchorId) + 1
    {
      boards := boards + [transform];
      sessionAnchors := sessionAnchors + {nextAnchorId};
      nextAnchorId := nextAnchorId + 1;
    }

    /** handleTap: a hit tile is painted when owned or once ownership is granted, and never
        gets a board; with no tile hit, a board goes on the first surface found, or a warning
        is shown when there is none. */
    method HandleTap(hit: TapHit)
      modifies this`tileColors, this`ownershipRequests, this`boards, this`sessionAnchors,
               this`nextAnchorId, this`message
      ensures hit.NoLocation? ==>
                tileColors == old(tileColors) && ownershipRequests == old(ownershipRequests) &&
                boards == old(boards) && sessionAnchors == old(sessionAnchors) && message == old(message)
      ensures hit.EntityHit? ==>
                boards == old(boards) && sessionAnchors == old(sessionAnchors) && message == old(message)
      ensures hit.EntityHit? ==>
                tileColors == if hit.isOwner || hit.granted then old(tileColors)[hit.tile := playerColor]
                              else old(tileColors)
      ensures hit.EntityHit? ==>
                ownershipRequests == old(ownershipRequests) + (if hit.isOwner then [] else [hit.tile])
      ensures hit.NoEntity? ==> tileColors == old(tileColors) && ownershipRequests == old(ownershipRequests)
      ensures hit.NoEntity? && hit.results != [] ==>
                boards == old(boards) + [hit.results[0]] && message == old(message) &&
                sessionAnchors == old(sessionAnchors) + {old(nextAnchorId)}
      ensures hit.NoEntity? && hit.results == [] ==>
                boards == old(boards) && sessionAnchors == old(sessionAnchors) && message == NoSurfaceWarning
      ensures hit.NoEntity? && hit.results != [] ==> nextAnchorId == old(nextAnchorId) + 1
      ensures !(hit.NoEntity? && hit.results != []) ==> nextAnchorId == old(nextAnchorId)
    {
      match hit
      case NoLocation =>
      case EntityHit(tile, isOwner, granted) =>
        if isOwner {
          tileColors := tileColors[tile := playerColor];
        } else {
          ownershipRequests := ownershipRequests + [tile];
          if granted {
            tileColors := tileColors[tile := playerColor];
          }
        }
      case NoEntity(results) =>
        if results != [] {
          AddGameBoardAnchor(results[0]);
        } else {
          message := NoSurfaceWarning;
        }
    }

    /** initMultipeerSession: the session is created and the app waits for peers. */
    method InitMultipeerSession()
      modifies this`hasMultipeerSession, this`message
      ensures hasMultipeerSession && message == "Waiting for peers..."
    {
      hasMultipeerSession := true;
      message := "Waiting for peers...";
    }

    /** sendARSessionIDTo: hands the session-ID command to the multipeer session, if any. */
    method SendARSessionIDTo(peers: seq<PeerId>, sessionId: string)
      modifies this`sent
      ensures sent == old(sent) + (if hasMultipeerSession then [Packet(peers, SessionIdCommand(sessionId))] else [])
    {
      if !hasMultipeerSession { return; }
      var command := SessionIdPrefix + sessionId;
      sent := sent + [Packet(peers, command)];
    }

    /** peerDiscovered, with the number of peers the session has connected. */
    method PeerDiscovered(peer: PeerId, connectedPeers: nat) returns (accept: bool)
      modifies this`message
      ensures accept == PeerAdmission(hasMultipeerSession, connectedPeers)
      ensures !hasMultipeerSession ==> message == old(message)
      ensures hasMultipeerSession && accept ==> message == "Peer discovered!"
      ensures hasMultipeerSession && !accept ==> message == "[WARNING] Max connections reached!"
    {
      if !hasMultipeerSession { return false; }
      message := "Peer discovered!";
      if connectedPeers > MaxConnectedPeers {
        message := "[WARNING] Max connections reached!";
        return false;
      } else {
        return true;
      }
    }

    /** peerJoined: the new peer is sent this device's session identifier. */
    method PeerJoined(peer: PeerId, sessionId: string)
      modifies this`message, this`sent
      ensures message == "Hold phones together..."
      ensures sent == old(sent) + (if hasMultipeerSession then [Packet([peer], SessionIdCommand(sessionId))] else [])
    {
      message := "Hold phones together...";
      SendARSessionIDTo([peer], sessionId);
    }

    method PeerLeft(peer: PeerId)
      modifies this`message, this`peerSessionIDs
      ensures message == "Peer left!"
      ensures peerSessionIDs == WithoutPeer(old(peerSessionIDs), peer)
    {
      message := "Peer left!";
      peerSessionIDs := peerSessionIDs - {peer};
    }
  }
}
