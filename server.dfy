/**
 * The single-client socket server. It listens either on a TCP port or on a
 * Unix domain socket (one flag switches between the two) and keeps at most
 * one connected client. Socket calls are replaced by parameters that say
 * how they turned out; the bytes exchanged with the client are kept as two
 * streams, what the server has written and what the client has sent.
 */
module Server {
  import opened Wrappers
  import opened Framing

  /** The client behind the live connection. */
  datatype Peer = TcpPeer(endpoint: string) | UdsPeer(fd: nat)

  /** What the server broadcasts to its observers, in order. */
  datatype Event =
    | ConnectedEvent(peer: Peer, accepted: bool)
    | ReceivedEvent(peer: Peer, message: seq<byte>)
    | ErrorEvent(peer: Peer, error: FrameError)

  class UnixTcpServer {
    /** The byte order both ends write header fields in. */
    const order: ByteOrder
    var portNum: int
    var isListening: bool
    /** Selects the transport: UDS when set, TCP otherwise. */
    var isUDS: bool
    /** The connected TCP client, if any. */
    var connectionSocket: Option<string>
    /** The connected UDS client's descriptor, -1 when there is none. */
    var udsConnFd: int
    /** Frames written to the current client, and the messages they carry. */
    var outbox: seq<byte>
    var sent: seq<seq<byte>>
    /** Bytes the current client has sent that the server has not read yet. */
    var inbox: seq<byte>
    var events: seq<Event>

    /**
     * At most one client: the connection of the transport not selected is
     * empty, nothing is connected before listening, and what was written is
     * exactly the frames of the messages sent.
     */
    predicate Valid()
      reads this
    {
      && udsConnFd >= -1
      && (isUDS ==> connectionSocket == None)
      && (!isUDS ==> udsConnFd == -1)
      && (!isListening ==> connectionSocket == None && udsConnFd == -1)
      && (forall k :: 0 <= k < |sent| ==> |sent[k]| <= MaxPayload)
      && outbox == WrapAll(order, sent)
    }

    function IsConnected(): (b: bool)
      reads this
      requires Valid()
      ensures b <==> CurrentPeer().Some?
    {
      if isUDS then udsConnFd >= 0 else connectionSocket.Some?
    }

    /** The client at the other end of the live connection. */
    function CurrentPeer(): Option<Peer>
      reads this
    {
      if isUDS then (if udsConnFd >= 0 then Some(UdsPeer(udsConnFd)) else None)
      else (if connectionSocket.Some? then Some(TcpPeer(connectionSocket.value)) else None)
    }

    constructor(order: ByteOrder)
      ensures Valid()
      ensures this.order == order && portNum == -1 && !isListening && !isUDS
      ensures connectionSocket == None && udsConnFd == -1
      ensures outbox == [] && sent == [] && inbox == [] && events == []
    {
      this.order := order;
      portNum := -1;
      isListening := false;
      isUDS := false;
      connectionSocket := None;
      udsConnFd := -1;
      outbox := [];
      sent := [];
      inbox := [];
      events := [];
    }

    /**
     * Start listening on one transport. A server that already listens
     * refuses; a failed bind is reported as false and changes nothing.
     */
    method Start(port: int, useUds: bool, bindSucceeded: bool) returns (ok: bool)
      requires Valid()
      modifies this
      ensures Valid()
      ensures ok <==> !old(isListening) && bindSucceeded
      ensures ok ==> isListening && portNum == port && isUDS == useUds && !IsConnected()
      ensures ok ==> connectionSocket == old(connectionSocket) && udsConnFd == old(udsConnFd)
      ensures ok ==> events == old(events) && sent == old(sent) && outbox == old(outbox) && inbox == old(inbox)
      ensures !ok ==> unchanged(this)
    {
      if isListening || !bindSucceeded {
        return false;
      }
      portNum := port;
      isUDS := useUds;
      isListening := true;
      ok := true;
    }

    /**
     * A TCP client arrived. It is accepted only when no client is connected;
     * otherwise it is rejected and the connected one is kept. Either way a
     * connected event reports the outcome.
     */
    method Connected(endpoint: string) returns (accepted: bool)
      requires Valid() && isListening && !isUDS
      modifies this
      ensures Valid()
      ensures accepted <==> !old(IsConnected())
      ensures accepted ==> CurrentPeer() == Some(TcpPeer(endpoint)) && outbox == [] && sent == [] && inbox == []
      ensures !accepted ==> connectionSocket == old(connectionSocket) && outbox == old(outbox) && sent == old(sent) && inbox == old(inbox)
      ensures events == old(events) + [ConnectedEvent(TcpPeer(endpoint), accepted)]
      ensures portNum == old(portNum) && isListening && isUDS == old(isUDS) && udsConnFd == old(udsConnFd)
    {
      accepted := connectionSocket == None;
      if accepted {
        connectionSocket := Some(endpoint);
        outbox, sent, inbox := [], [], [];
      }
      events := events + [ConnectedEvent(TcpPeer(endpoint), accepted)];
    }

    /** A UDS client arrived on descriptor fd; the same single-client rule as over TCP. */
    method AcceptUds(fd: nat) returns (accepted: bool)
      requires Valid() && isListening && isUDS
      modifies this
      ensures Valid()
      ensures accepted <==> !old(IsConnected())
      ensures accepted ==> CurrentPeer() == Some(UdsPeer(fd)) && outbox == [] && sent == [] && inbox == []
      ensures !accepted ==> udsConnFd == old(udsConnFd) && outbox == old(outbox) && sent == old(sent) && inbox == old(inbox)
      ensures events == old(events) + [ConnectedEvent(UdsPeer(fd), accepted)]
      ensures portNum == old(portNum) && isListening && isUDS && connectionSocket == old(connectionSocket)
    {
      accepted := udsConnFd < 0;
      if accepted {
        udsConnFd := fd;
        outbox, sent, inbox := [], [], [];
      }
      events := events + [ConnectedEvent(UdsPeer(fd), accepted)];
    }

    /** The client's bytes arriving on the live connection. */
    method Deliver(bytes: seq<byte>)
      requires Valid() && IsConnected()
      modifies this
      ensures Valid() && IsConnected()
      ensures inbox == old(inbox) + bytes
      ensures CurrentPeer() == old(CurrentPeer())
      ensures outbox == old(outbox) && sent == old(sent) && events == old(events)
      ensures isListening == old(isListening) && isUDS == old(isUDS) && portNum == old(portNum)
    {
      inbox := inbox + bytes;
    }

    /**
     * Write one framed payload over TCP. Without a client nothing is written
     * and the answer is false; a write that does not complete is a failure
     * too.
     */
    method SendDataINet(payload: seq<byte>, writeSucceeded: bool) returns (ok: bool)
      requires Valid() && !isUDS && |payload| <= MaxPayload
      modifies this
      ensures Valid()
      ensures ok <==> old(IsConnected()) && writeSucceeded
      ensures ok ==> sent == old(sent) + [payload] && outbox == old(outbox) + Wrap(order, payload)
      ensures !ok ==> sent == old(sent) && outbox == old(outbox)
      ensures CurrentPeer() == old(CurrentPeer()) && inbox == old(inbox) && events == old(events)
      ensures isListening == old(isListening) && isUDS == old(isUDS) && portNum == old(portNum)
    {
      if connectionSocket == None || !writeSucceeded {
        return false;
      }
      Append(payload);
      ok := true;
    }

    /** Write one framed payload over the Unix domain socket; the same contract as over TCP. */
    method SendDataUDS(payload: seq<byte>, writeSucceeded: bool) returns (ok: bool)
      requires Valid() && isUDS && |payload| <= MaxPayload
      modifies this
      ensures Valid()
      ensures ok <==> old(IsConnected()) && writeSucceeded
      ensures ok ==> sent == old(sent) + [payload] && outbox == old(outbox) + Wrap(order, payload)
      ensures !ok ==> sent == old(sent) && outbox == old(outbox)
      ensures CurrentPeer() == old(CurrentPeer()) && inbox == old(inbox) && events == old(events)
      ensures isListening == old(isListening) && isUDS == old(isUDS) && portNum == old(portNum)
    {
      if udsConnFd < 0 || !writeSucceeded {
        return false;
      }
      Append(payload);
      ok := true;
    }

    /** Send over whichever transport the switch selects. */
    method SendData(payload: seq<byte>, writeSucceeded: bool) returns (ok: bool)
      requires Valid() && |payload| <= MaxPayload
      modifies this
      ensures Valid()
      ensures ok <==> old(IsConnected()) && writeSucceeded
      ensures ok ==> sent == old(sent) + [payload] && outbox == old(outbox) + Wrap(order, payload)
      ensures !ok ==> sent == old(sent) && outbox == old(outbox)
      ensures CurrentPeer() == old(CurrentPeer()) && inbox == old(inbox) && events == old(events)
      ensures isListening == old(isListening) && isUDS == old(isUDS) && portNum == old(portNum)
    {
      if isUDS {
        ok := SendDataUDS(payload, writeSucceeded);
      } else {
        ok := SendDataINet(payload, writeSucceeded);
      }
    }

    /** Record a completed write of one frame. */
    method Append(payload: seq<byte>)
      requires Valid() && |payload| <= MaxPayload
      modifies this
      ensures Valid()
      ensures sent == old(sent) + [payload] && outbox == old(outbox) + Wrap(order, payload)
      ensures connectionSocket == old(connectionSocket) && udsConnFd == old(udsConnFd)
      ensures inbox == old(inbox) && events == old(events)
      ensures isListening == old(isListening) && isUDS == old(isUDS) && portNum == old(portNum)
    {
      WrapAllSnoc(order, sent, payload);
      sent := sent + [payload];
      outbox := outbox + Wrap(order, payload);
    }

    /**
     * One turn of the message service: strip one frame from what the client
     * sent. A payload is broadcast as received. A foreign magic is broadcast
     * as an error and closes the connection, while the server goes on
     * listening. A stream that ends inside a frame (an idle client included)
     * is waited on while the client keeps the connection open: nothing
     * changes. Once the client has closed its end, it is broadcast as an
     * error and the connection is closed.
     */
    method ReceiveOne(peerClosed: bool) returns (message: Option<seq<byte>>)
      requires Valid() && IsConnected()
      modifies this
      ensures Valid()
      ensures isListening == old(isListening) && isUDS == old(isUDS) && portNum == old(portNum)
      ensures match Strip(order, old(inbox))
        case Success(frame) =>
          && message == Some(frame.0) && inbox == frame.1
          && events == old(events) + [ReceivedEvent(old(CurrentPeer()).value, frame.0)]
          && CurrentPeer() == old(CurrentPeer()) && outbox == old(outbox) && sent == old(sent)
        case Failure(e) =>
          if e == ConnectionClosed && !peerClosed then
            && message == None && IsConnected() && CurrentPeer() == old(CurrentPeer())
            && inbox == old(inbox) && outbox == old(outbox) && sent == old(sent) && events == old(events)
          else
            && message == None && !IsConnected() && inbox == [] && sent == [] && outbox == []
            && events == old(events) + [ErrorEvent(old(CurrentPeer()).value, e)]
    {
      var peer := CurrentPeer().value;
      match Strip(order, inbox)
      case Success(frame) =>
        message := Some(frame.0);
        inbox := frame.1;
        events := events + [ReceivedEvent(peer, frame.0)];
      case Failure(e) =>
        message := None;
        if e == Desynchronized || peerClosed {
          events := events + [ErrorEvent(peer, e)];
          if isUDS {
            udsConnFd := -1;
          } else {
            connectionSocket := None;
          }
          outbox, sent, inbox := [], [], [];
        }
    }

    /** Shut the server down: the listener and any connection are closed, and the connection's streams are dropped. */
    method Close()
      requires Valid()
      modifies this
      ensures Valid()
      ensures !isListening && !IsConnected()
      ensures connectionSocket == None && udsConnFd == -1
      ensures portNum == old(portNum) && isUDS == old(isUDS) && events == old(events)
      ensures sent == [] && outbox == [] && inbox == []
    {
      isListening := false;
      connectionSocket := None;
      udsConnFd := -1;
      outbox, sent, inbox := [], [], [];
    }
  }

  /**
   * One write need not arrive as one read: a frame delivered in two parts,
   * split anywhere, is waited on after the first part, with the client kept,
   * and received whole after the second.
   */
  method SplitFrameArrives(s: UnixTcpServer, payload: seq<byte>, k: nat) returns (first: Option<seq<byte>>, second: Option<seq<byte>>)
    requires s.Valid() && s.IsConnected() && s.inbox == []
    requires |payload| <= MaxPayload && k < 8 + |payload|
    modifies s
    ensures first == None && second == Some(payload)
    ensures s.Valid() && s.IsConnected() && s.CurrentPeer() == old(s.CurrentPeer()) && s.inbox == []
  {
    var frame := Wrap(s.order, payload);
    s.Deliver(frame[..k]);
    assert s.inbox == frame[..k];
    StripPrefixIncomplete(s.order, payload, k);
    first := s.ReceiveOne(false);
    s.Deliver(frame[k..]);
    assert s.inbox == frame + [] by {
      assert frame[..k] + frame[k..] == frame;
    }
    StripWrap(s.order, payload, []);
    second := s.ReceiveOne(false);
  }

  /** A silent client keeps the single connection slot: a turn with nothing to read changes nothing. */
  method IdleClientKept(s: UnixTcpServer) returns (message: Option<seq<byte>>)
    requires s.Valid() && s.IsConnected() && s.inbox == []
    modifies s
    ensures message == None
    ensures s.Valid() && s.IsConnected() && s.CurrentPeer() == old(s.CurrentPeer())
    ensures s.inbox == [] && s.outbox == old(s.outbox) && s.sent == old(s.sent) && s.events == old(s.events)
  {
    message := s.ReceiveOne(false);
  }

  /** The client reads back, from what the server wrote, exactly the messages sent, in order. */
  lemma ClientReadsSent(s: UnixTcpServer)
    requires s.Valid()
    ensures ReadAll(s.order, s.outbox) == Success(s.sent)
  {
    ReadAllWrapAll(s.order, s.sent);
  }
}
