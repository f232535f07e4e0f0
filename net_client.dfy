/**
 * The networking client as objects: each channel thread's `running` flag,
 * its output and its parser invocations are fields that the client's
 * methods and the receive loop change in place.  Every method is proved to
 * change the state exactly as the matching function of NetProtocol says,
 * and to keep the session invariant.
 */
module NetClient {
  import opened NetProtocol

  /** One connection thread (stream or datagram) with its transport. */
  class Channel {
    var phase: Phase
    var running: bool
    var outbox: seq<Msg>
    var log: seq<Dispatch>

    function State(): ChannelState
      reads this
    {
      ChannelState(phase, running, outbox, log)
    }

    constructor ()
      ensures State() == Unstarted
    {
      phase, running, outbox, log := Idle, false, [], [];
    }

    /** The guarded write (sendTCP / sendUDP): refused unless running. */
    method Send(m: Msg, writeOk: bool) returns (r: SendOutcome)
      modifies this
      ensures SendStep(State(), r) == NetProtocol.Send(old(State()), m, writeOk)
    {
      if !running {
        r := NotConnected;
      } else if !writeOk {
        r := WriteFailed;
      } else {
        outbox := outbox + [m];
        r := Sent;
      }
    }

    /** The stream thread once its socket is connected. */
    method StreamUp()
      requires phase == Idle || phase == Starting
      modifies this
      ensures State() == NetProtocol.StreamUp(old(State()))
    {
      running := true;
      phase := Reading;
    }

    /** The datagram thread once its socket is bound: set running, send
        one OPEN, and enter the loop only if that send worked. */
    method DatagramUp(openOk: bool)
      requires phase == Idle || phase == Starting
      modifies this
      ensures State() == NetProtocol.DatagramUp(old(State()), openOk)
    {
      running := true;
      var sent := Send(Open, openOk);
      if sent == Sent {
        phase := Reading;
      } else {
        running := false;
        phase := Failed;
      }
    }

    /** The thread's handler after its socket could not be opened. */
    method SocketFailed()
      modifies this
      ensures State() == NetProtocol.SocketFailed(old(State()))
    {
      running := false;
      phase := Failed;
    }

    /** The stream thread as connect leaves it when its wait ends. */
    method StartStream(ready: Readiness)
      requires phase == Idle
      modifies this
      ensures State() == NetProtocol.StartStream(old(State()), ready)
    {
      match ready
      case InTime => StreamUp();
      case Late => running, phase := false, Starting;
      case Never => SocketFailed();
    }

    /** The datagram thread as connect leaves it when its wait ends. */
    method StartDatagram(ready: Readiness, openOk: bool)
      requires phase == Idle
      modifies this
      ensures State() == NetProtocol.StartDatagram(old(State()), ready, openOk)
    {
      match ready
      case InTime => DatagramUp(openOk);
      case Late => running, phase := false, Starting;
      case Never => SocketFailed();
    }

    /** One iteration of the receive loop and the loop-head test after it. */
    method Step(input: Inbound, parsers: map<TypeTag, HandlerId>, writeOk: bool)
      requires phase == Reading
      modifies this
      ensures State() == NetProtocol.Step(old(State()), input, parsers, writeOk)
    {
      match input
      case ReadFailed =>
        running := false;
        phase := Failed;
      case Received(m) =>
        if m == Close {
          running := false;
          phase := Closed;
        } else if m == Closing {
          var sent := Send(Close, writeOk);
          running := false;
          phase := if sent == Sent then Closed else Failed;
        } else {
          if ClassOf(m) in parsers {
            log := log + [Dispatch(parsers[ClassOf(m)], m)];
          }
          if !running {
            phase := Closed;
          }
        }
    }
  }

  class Client {
    const tcp: Channel
    const udp: Channel
    var parsers: map<TypeTag, HandlerId>

    ghost predicate Valid()
      reads this, tcp, udp
    {
      tcp != udp && SessionInv(State())
    }

    function State(): ClientState
      reads this, tcp, udp
    {
      ClientState(tcp.State(), udp.State(), parsers)
    }

    constructor ()
      ensures Valid() && fresh(tcp) && fresh(udp)
      ensures State() == NewClient
    {
      tcp := new Channel();
      udp := new Channel();
      parsers := map[];
    }

    method Connect(resolveOk: bool, tcpReady: Readiness, udpReady: Readiness, openOk: bool) returns (r: ConnectOutcome)
      requires Valid()
      modifies tcp, udp
      ensures Valid()
      ensures ConnectStep(State(), r) == NetProtocol.Connect(old(State()), resolveOk, tcpReady, udpReady, openOk)
    {
      ApplyKeepsInv(State(), ConnectCall(resolveOk, tcpReady, udpReady, openOk));
      if !resolveOk {
        return UnknownHost;
      }
      if tcp.phase != Idle {
        return AlreadyStarted;
      }
      tcp.StartStream(tcpReady);
      udp.StartDatagram(udpReady, openOk);
      r := if tcpReady == InTime && udpReady == InTime then Connected else TimedOut;
    }

    /** send(data, protocol): TCP only when asked for. */
    method Send(m: Msg, p: Protocol, writeOk: bool) returns (r: SendOutcome)
      requires Valid()
      modifies tcp, udp
      ensures Valid()
      ensures ClientSend(State(), r) == SendVia(old(State()), m, p, writeOk)
    {
      ApplyKeepsInv(State(), SendCall(m, p, writeOk));
      if p == TCP {
        r := tcp.Send(m, writeOk);
      } else {
        r := udp.Send(m, writeOk);
      }
    }

    /** send(data): the datagram channel. */
    method SendDefault(m: Msg, writeOk: bool) returns (r: SendOutcome)
      requires Valid()
      modifies tcp, udp
      ensures Valid()
      ensures ClientSend(State(), r) == NetProtocol.SendDefault(old(State()), m, writeOk)
    {
      r := Send(m, UDP, writeOk);
    }

    method AddParser(tag: TypeTag, h: HandlerId)
      requires Valid()
      modifies this
      ensures Valid()
      ensures State() == NetProtocol.AddParser(old(State()), tag, h)
    {
      parsers := parsers[tag := h];
    }

    /** CLOSING on TCP, its failure ignored, then clear the flag. */
    method DisconnectTcp(tcpOk: bool)
      requires Valid()
      modifies tcp, udp
      ensures Valid()
      ensures State() == NetProtocol.DisconnectTcp(old(State()), tcpOk)
    {
      var _ := Send(Closing, TCP, tcpOk);
      tcp.running := false;
    }

    /** CLOSING on UDP, its failure ignored, then clear the flag. */
    method DisconnectUdp(udpOk: bool)
      requires Valid()
      modifies tcp, udp
      ensures Valid()
      ensures State() == NetProtocol.DisconnectUdp(old(State()), udpOk)
    {
      var _ := Send(Closing, UDP, udpOk);
      udp.running := false;
    }

    method Disconnect(tcpOk: bool, udpOk: bool)
      requires Valid()
      modifies tcp, udp
      ensures Valid()
      ensures State() == NetProtocol.Disconnect(old(State()), tcpOk, udpOk)
    {
      DisconnectTcp(tcpOk);
      DisconnectUdp(udpOk);
    }

    /** A thread left waiting for its socket by connect gets it (and, on
        UDP, sends its OPEN) or fails to. */
    method LateStart(p: Protocol, up: bool, openOk: bool)
      requires Valid()
      modifies tcp, udp
      ensures Valid()
      ensures State() == NetProtocol.LateStart(old(State()), p, up, openOk)
    {
      ApplyKeepsInv(State(), LateStartCall(p, up, openOk));
      if p == TCP && tcp.phase == Starting {
        if up {
          tcp.StreamUp();
        } else {
          tcp.SocketFailed();
        }
      } else if p == UDP && udp.phase == Starting {
        if up {
          udp.DatagramUp(openOk);
        } else {
          udp.SocketFailed();
        }
      }
    }

    /** The stream thread reads one value. */
    method ReceiveTcp(t: Tick)
      requires Valid() && tcp.phase == Reading
      modifies tcp
      ensures Valid()
      ensures State() == NetProtocol.ReceiveTcp(old(State()), t)
    {
      ApplyKeepsInv(State(), TcpRead(t));
      tcp.Step(t.input, parsers, t.writeOk);
    }

    /** The datagram thread reads one datagram. */
    method ReceiveUdp(t: Tick)
      requires Valid() && udp.phase == Reading
      modifies udp
      ensures Valid()
      ensures State() == NetProtocol.ReceiveUdp(old(State()), t)
    {
      ApplyKeepsInv(State(), UdpRead(t));
      udp.Step(t.input, parsers, t.writeOk);
    }
  }
}
