/**
 * The per-channel protocol of the networking client, stated as pure
 * functions over values: the send guard, the receive-loop body, the start
 * of each channel, the disconnect sequence and the parser registry.  The
 * classes in NetClient are proved to follow these functions; the lemmas
 * here are about what the functions promise.
 *
 * Sockets, threads and object serialization are not modelled: what the
 * environment does is a parameter (did a write succeed, what did a read
 * return, did a socket come up in time).
 */
module NetProtocol {

  /** The transport a send is addressed to. */
  datatype Protocol = TCP | UDP

  /** The runtime class of an inbound value: the key of the parser map.
      The three control constants all share the class of the enum they
      belong to. */
  datatype TypeTag = ConnectionMessageClass | PayloadClass(name: string)

  /** Identifies a registered parser callback. */
  type HandlerId = nat

  /** A value on the wire: one of the three control constants or an
      application object of class `cls` (its field values abstracted). */
  datatype Msg = Open | Closing | Close | Data(cls: string, fields: seq<int>)

  function ClassOf(m: Msg): TypeTag
  {
    if m.Data? then PayloadClass(m.cls) else ConnectionMessageClass
  }

  /** What one blocking read of a receive loop yields: a decoded value, or
      an exception (an I/O error, or a datagram that does not decode). */
  datatype Inbound = Received(m: Msg) | ReadFailed

  /** One read of the loop together with whether a reply written during
      that iteration reaches the transport. */
  datatype Tick = Tick(input: Inbound, writeOk: bool)

  /** Where the channel's thread is: not started, started but its socket
      not up yet, inside its receive loop, left the loop normally, or left
      it through the exception handler. */
  datatype Phase = Idle | Starting | Reading | Closed | Failed

  /** A parser invocation: which callback got which value. */
  datatype Dispatch = Dispatch(handler: HandlerId, value: Msg)

  /** One channel: its `running` flag, everything written to its transport
      and every parser invocation made by its loop. */
  datatype ChannelState = ChannelState(phase: Phase, running: bool, outbox: seq<Msg>, log: seq<Dispatch>)

  /** How a send ends: written, refused because the channel is not
      running ("not connected"), or the write itself threw. */
  datatype SendOutcome = Sent | NotConnected | WriteFailed

  datatype SendStep = SendStep(after: ChannelState, outcome: SendOutcome)

  const Unstarted := ChannelState(Idle, false, [], [])

  /** What every reachable channel satisfies: only a thread inside its loop
      can have `running` set, and a channel whose socket never came up has
      neither written nor dispatched anything. */
  predicate ChannelInv(c: ChannelState)
  {
    && (c.phase != Reading ==> !c.running)
    && (c.phase == Idle || c.phase == Starting ==> c.outbox == [] && c.log == [])
  }

  // ---------------------------------------------------------------- send

  /** The guarded write of one channel: refused unless `running`. */
  function Send(c: ChannelState, m: Msg, writeOk: bool): (r: SendStep)
    ensures r.outcome == NotConnected <==> !c.running
    ensures r.outcome == Sent <==> c.running && writeOk
    ensures r.outcome != Sent ==> r.after == c
    ensures r.outcome == Sent ==> r.after.outbox == c.outbox + [m]
    ensures r.after.phase == c.phase && r.after.running == c.running && r.after.log == c.log
  {
    if !c.running then SendStep(c, NotConnected)
    else if !writeOk then SendStep(c, WriteFailed)
    else SendStep(c.(outbox := c.outbox + [m]), Sent)
  }

  // ------------------------------------------------------------ dispatch

  /** The parser invocation for one inbound value: the parser registered
      for the value's exact class, or nothing (the no-op default). */
  function Deliver(parsers: map<TypeTag, HandlerId>, m: Msg): (r: seq<Dispatch>)
    ensures |r| <= 1
    ensures r != [] <==> ClassOf(m) in parsers
    ensures forall d :: d in r ==> d == Dispatch(parsers[ClassOf(m)], m)
  {
    if ClassOf(m) in parsers then [Dispatch(parsers[ClassOf(m)], m)] else []
  }

  // ------------------------------------------------------ receive loop

  /** One iteration of a receive loop, entered because the loop head saw
      `running`: the read, its classification, and the loop-head test for
      the next iteration.  `running` may have been cleared by a disconnect
      while the read was pending, so it is consulted again here. */
  function Step(c: ChannelState, input: Inbound, parsers: map<TypeTag, HandlerId>, writeOk: bool): (r: ChannelState)
    requires c.phase == Reading
    ensures r.phase == Reading <==> c.running && input.Received? && !input.m.Close? && !input.m.Closing?
    ensures r.phase != Reading ==> !r.running
    ensures r.outbox == c.outbox || (input == Received(Closing) && c.running && writeOk && r.outbox == c.outbox + [Close])
    ensures r.log == if input.Received? && !input.m.Close? && !input.m.Closing? then c.log + Deliver(parsers, input.m) else c.log
  {
    match input
    case ReadFailed => c.(phase := Failed, running := false)
    case Received(m) =>
      if m == Close then c.(phase := Closed, running := false)
      else if m == Closing then
        var s := Send(c, Close, writeOk);
        if s.outcome == Sent then s.after.(phase := Closed, running := false)
        else c.(phase := Failed, running := false)
      else
        var d := c.(log := c.log + Deliver(parsers, m));
        if c.running then d else d.(phase := Closed)
  }

  /** A receive loop fed a sequence of reads; once the loop has exited the
      remaining reads never happen. */
  function Run(c: ChannelState, ticks: seq<Tick>, parsers: map<TypeTag, HandlerId>): ChannelState
    decreases |ticks|
  {
    if ticks == [] || c.phase != Reading then c
    else Run(Step(c, ticks[0].input, parsers, ticks[0].writeOk), ticks[1..], parsers)
  }

  lemma StepOnClose(c: ChannelState, parsers: map<TypeTag, HandlerId>, writeOk: bool)
    requires c.phase == Reading
    ensures Step(c, Received(Close), parsers, writeOk) == c.(phase := Closed, running := false)
  {
  }

  lemma StepOnClosing(c: ChannelState, parsers: map<TypeTag, HandlerId>, writeOk: bool)
    requires c.phase == Reading
    ensures var r := Step(c, Received(Closing), parsers, writeOk);
      && !r.running && r.log == c.log
      && (c.running && writeOk ==> r.phase == Closed && r.outbox == c.outbox + [Close])
      && (!(c.running && writeOk) ==> r.phase == Failed && r.outbox == c.outbox)
  {
  }

  /** A value that is not CLOSE or CLOSING goes to the parser of its class
      (or nowhere); the channel keeps reading as long as `running` is set. */
  lemma StepOnData(c: ChannelState, m: Msg, parsers: map<TypeTag, HandlerId>, writeOk: bool)
    requires c.phase == Reading && m != Close && m != Closing
    ensures var r := Step(c, Received(m), parsers, writeOk);
      && r.running == c.running && r.outbox == c.outbox
      && r.log == c.log + Deliver(parsers, m)
      && (r.phase == Reading <==> c.running)
  {
  }

  /** Any exception in the loop ends the channel; nothing is skipped and
      nothing is retried. */
  lemma StepOnFailure(c: ChannelState, parsers: map<TypeTag, HandlerId>, writeOk: bool)
    requires c.phase == Reading
    ensures var r := Step(c, ReadFailed, parsers, writeOk);
      r == c.(phase := Failed, running := false)
  {
  }

  /** The control constants share one class, so an inbound OPEN reaches a
      parser registered for that class, while CLOSE and CLOSING never reach
      any parser. */
  lemma ControlValuesAndParsers(c: ChannelState, parsers: map<TypeTag, HandlerId>, writeOk: bool)
    requires c.phase == Reading && c.running
    ensures ConnectionMessageClass in parsers ==>
      Step(c, Received(Open), parsers, writeOk).log == c.log + [Dispatch(parsers[ConnectionMessageClass], Open)]
    ensures Step(c, Received(Close), parsers, writeOk).log == c.log
    ensures Step(c, Received(Closing), parsers, writeOk).log == c.log
  {
  }

  lemma StepKeepsInv(c: ChannelState, input: Inbound, parsers: map<TypeTag, HandlerId>, writeOk: bool)
    requires c.phase == Reading && ChannelInv(c)
    ensures ChannelInv(Step(c, input, parsers, writeOk))
  {
  }

  /** Over a whole run of its loop a channel writes at most one value of
      its own, a CLOSE, and only as its last act; its earlier output and
      its earlier parser invocations are never altered. */
  lemma {:induction false} RunShape(c: ChannelState, ticks: seq<Tick>, parsers: map<TypeTag, HandlerId>)
    ensures var r := Run(c, ticks, parsers);
      && (r.outbox == c.outbox || (r.outbox == c.outbox + [Close] && r.phase == Closed))
      && |c.log| <= |r.log| && r.log[..|c.log|] == c.log
      && (c.phase != Reading ==> r == c)
    decreases |ticks|
  {
    if ticks != [] && c.phase == Reading {
      var s := Step(c, ticks[0].input, parsers, ticks[0].writeOk);
      RunShape(s, ticks[1..], parsers);
      var r := Run(s, ticks[1..], parsers);
      assert r.log[..|s.log|] == s.log;
      assert s.log[..|c.log|] == c.log;
      assert r.log[..|c.log|] == r.log[..|s.log|][..|c.log|];
    }
  }

  /** A run of the loop keeps the channel invariant, so a run that left
      the loop has `running` cleared. */
  lemma {:induction false} RunKeepsInv(c: ChannelState, ticks: seq<Tick>, parsers: map<TypeTag, HandlerId>)
    requires ChannelInv(c)
    ensures ChannelInv(Run(c, ticks, parsers))
    decreases |ticks|
  {
    if ticks != [] && c.phase == Reading {
      StepKeepsInv(c, ticks[0].input, parsers, ticks[0].writeOk);
      RunKeepsInv(Step(c, ticks[0].input, parsers, ticks[0].writeOk), ticks[1..], parsers);
    }
  }

  // -------------------------------------------------------------- start

  /** Whether a channel's socket comes up before the 10-second wait in
      connect ends, comes up only after it, or never comes up. */
  datatype Readiness = InTime | Late | Never

  /** The stream thread once its socket is connected: set `running` and
      enter the loop. */
  function StreamUp(c: ChannelState): (r: ChannelState)
    requires c.phase == Idle || c.phase == Starting
    ensures r.phase == Reading && r.running
    ensures r.outbox == c.outbox && r.log == c.log
  {
    c.(phase := Reading, running := true)
  }

  /** The datagram thread once its socket is bound: set `running`,
      announce itself with one OPEN and only then enter the loop.  A failed
      OPEN send ends the thread before any datagram is read.  The three
      happen as one step: no other write can come between them. */
  function DatagramUp(c: ChannelState, openOk: bool): (r: ChannelState)
    requires c.phase == Idle || c.phase == Starting
    ensures r.log == c.log
    ensures r.phase == Reading <==> openOk
    ensures r.phase == Reading ==> r.running && r.outbox == c.outbox + [Open]
    ensures r.phase != Reading ==> r.phase == Failed && !r.running && r.outbox == c.outbox
  {
    var s := Send(c.(running := true), Open, openOk);
    if s.outcome == Sent then s.after.(phase := Reading)
    else c.(phase := Failed, running := false)
  }

  /** A socket that cannot be opened: the thread ends in its handler. */
  function SocketFailed(c: ChannelState): (r: ChannelState)
    ensures r.phase == Failed && !r.running
    ensures r.outbox == c.outbox && r.log == c.log
  {
    c.(phase := Failed, running := false)
  }

  /** Where the stream thread started by connect is when the wait ends:
      up and in its loop, still waiting for its socket, or ended. */
  function StartStream(c: ChannelState, ready: Readiness): (r: ChannelState)
    requires c.phase == Idle
    ensures r.outbox == c.outbox && r.log == c.log
    ensures r.running <==> ready == InTime
    ensures r.phase == (match ready case InTime => Reading case Late => Starting case Never => Failed)
  {
    match ready
    case InTime => StreamUp(c)
    case Late => c.(phase := Starting, running := false)
    case Never => SocketFailed(c)
  }

  /** Where the datagram thread started by connect is when the wait ends.
      A late socket has not sent its OPEN yet. */
  function StartDatagram(c: ChannelState, ready: Readiness, openOk: bool): (r: ChannelState)
    requires c.phase == Idle
    ensures r.log == c.log
    ensures r.phase == Starting <==> ready == Late
    ensures r.phase == Reading <==> ready == InTime && openOk
    ensures r.phase == Reading ==> r.running && r.outbox == c.outbox + [Open]
    ensures r.phase != Reading ==> !r.running && r.outbox == c.outbox
  {
    match ready
    case InTime => DatagramUp(c, openOk)
    case Late => c.(phase := Starting, running := false)
    case Never => SocketFailed(c)
  }

  // ------------------------------------------------------------ session

  /** The whole client: its two channels and the shared parser map. */
  datatype ClientState = ClientState(tcp: ChannelState, udp: ChannelState, parsers: map<TypeTag, HandlerId>)

  const NewClient := ClientState(Unstarted, Unstarted, map[])

  datatype ClientSend = ClientSend(after: ClientState, outcome: SendOutcome)

  /** What connect reports: both sockets ready within the wait, not both
      ready in time, the host name did not resolve, or the threads had
      already been started once (a thread cannot be started twice). */
  datatype ConnectOutcome = Connected | TimedOut | UnknownHost | AlreadyStarted

  datatype ConnectStep = ConnectStep(after: ClientState, outcome: ConnectOutcome)

  /** The invariant of a reachable client: both channels keep ChannelInv,
      they are started together, and a datagram channel that is in its
      loop, left it normally or dispatched anything has OPEN as the first
      thing it ever wrote. */
  predicate SessionInv(cs: ClientState)
  {
    && ChannelInv(cs.tcp) && ChannelInv(cs.udp)
    && (cs.tcp.phase == Idle <==> cs.udp.phase == Idle)
    && Announced(cs.udp)
  }

  predicate Announced(u: ChannelState)
  {
    (u.phase == Reading || u.phase == Closed || u.log != []) ==> |u.outbox| > 0 && u.outbox[0] == Open
  }

  /** Routing: TCP only when asked for, everything else over UDP; the
      channel not addressed is untouched. */
  function SendVia(cs: ClientState, m: Msg, p: Protocol, writeOk: bool): (r: ClientSend)
    ensures p == TCP ==> r.after.udp == cs.udp && SendStep(r.after.tcp, r.outcome) == Send(cs.tcp, m, writeOk)
    ensures p == UDP ==> r.after.tcp == cs.tcp && SendStep(r.after.udp, r.outcome) == Send(cs.udp, m, writeOk)
    ensures r.after.parsers == cs.parsers
  {
    if p == TCP then
      var s := Send(cs.tcp, m, writeOk);
      ClientSend(cs.(tcp := s.after), s.outcome)
    else
      var s := Send(cs.udp, m, writeOk);
      ClientSend(cs.(udp := s.after), s.outcome)
  }

  /** The one-argument send: always the datagram channel. */
  function SendDefault(cs: ClientState, m: Msg, writeOk: bool): (r: ClientSend)
    ensures r == SendVia(cs, m, UDP, writeOk)
    ensures r.after.tcp == cs.tcp
  {
    SendVia(cs, m, UDP, writeOk)
  }

  /** Registering a parser for a class replaces any earlier one. */
  function AddParser(cs: ClientState, tag: TypeTag, h: HandlerId): (r: ClientState)
    ensures tag in r.parsers && r.parsers[tag] == h
    ensures r.parsers.Keys == cs.parsers.Keys + {tag}
    ensures forall t :: t in cs.parsers && t != tag ==> r.parsers[t] == cs.parsers[t]
    ensures r.tcp == cs.tcp && r.udp == cs.udp
  {
    cs.(parsers := cs.parsers[tag := h])
  }

  /** disconnectTCP: try CLOSING on TCP, ignore its failure, then clear
      the TCP flag. */
  function DisconnectTcp(cs: ClientState, tcpOk: bool): (r: ClientState)
    ensures !r.tcp.running
    ensures r.udp == cs.udp && r.parsers == cs.parsers
  {
    var a := SendVia(cs, Closing, TCP, tcpOk).after;
    a.(tcp := a.tcp.(running := false))
  }

  /** disconnectUDP: try CLOSING on UDP, ignore its failure, then clear
      the UDP flag. */
  function DisconnectUdp(cs: ClientState, udpOk: bool): (r: ClientState)
    ensures !r.udp.running
    ensures r.tcp == cs.tcp && r.parsers == cs.parsers
  {
    var b := SendVia(cs, Closing, UDP, udpOk).after;
    b.(udp := b.udp.(running := false))
  }

  /** Self-initiated close of both channels, TCP first; a failed send
      changes nothing but its own channel's output. */
  function Disconnect(cs: ClientState, tcpOk: bool, udpOk: bool): ClientState
  {
    DisconnectUdp(DisconnectTcp(cs, tcpOk), udpOk)
  }

  /** A thread whose socket was not up when connect stopped waiting gets
      it after all (and, on UDP, then sends its OPEN), or fails to get it.
      Only a channel that is still starting is affected. */
  function LateStart(cs: ClientState, p: Protocol, up: bool, openOk: bool): (r: ClientState)
    ensures r.parsers == cs.parsers
    ensures p == TCP ==> r.udp == cs.udp
    ensures p == UDP ==> r.tcp == cs.tcp
    ensures (if p == TCP then cs.tcp.phase else cs.udp.phase) != Starting ==> r == cs
  {
    if p == TCP then
      if cs.tcp.phase != Starting then cs
      else cs.(tcp := if up then StreamUp(cs.tcp) else SocketFailed(cs.tcp))
    else
      if cs.udp.phase != Starting then cs
      else cs.(udp := if up then DatagramUp(cs.udp, openOk) else SocketFailed(cs.udp))
  }

  /** One read on the stream channel's loop (the datagram channel and the
      parser map are not touched). */
  function ReceiveTcp(cs: ClientState, t: Tick): (r: ClientState)
    requires cs.tcp.phase == Reading
    ensures r.udp == cs.udp && r.parsers == cs.parsers
    ensures r.tcp == Step(cs.tcp, t.input, cs.parsers, t.writeOk)
  {
    cs.(tcp := Step(cs.tcp, t.input, cs.parsers, t.writeOk))
  }

  /** One read on the datagram channel's loop. */
  function ReceiveUdp(cs: ClientState, t: Tick): (r: ClientState)
    requires cs.udp.phase == Reading
    ensures r.tcp == cs.tcp && r.parsers == cs.parsers
    ensures r.udp == Step(cs.udp, t.input, cs.parsers, t.writeOk)
  {
    cs.(udp := Step(cs.udp, t.input, cs.parsers, t.writeOk))
  }

  /** connect: resolve the host, start the stream thread, start the
      datagram thread, then wait for both sockets.  Starting a thread that
      was started before throws before anything else happens to it. */
  function Connect(cs: ClientState, resolveOk: bool, tcpReady: Readiness, udpReady: Readiness, openOk: bool): ConnectStep
  {
    if !resolveOk then ConnectStep(cs, UnknownHost)
    else if cs.tcp.phase != Idle then ConnectStep(cs, AlreadyStarted)
    else
      var t := StartStream(cs.tcp, tcpReady);
      if cs.udp.phase != Idle then ConnectStep(cs.(tcp := t), AlreadyStarted)
      else
        var u := StartDatagram(cs.udp, udpReady, openOk);
        ConnectStep(cs.(tcp := t, udp := u), if tcpReady == InTime && udpReady == InTime then Connected else TimedOut)
  }

  // -------------------------------------------------- session lemmas

  /** A send on a channel that is not running is refused and writes
      nothing anywhere. */
  lemma SendNotRunning(cs: ClientState, m: Msg, p: Protocol, writeOk: bool)
    requires !(if p == TCP then cs.tcp.running else cs.udp.running)
    ensures SendVia(cs, m, p, writeOk) == ClientSend(cs, NotConnected)
  {
  }

  /** After disconnect both flags are clear whatever the sends did; each
      channel got exactly one CLOSING if and only if it was running and
      its write went through; nothing else changes. */
  lemma DisconnectEffect(cs: ClientState, tcpOk: bool, udpOk: bool)
    ensures var r := Disconnect(cs, tcpOk, udpOk);
      && !r.tcp.running && !r.udp.running
      && r.tcp.outbox == cs.tcp.outbox + (if cs.tcp.running && tcpOk then [Closing] else [])
      && r.udp.outbox == cs.udp.outbox + (if cs.udp.running && udpOk then [Closing] else [])
      && r.tcp.phase == cs.tcp.phase && r.udp.phase == cs.udp.phase
      && r.tcp.log == cs.tcp.log && r.udp.log == cs.udp.log
      && r.parsers == cs.parsers
  {
  }

  /** A second disconnect sends nothing and changes nothing. */
  lemma DisconnectTwice(cs: ClientState, tcpOk: bool, udpOk: bool, tcpOk2: bool, udpOk2: bool)
    ensures Disconnect(Disconnect(cs, tcpOk, udpOk), tcpOk2, udpOk2) == Disconnect(cs, tcpOk, udpOk)
  {
  }

  /** connect reports success exactly when the host resolves, the threads
      were never started and both sockets come up within the wait; the
      OPEN announcement plays no part in the answer. */
  lemma ConnectOutcomeIff(cs: ClientState, resolveOk: bool, tcpReady: Readiness, udpReady: Readiness, openOk: bool)
    requires SessionInv(cs)
    ensures var r := Connect(cs, resolveOk, tcpReady, udpReady, openOk);
      && (r.outcome == Connected <==> resolveOk && cs.tcp.phase == Idle && tcpReady == InTime && udpReady == InTime)
      && (r.outcome == AlreadyStarted <==> resolveOk && cs.tcp.phase != Idle)
      && (r.outcome in {UnknownHost, AlreadyStarted} ==> r.after == cs)
  {
  }

  /** A connect that times out does not stop a thread whose socket is
      late: the thread still waits for its socket when connect returns,
      and once the socket comes up the channel runs although connect
      reported failure. */
  lemma LateChannelKeepsRunning(cs: ClientState, tcpReady: Readiness, udpReady: Readiness, openOk: bool, lateOpenOk: bool)
    requires cs.tcp.phase == Idle && cs.udp.phase == Idle
    requires tcpReady == Late || udpReady == Late
    ensures var r := Connect(cs, true, tcpReady, udpReady, openOk);
      && r.outcome == TimedOut
      && (tcpReady == Late ==>
            && r.after.tcp.phase == Starting && !r.after.tcp.running
            && LateStart(r.after, TCP, true, lateOpenOk).tcp.phase == Reading
            && LateStart(r.after, TCP, true, lateOpenOk).tcp.running)
      && (udpReady == Late ==>
            && r.after.udp.phase == Starting && !r.after.udp.running
            && (LateStart(r.after, UDP, true, lateOpenOk).udp.running <==> lateOpenOk))
  {
  }

  /** While a thread still waits for its socket, a send on its channel is
      refused as not connected and changes nothing. */
  lemma LateSocketRefusesSends(cs: ClientState, m: Msg, p: Protocol, writeOk: bool)
    requires SessionInv(cs)
    requires (if p == TCP then cs.tcp.phase else cs.udp.phase) == Starting
    ensures SendVia(cs, m, p, writeOk) == ClientSend(cs, NotConnected)
  {
  }

  /** A disconnect while both threads still wait for their sockets sends
      nothing and changes nothing; the threads then come up and run. */
  lemma DisconnectBeforeLateStart(cs: ClientState, tcpOk: bool, udpOk: bool, openOk: bool)
    requires SessionInv(cs) && cs.tcp.phase == Starting && cs.udp.phase == Starting
    ensures Disconnect(cs, tcpOk, udpOk) == cs
    ensures var r := LateStart(LateStart(Disconnect(cs, tcpOk, udpOk), TCP, true, openOk), UDP, true, openOk);
      && r.tcp.phase == Reading && r.tcp.running
      && (r.udp.running <==> openOk)
  {
  }

  /** The same as a history of a fresh client: connect times out,
      disconnect is called, and then the stream socket comes up and its
      channel runs. */
  lemma DisconnectUndoneByLateStart()
    ensures var r := Replay(NewClient, [ConnectCall(true, Late, Late, true), DisconnectCall(true, true), LateStartCall(TCP, true, true)]);
      r.tcp.phase == Reading && r.tcp.running
  {
  }

  /** connect reports success when both sockets are up in time whether or
      not the OPEN send works; when it fails the datagram channel has
      already ended without writing anything. */
  lemma ConnectIgnoresAnnouncement(cs: ClientState, openOk: bool)
    requires cs.tcp.phase == Idle && cs.udp.phase == Idle
    ensures var r := Connect(cs, true, InTime, InTime, openOk);
      && r.outcome == Connected
      && (r.after.udp.phase == Reading <==> openOk)
      && (!openOk ==> r.after.udp.phase == Failed && !r.after.udp.running && r.after.udp.outbox == cs.udp.outbox)
  {
  }

  /** Everything a collaborator or a receive loop can do to the client. */
  datatype Event =
    | ConnectCall(resolveOk: bool, tcpReady: Readiness, udpReady: Readiness, openOk: bool)
    | SendCall(m: Msg, p: Protocol, writeOk: bool)
    | AddParserCall(tag: TypeTag, h: HandlerId)
    | DisconnectCall(tcpOk: bool, udpOk: bool)
    | LateStartCall(p: Protocol, up: bool, openOk: bool)
    | TcpRead(t: Tick)
    | UdpRead(t: Tick)

  /** A read only happens on a channel whose thread is in its loop. */
  function Apply(cs: ClientState, e: Event): ClientState
  {
    match e
    case ConnectCall(ro, tr, ur, oo) => Connect(cs, ro, tr, ur, oo).after
    case SendCall(m, p, ok) => SendVia(cs, m, p, ok).after
    case AddParserCall(tag, h) => AddParser(cs, tag, h)
    case DisconnectCall(a, b) => Disconnect(cs, a, b)
    case LateStartCall(p, up, oo) => LateStart(cs, p, up, oo)
    case TcpRead(t) => if cs.tcp.phase == Reading then ReceiveTcp(cs, t) else cs
    case UdpRead(t) => if cs.udp.phase == Reading then ReceiveUdp(cs, t) else cs
  }

  function Replay(cs: ClientState, es: seq<Event>): ClientState
    decreases |es|
  {
    if es == [] then cs else Replay(Apply(cs, es[0]), es[1..])
  }

  predicate IsPrefix<T(==)>(a: seq<T>, b: seq<T>)
  {
    |a| <= |b| && b[..|a|] == a
  }

  /** Every operation keeps SessionInv, and no operation rewrites what a
      channel already wrote or dispatched: a parser registered later never
      replays values that were dropped before it existed. */
  lemma ApplyKeepsInv(cs: ClientState, e: Event)
    requires SessionInv(cs)
    ensures var r := Apply(cs, e);
      && SessionInv(r)
      && IsPrefix(cs.tcp.outbox, r.tcp.outbox) && IsPrefix(cs.udp.outbox, r.udp.outbox)
      && IsPrefix(cs.tcp.log, r.tcp.log) && IsPrefix(cs.udp.log, r.udp.log)
  {
  }

  lemma {:induction false} ReplayKeepsInv(cs: ClientState, es: seq<Event>)
    requires SessionInv(cs)
    ensures SessionInv(Replay(cs, es))
    decreases |es|
  {
    if es != [] {
      ApplyKeepsInv(cs, es[0]);
      ReplayKeepsInv(Apply(cs, es[0]), es[1..]);
    }
  }

  /** Under any sequence of the model's events, in which the datagram
      start (running set and OPEN sent) is one step: once the datagram
      channel is in its loop, has left it normally or has dispatched
      anything, the first value it ever wrote is its OPEN. */
  lemma UdpAnnouncesFirst(es: seq<Event>)
    ensures var u := Replay(NewClient, es).udp;
      (u.phase == Reading || u.phase == Closed || u.log != []) ==> |u.outbox| > 0 && u.outbox[0] == Open
  {
    ReplayKeepsInv(NewClient, es);
  }
}
