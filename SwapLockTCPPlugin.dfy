/** The swap-lock barrier plugin: the master accepts slave connections and,
    once per frame, reads one signal byte from each slave and sends one back;
    a slave connects to the master (again on every frame while it is not
    connected) and exchanges one signal byte with it. Sockets are values: the
    bytes waiting to be read, and everything written so far. */
module SwapLock {
  import opened Bytes
  import opened Wrappers

  /** The framed packets of the connection handshake. */
  datatype HandshakePacket =
    | SyncRequest(host: string, port: int)
    | SyncAck(host: string, port: int, ack: bool)

  /** What a socket carries outwards: a raw byte or a framed packet. */
  datatype Outgoing = Raw(b: byte) | Framed(p: HandshakePacket)

  /** A stream socket: a queue of unread inbound bytes and the log of what
      was written. A receive on an empty queue is a timeout. */
  datatype Socket = Socket(inbound: seq<byte>, outbound: seq<Outgoing>)

  datatype ReturnStatus = Succeed | Fail

  /** What the network does when the slave tries to reach the master. */
  datatype ConnectOutcome =
    | AddressFailure                      // InetAddr::setAddress fails
    | ConnectFailure                      // the socket does not connect
    | Connected(socket: Socket, ack: bool) // connected; `ack` is the reply's flag

  /** One iteration of the master's accept loop. `first` is the packet
      recvPacket returns, or None when it throws. */
  datatype AcceptOutcome =
    | AcceptTimeout
    | AcceptError
    | Accepted(socket: Socket, first: Option<HandshakePacket>)

  /** The plugin's configuration element. */
  datatype SwapLockElement = SwapLockElement(id: string, syncServer: string, listenPort: int)

  /** What the plugin learns from its host: the local host name, the names
      ClusterNetwork::isLocalHost accepts, and the SYNC_SIGNAL byte (declared
      in a header that is not part of this model). */
  datatype Env = Env(localHostName: string, localNames: set<string>, syncSignal: byte)

  /** The fields mIsMaster, mActive, mBarrierMasterHostname, mTCPport,
      mSyncServerSocket (None for NULL), mAcceptThread (whether it exists),
      the port of mListenAddr and mSyncClients. */
  datatype PluginState = PluginState(
    isMaster: bool,
    active: bool,
    masterHost: string,
    tcpPort: int,
    serverSocket: Option<Socket>,
    acceptThread: bool,
    listenPort: int,
    clients: seq<Socket>)

  /** A master is always active; an active slave holds its server socket. */
  predicate Coherent(st: PluginState)
  {
    (st.isMaster ==> st.active) && (!st.isMaster && st.active ==> st.serverSocket.Some?)
  }

  const ELEMENT_TYPE: string := "swap_lock_tcp_plugin"

  /** configCanHandle and recognizeSwapLockTCPPluginConfig. */
  function ConfigCanHandle(e: SwapLockElement): (r: bool)
    ensures r <==> e.id == ELEMENT_TYPE
  {
    e.id == "swap_lock_tcp_plugin"
  }

  /** configRemove succeeds exactly for the elements the plugin handles and
      changes nothing. */
  function ConfigRemove(e: SwapLockElement): (r: bool)
    ensures r <==> ConfigCanHandle(e)
  {
    e.id == ELEMENT_TYPE
  }

  // ---------------------------------------------------------------------
  // Socket steps

  /** The stale-byte drain followed by one SYNC_SIGNAL byte. */
  function Signalled(s: Socket, signal: byte): (r: Socket)
    ensures r.inbound == [] && r.outbound == s.outbound + [Raw(signal)]
  {
    Socket([], s.outbound + [Raw(signal)])
  }

  /** A one-byte receive: consumes a byte if there is one. */
  function Received(s: Socket): (r: Socket)
    ensures r.outbound == s.outbound
    ensures |s.inbound| > 0 ==> r.inbound == s.inbound[1..]
    ensures |s.inbound| == 0 ==> r == s
  {
    if |s.inbound| > 0 then s.(inbound := s.inbound[1..]) else s
  }

  /** The position of the first client whose receive times out, or the
      number of clients if none does. */
  function FirstTimeout(cs: seq<Socket>): (k: nat)
    ensures k <= |cs|
    ensures forall i :: 0 <= i < k ==> |cs[i].inbound| > 0
    ensures k < |cs| ==> |cs[k].inbound| == 0
  {
    if cs == [] then 0
    else if |cs[0].inbound| == 0 then 0
    else 1 + FirstTimeout(cs[1..])
  }

  /** masterReceive: one byte is read from each client in order until the
      first timeout; that client and all later ones are not read. */
  function ReceiveRound(cs: seq<Socket>): (r: seq<Socket>)
    ensures |r| == |cs|
    ensures forall i :: 0 <= i < FirstTimeout(cs) ==> r[i] == cs[i].(inbound := cs[i].inbound[1..])
    ensures forall i :: FirstTimeout(cs) <= i < |cs| ==> r[i] == cs[i]
  {
    var k := FirstTimeout(cs);
    seq(|cs|, i requires 0 <= i < |cs| => if i < k then Received(cs[i]) else cs[i])
  }

  /** masterSend: every client is drained and sent one signal byte. */
  function SendRound(cs: seq<Socket>, signal: byte): (r: seq<Socket>)
    ensures |r| == |cs|
    ensures forall i :: 0 <= i < |cs| ==> r[i].inbound == [] && r[i].outbound == cs[i].outbound + [Raw(signal)]
  {
    seq(|cs|, i requires 0 <= i < |cs| => Signalled(cs[i], signal))
  }

  /** What the master's reads do is invisible after its sends: masterSend
      drains every client anyway. */
  lemma SendAfterReceive(cs: seq<Socket>, signal: byte)
    ensures SendRound(ReceiveRound(cs), signal) == SendRound(cs, signal)
  {
  }

  // ---------------------------------------------------------------------
  // The plugin's operations on its state

  /** startListening. */
  function StartListeningSpec(st: PluginState): (r: (PluginState, bool))
    ensures r.1 <==> !st.acceptThread && st.tcpPort > 0
    ensures !r.1 ==> r.0 == st
    ensures r.1 ==> r.0 == st.(acceptThread := true, listenPort := ToU16(st.tcpPort))
  {
    if st.acceptThread then (st, false)
    else if st.tcpPort > 0 then (st.(listenPort := ToU16(st.tcpPort), acceptThread := true), true)
    else (st, false)
  }

  /** ConnectToMasterSocket. */
  function ConnectSpec(st: PluginState, outcome: ConnectOutcome, env: Env): (r: (PluginState, ReturnStatus))
    ensures r.1 == Succeed <==> outcome.Connected? && outcome.ack
    ensures outcome.AddressFailure? ==> r.0 == st.(active := false)
    ensures r.1 == Succeed ==> r.0.active && r.0.serverSocket.Some?
    ensures r.1 == Fail && !outcome.AddressFailure? ==> r.0 == st.(serverSocket := None)
    ensures r.0.isMaster == st.isMaster && r.0.clients == st.clients
    ensures r.0.masterHost == st.masterHost && r.0.tcpPort == st.tcpPort
    ensures r.0.acceptThread == st.acceptThread && r.0.listenPort == st.listenPort
    ensures r.1 == Succeed ==>
      r.0 == st.(serverSocket := Some(outcome.socket.(outbound := outcome.socket.outbound +
                   [Framed(SyncRequest(env.localHostName, st.tcpPort))])), active := true)
  {
    match outcome
    case AddressFailure => (st.(active := false), Fail)
    case ConnectFailure => (st.(serverSocket := None), Fail)
    case Connected(s, ack) =>
      var withRequest := s.(outbound := s.outbound + [Framed(SyncRequest(env.localHostName, st.tcpPort))]);
      if ack then (st.(serverSocket := Some(withRequest), active := true), Succeed)
      else (st.(serverSocket := None), Fail)
  }

  /** configAdd. */
  function ConfigAddSpec(st: PluginState, e: SwapLockElement, clusterActive: bool,
                         hostNames: map<string, string>, connect: ConnectOutcome, env: Env): (r: (PluginState, bool))
    requires e.syncServer in hostNames
    ensures !clusterActive ==> r == (st, false)
    ensures clusterActive ==> r.1 && r.0.masterHost == hostNames[e.syncServer] && r.0.tcpPort == e.listenPort
    ensures clusterActive ==> (r.0.isMaster <==> hostNames[e.syncServer] in env.localNames)
    ensures clusterActive && r.0.isMaster ==> r.0.active
    ensures clusterActive && hostNames[e.syncServer] in env.localNames ==>
      r.0.acceptThread == (st.acceptThread || e.listenPort > 0) &&
      (!st.acceptThread && e.listenPort > 0 ==> r.0.listenPort == ToU16(e.listenPort))
    ensures clusterActive && hostNames[e.syncServer] in env.localNames ==>
      r.0 == StartListeningSpec(st.(masterHost := hostNames[e.syncServer], tcpPort := e.listenPort,
                                    isMaster := true)).0.(active := true)
    ensures clusterActive && hostNames[e.syncServer] !in env.localNames ==>
      r.0 == ConnectSpec(st.(masterHost := hostNames[e.syncServer], tcpPort := e.listenPort, isMaster := false), connect, env).0
  {
    if !clusterActive then (st, false)
    else
      var host := hostNames[e.syncServer];
      var configured := st.(masterHost := host, tcpPort := e.listenPort);
      if host in env.localNames then
        (StartListeningSpec(configured.(isMaster := true)).0.(active := true), true)
      else
        (ConnectSpec(configured.(isMaster := false), connect, env).0, true)
  }

  /** createBarrier. */
  function CreateBarrierSpec(st: PluginState, connect: ConnectOutcome, env: Env): (r: (PluginState, bool))
    requires Coherent(st)
  {
    if st.isMaster then
      (st.(clients := SendRound(ReceiveRound(st.clients), env.syncSignal)), true)
    else
      var st1 := if st.active then st else ConnectSpec(st, connect, env).0;
      if st1.active then
        (st1.(serverSocket := Some(Received(Signalled(st1.serverSocket.value, env.syncSignal)))), true)
      else (st1, true)
  }

  /** The admission step of acceptLoop; the packet read first is cast to a
      SyncRequest without a check, so any packet admits the client. */
  function AdmitSpec(st: PluginState, outcome: AcceptOutcome, env: Env): (r: PluginState)
    ensures outcome.Accepted? && outcome.first.Some? ==>
      r == st.(clients := st.clients + [Socket(outcome.socket.inbound,
                 outcome.socket.outbound + [Framed(SyncAck(env.localHostName, ToU16(st.tcpPort), true))])],
               active := true)
    ensures !(outcome.Accepted? && outcome.first.Some?) ==> r == st
  {
    match outcome
    case Accepted(s, Some(_)) =>
      var ackSent := s.(outbound := s.outbound + [Framed(SyncAck(env.localHostName, ToU16(st.tcpPort), true))]);
      st.(clients := st.clients + [ackSent], active := true)
    case _ => st
  }

  // ---------------------------------------------------------------------
  // Properties of the plugin's operations

  /** createBarrier always reports success, and keeps the plugin coherent. */
  lemma BarrierAlwaysTrue(st: PluginState, connect: ConnectOutcome, env: Env)
    requires Coherent(st)
    ensures CreateBarrierSpec(st, connect, env).1
    ensures Coherent(CreateBarrierSpec(st, connect, env).0)
  {
  }

  /** On the master, a barrier round signals every client once and leaves
      nothing unread, whichever clients timed out. */
  lemma {:induction false} MasterBarrierSignalsAll(st: PluginState, connect: ConnectOutcome, env: Env)
    requires Coherent(st) && st.isMaster
    ensures var r := CreateBarrierSpec(st, connect, env).0;
      |r.clients| == |st.clients| &&
      forall i :: 0 <= i < |st.clients| ==>
        r.clients[i] == Socket([], st.clients[i].outbound + [Raw(env.syncSignal)])
  {
    SendAfterReceive(st.clients, env.syncSignal);
  }

  /** An inactive slave retries the connection first and exchanges signals
      only if that made it active; a failed retry sends nothing. */
  lemma SlaveRetriesWhenInactive(st: PluginState, connect: ConnectOutcome, env: Env)
    requires Coherent(st) && !st.isMaster && !st.active
    ensures var r := CreateBarrierSpec(st, connect, env).0;
      (connect.Connected? && connect.ack) <==> r.active
    ensures var r := CreateBarrierSpec(st, connect, env).0;
      !(connect.Connected? && connect.ack) ==>
        && r.clients == st.clients
        && (connect.AddressFailure? ==> r.serverSocket == st.serverSocket)
        && (!connect.AddressFailure? ==> r.serverSocket.None?)
    ensures connect.Connected? && connect.ack ==>
      CreateBarrierSpec(st, connect, env).0.serverSocket.value.outbound ==
        connect.socket.outbound + [Framed(SyncRequest(env.localHostName, st.tcpPort)), Raw(env.syncSignal)]
  {
  }

  /** An active slave drains its socket and sends one signal byte. Its
      socket is a value, so the following one-byte read finds the queue
      just drained and changes nothing more. */
  lemma ActiveSlaveExchange(st: PluginState, connect: ConnectOutcome, env: Env)
    requires Coherent(st) && !st.isMaster && st.active
    ensures CreateBarrierSpec(st, connect, env).0 ==
      st.(serverSocket := Some(Socket([], st.serverSocket.value.outbound + [Raw(env.syncSignal)])))
  {
  }

  /** configAdd keeps the plugin coherent when it configures a plugin that is
      not yet active. */
  lemma ConfigAddCoherent(st: PluginState, e: SwapLockElement, clusterActive: bool,
                          hostNames: map<string, string>, connect: ConnectOutcome, env: Env)
    requires e.syncServer in hostNames && Coherent(st)
    requires !st.active
    ensures Coherent(ConfigAddSpec(st, e, clusterActive, hostNames, connect, env).0)
  {
  }

  /** A slave that is already connected and is configured again, with a
      connection that now fails, ends active with no server socket. */
  lemma ReconfiguredSlaveLosesSocket(st: PluginState, e: SwapLockElement,
                                     hostNames: map<string, string>, env: Env)
    requires e.syncServer in hostNames && hostNames[e.syncServer] !in env.localNames
    requires Coherent(st) && !st.isMaster && st.active
    ensures var r := ConfigAddSpec(st, e, true, hostNames, ConnectFailure, env).0;
      r.active && r.serverSocket.None? && !Coherent(r)
  {
  }

  /** Admitting a client keeps every earlier client and the master role. */
  lemma AdmitKeepsClients(st: PluginState, outcome: AcceptOutcome, env: Env)
    requires Coherent(st) && st.isMaster
    ensures Coherent(AdmitSpec(st, outcome, env))
    ensures AdmitSpec(st, outcome, env).clients[..|st.clients|] == st.clients
  {
  }

  // ---------------------------------------------------------------------
  // The plugin object

  /** cluster::SwapLockTCPPlugin. */
  class SwapLockTCPPlugin {
    const env: Env
    var isMaster: bool
    var active: bool
    var masterHost: string
    var tcpPort: int
    var serverSocket: Option<Socket>
    var acceptThread: bool
    var listenPort: int
    var clients: seq<Socket>

    ghost function State(): PluginState
      reads this
    {
      PluginState(isMaster, active, masterHost, tcpPort, serverSocket, acceptThread, listenPort, clients)
    }

    constructor (env: Env)
      ensures this.env == env
      ensures State() == PluginState(false, false, "", 0, None, false, 0, [])
    {
      this.env := env;
      isMaster, active, masterHost, tcpPort := false, false, "", 0;
      serverSocket, acceptThread, listenPort, clients := None, false, 0, [];
    }

    method ConfigAdd(e: SwapLockElement, clusterActive: bool, hostNames: map<string, string>,
                     connect: ConnectOutcome) returns (ok: bool)
      requires e.syncServer in hostNames
      modifies this
      ensures (State(), ok) == ConfigAddSpec(old(State()), e, clusterActive, hostNames, connect, env)
    {
      if !clusterActive {
        return false;
      }
      masterHost := hostNames[e.syncServer];
      tcpPort := e.listenPort;
      if masterHost in env.localNames {
        isMaster := true;
        var _ := StartListening();
        active := true;
      } else {
        isMaster := false;
        var _ := ConnectToMasterSocket(connect);
      }
      return true;
    }

    method StartListening() returns (started: bool)
      modifies this
      ensures (State(), started) == StartListeningSpec(old(State()))
    {
      if !acceptThread {
        if tcpPort > 0 {
          listenPort := ToU16(tcpPort);
          acceptThread := true;
          return true;
        } else {
          return false;
        }
      } else {
        return false;
      }
    }

    method ConnectToMasterSocket(outcome: ConnectOutcome) returns (status: ReturnStatus)
      modifies this
      ensures (State(), status) == ConnectSpec(old(State()), outcome, env)
    {
      if outcome.AddressFailure? {
        active := false;
        return Fail;
      }
      if outcome.Connected? {
        var s := outcome.socket;
        s := s.(outbound := s.outbound + [Framed(SyncRequest(env.localHostName, tcpPort))]);
        serverSocket := Some(s);
        if outcome.ack {
          active := true;
          return Succeed;
        }
      }
      serverSocket := None;
      return Fail;
    }

    /** Drains each client's stale bytes, then sends it one signal byte. */
    method MasterSend()
      requires active
      modifies this`clients
      ensures clients == SendRound(old(clients), env.syncSignal)
    {
      var i := 0;
      while i < |clients|
        invariant 0 <= i <= |clients| == |old(clients)|
        invariant forall j :: 0 <= j < i ==> clients[j] == Signalled(old(clients)[j], env.syncSignal)
        invariant forall j :: i <= j < |clients| ==> clients[j] == old(clients)[j]
      {
        var s := clients[i];
        while |s.inbound| > 0
          invariant s.outbound == clients[i].outbound
        {
          s := s.(inbound := s.inbound[1..]);
        }
        s := s.(outbound := s.outbound + [Raw(env.syncSignal)]);
        clients := clients[i := s];
        i := i + 1;
      }
    }

    /** Reads one byte from each client in order; returns at the first
        client whose read times out. */
    method MasterReceive()
      requires active
      modifies this`clients
      ensures clients == ReceiveRound(old(clients))
    {
      var i := 0;
      while i < |clients|
        invariant 0 <= i <= |clients| == |old(clients)|
        invariant forall j :: 0 <= j < i ==> |old(clients)[j].inbound| > 0
        invariant forall j :: 0 <= j < i ==> clients[j] == Received(old(clients)[j])
        invariant forall j :: i <= j < |clients| ==> clients[j] == old(clients)[j]
      {
        if |clients[i].inbound| == 0 {
          FirstTimeoutAt(old(clients), i);
          return;
        }
        clients := clients[i := Received(clients[i])];
        i := i + 1;
      }
      FirstTimeoutAt(old(clients), i);
    }

    method SlaveSend()
      requires serverSocket.Some? && active
      modifies this`serverSocket
      ensures serverSocket == Some(Signalled(old(serverSocket).value, env.syncSignal))
    {
      var s := serverSocket.value;
      while |s.inbound| > 0
        invariant s.outbound == serverSocket.value.outbound
      {
        s := s.(inbound := s.inbound[1..]);
      }
      serverSocket := Some(s.(outbound := s.outbound + [Raw(env.syncSignal)]));
    }

    /** A failed read is tolerated: a slip, and nothing else changes. */
    method SlaveReceive()
      requires serverSocket.Some? && active
      modifies this`serverSocket
      ensures serverSocket == Some(Received(old(serverSocket).value))
    {
      var s := serverSocket.value;
      if |s.inbound| > 0 {
        serverSocket := Some(s.(inbound := s.inbound[1..]));
      }
    }

    method CreateBarrier(connect: ConnectOutcome) returns (r: bool)
      requires Coherent(State())
      modifies this
      ensures (State(), r) == CreateBarrierSpec(old(State()), connect, env)
    {
      if isMaster {
        MasterReceive();
        MasterSend();
      } else {
        if !active {
          var _ := ConnectToMasterSocket(connect);
        }
        if active {
          SlaveSend();
          SlaveReceive();
        }
      }
      return true;
    }

    /** One iteration of acceptLoop after accept() returns. */
    method AcceptStep(outcome: AcceptOutcome)
      modifies this
      ensures State() == AdmitSpec(old(State()), outcome, env)
    {
      if outcome.Accepted? && outcome.first.Some? {
        var s := outcome.socket;
        clients := clients + [s.(outbound := s.outbound + [Framed(SyncAck(env.localHostName, ToU16(tcpPort), true))])];
        active := true;
      }
    }
  }

  /** The count FirstTimeout gives when the first i clients have a byte and
      the i-th (if any) does not. */
  lemma {:induction false} FirstTimeoutAt(cs: seq<Socket>, i: nat)
    requires i <= |cs|
    requires forall j :: 0 <= j < i ==> |cs[j].inbound| > 0
    requires i < |cs| ==> |cs[i].inbound| == 0
    ensures FirstTimeout(cs) == i
  {
    var k := FirstTimeout(cs);
    if k < i {
      assert false;
    } else if i < k {
      assert false;
    }
  }
}
