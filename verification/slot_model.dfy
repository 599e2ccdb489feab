/**
 One NTRIP slot of main/ntrip_runtime.c: its record, the program of its task, and what each locked
 block or lock-free call does to the record. `SlotProtocol` interleaves these steps.
 */
module SlotModel {
  import opened Wrappers
  import opened Numbers
  import opened Bytes

  const RTCM_BUFFER_SIZE: nat := 2048
  const READ_SIZE: nat := 512

  datatype State = Disconnected | Connecting | Authenticating | Streaming | ReconnectWait
                 | HardwareLimited | Disabled | Error

  datatype Mock = NoMock | ConnectOk | AuthFail | DisconnectAfterPackets | SlowSocket | Unreachable

  /** One chunk offered to a slot's stream buffer and how much of it was taken. */
  datatype Offer = Offer(chunk: seq<byte>, taken: nat)

  /** A slot's stream buffer with its drop counter and high-water mark, and its traffic since the last reset. */
  datatype Stream = Stream(buffer: seq<byte>, dropped: nat, highWater: nat,
                           offers: seq<Offer>, received: seq<byte>, dropBase: nat)

  /** The slot's descriptor (-1: none), and how many this slot has opened and closed. */
  datatype Socket = Socket(fd: int, opens: nat, closes: nat)

  /**
   What became of the bytes the task took since it started: how many were written, in how many blocks,
   and how many lost; and for the connection it streams on what it took, what of that it wrote, and
   how much it missed out.
   */
  datatype Ledger = Ledger(taken: nat, written: nat, blocks: nat, lost: nat, inbound: seq<byte>, outbound: seq<byte>,
                           missed: nat)

  const NEW_LEDGER := Ledger(0, 0, 0, 0, [], [], 0)

  datatype Slot = Slot(
    shouldRun: bool, stopRequested: bool, taskRunning: bool, stale: bool, hasError: bool, state: State, mock: Mock,
    handle: Option<nat>, reconnectCount: nat, bytesSent: nat, packetsSent: nat, sock: Socket, stream: Stream,
    ledger: Ledger)

  /** A slot as ntrip_runtime_init leaves it. */
  const FRESH_SLOT := Slot(false, false, false, false, false, Disabled, NoMock, None, 0, 0, 0,
                          Socket(-1, 0, 0), Stream([], 0, 0, [], [], 0), NEW_LEDGER)

  datatype ErrorExit = ToTop | ToFail | ToLeave

  /**
   Where a slot task stands between two of its atomic steps. From Dialed to ReadReply it keeps the
   descriptor in a local variable.
   */
  datatype Pc =
    | Starting | TopCheck | ReadConfig | NoteError(exit: ErrorExit) | ChooseRoute | AnnounceConnect(mocked: bool)
    | MockAuth | Dialing | Dialed(fd: int) | AnnounceAuth(fd: int) | SendRequest(fd: int) | ReadReply(fd: int)
    | MarkStreaming
    | FailClose | FailNote | InnerCheck | Receiving | IdleNote | Writing(data: seq<byte>) | NoteSend(length: nat)
    | LeaveClose | LeaveNote | EndClose | EndNote | Finished

  /** What the environment answers to the call a task is making. */
  datatype Event = Go | ConfigRead(ok: bool) | DialFails | DialGives(fd: int) | AuthReply(ok: bool)
                 | Got(n: nat) | Wrote(written: int) | Idled(stale: bool)

  /** A step's outcome: new record, new position, a descriptor closed and a descriptor opened (-1: none). */
  datatype Effect = Effect(slot: Slot, pc: Pc, closes: int, opens: int)

  /** Steps that need the runtime mutex. */
  predicate Locked(pc: Pc) {
    !(pc.ReadConfig? || pc.ChooseRoute? || pc.MockAuth? || pc.Dialing? || pc.SendRequest? || pc.ReadReply?
      || pc.Receiving? || pc.Writing?)
  }

  function SetState(s: Slot, state: State, withError: bool): Slot {
    s.(state := state,
       hasError := if withError then true else if state == Error || state == ReconnectWait then s.hasError else false)
  }

  /** destroy_socket on the slot's descriptor. */
  function Destroy(k: Socket): Socket {
    if k.fd < 0 then k else Socket(-1, k.opens, k.closes + 1)
  }

  /** A successful stream-buffer reset starts a new traffic record. */
  function ResetBuffer(m: Stream): Stream {
    m.(buffer := [], offers := [], received := [], dropBase := m.dropped)
  }

  /** The task reads `n` bytes from its buffer. */
  function Receive(m: Stream, n: nat): Stream
    requires n <= |m.buffer|
  {
    m.(buffer := m.buffer[n..], received := m.received + m.buffer[..n])
  }

  /** The task reads a block into its own buffer ... */
  function TakeBlock(s: Slot, n: nat): Slot
    requires n <= |s.stream.buffer|
  {
    var l := s.ledger;
    s.(stream := Receive(s.stream, n), ledger := l.(taken := l.taken + n, inbound := l.inbound + s.stream.buffer[..n]))
  }

  /** ... and writes the first `n` bytes of it; what is not written is not tried again. */
  function WriteBlock(s: Slot, data: seq<byte>, n: int): Slot
    requires n <= |data|
  {
    var l, m := s.ledger, if n < 0 then 0 else n;
    s.(ledger := l.(written := l.written + m, blocks := if n < 0 then l.blocks else l.blocks + 1,
                    lost := l.lost + (|data| - m), outbound := l.outbound + data[..m], missed := l.missed + (|data| - m)))
  }

  /** A new connection. */
  function OpenLedger(l: Ledger): Ledger { l.(inbound := [], outbound := [], missed := 0) }

  function ShouldStop(s: Slot): bool { s.stopRequested || !s.shouldRun }

  /** The first locked block of a slot task; the descriptor field is overwritten, not closed. */
  function StartBlock(s: Slot): Slot {
    s.(taskRunning := true, stopRequested := false, sock := s.sock.(fd := -1), reconnectCount := 0, bytesSent := 0,
       packetsSent := 0, hasError := false, state := Disconnected,
       stream := ResetBuffer(s.stream.(dropped := 0, highWater := 0)), ledger := NEW_LEDGER)
  }

  /** The last locked block of a slot task. */
  function EndBlock(s: Slot): Slot {
    s.(taskRunning := false, stopRequested := false, shouldRun := false, state := Disabled, handle := None)
  }

  /**
   What a write of the slot's stream may return: the mocks decide, or else the slot's descriptor is
   written, all of the block, a part of it, or nothing but an error.
   */
  predicate CanWrite(s: Slot, length: nat, n: int) {
    match s.mock
    case ConnectOk => n == length
    case SlowSocket => n == length
    case DisconnectAfterPackets => n == length || n < 0
    case _ => n <= length && (n >= 0 ==> s.sock.fd >= 0)
  }

  predicate Fits(s: Slot, pc: Pc, ev: Event) {
    match pc
    case ReadConfig => ev.ConfigRead?
    case Dialing => ev.DialFails? || (ev.DialGives? && ev.fd >= 0)
    case SendRequest(_) => ev.Wrote?
    case ReadReply(_) => ev.AuthReply?
    case Receiving => ev.Got? && ev.n <= |s.stream.buffer| && ev.n <= READ_SIZE
    case IdleNote => ev.Idled?
    case Writing(data) => ev.Wrote? && CanWrite(s, |data|, ev.written)
    case Finished => false
    case _ => ev.Go?
  }

  function Stay(s: Slot, pc: Pc): Effect { Effect(s, pc, -1, -1) }

  function TaskStep(s: Slot, pc: Pc, ev: Event): Effect
    requires Fits(s, pc, ev)
  {
    match pc
    case Starting => Stay(StartBlock(s), TopCheck)
    case TopCheck => Stay(s, if ShouldStop(s) then EndClose else ReadConfig)
    case ReadConfig => Stay(s, if ev.ok then ChooseRoute else NoteError(ToTop))
    case NoteError(exit) =>
      Stay(SetState(s, Error, true),
           match exit case ToTop => TopCheck case ToFail => FailClose case ToLeave => LeaveClose)
    case ChooseRoute => Stay(s, AnnounceConnect(s.mock != NoMock))
    case AnnounceConnect(mocked) => Stay(SetState(s, Connecting, false), if mocked then MockAuth else Dialing)
    case MockAuth =>
      Stay(s, match s.mock
              case Unreachable => NoteError(ToFail)
              case AuthFail => NoteError(ToFail)
              case NoMock => FailClose
              case _ => MarkStreaming)
    case Dialing =>
      if ev.DialFails? then Stay(s, NoteError(ToFail))
      else Effect(s.(sock := s.sock.(opens := s.sock.opens + 1)), Dialed(ev.fd), -1, ev.fd)
    case Dialed(fd) => Stay(s.(sock := s.sock.(fd := fd)), AnnounceAuth(fd))
    case AnnounceAuth(fd) => Stay(SetState(s, Authenticating, false), SendRequest(fd))
    case SendRequest(fd) => Stay(s, if ev.written >= 0 then ReadReply(fd) else NoteError(ToFail))
    case ReadReply(_) => Stay(s, if ev.ok then MarkStreaming else NoteError(ToFail))
    case MarkStreaming => Stay(SetState(s.(stale := false, ledger := OpenLedger(s.ledger)), Streaming, false), InnerCheck)
    case FailClose => Effect(s.(sock := Destroy(s.sock)), FailNote, s.sock.fd, -1)
    case FailNote => Stay(SetState(s.(reconnectCount := s.reconnectCount + 1), ReconnectWait, true), TopCheck)
    case InnerCheck => Stay(s, if ShouldStop(s) then LeaveClose else Receiving)
    case Receiving =>
      if ev.n == 0 then Stay(s, IdleNote)
      else Stay(TakeBlock(s, ev.n), Writing(s.stream.buffer[..ev.n]))
    case IdleNote => Stay(s.(stale := ev.stale), InnerCheck)
    case Writing(data) =>
      Stay(WriteBlock(s, data, ev.written),
           if ev.written >= 0 then NoteSend(ev.written)
           else if s.hasError && s.mock != DisconnectAfterPackets then LeaveClose
           else NoteError(ToLeave))
    case NoteSend(n) => Stay(s.(bytesSent := s.bytesSent + n, packetsSent := s.packetsSent + 1), InnerCheck)
    case LeaveClose => Effect(s.(sock := Destroy(s.sock)), LeaveNote, s.sock.fd, -1)
    case LeaveNote =>
      Stay(if ShouldStop(s) then s else SetState(s.(reconnectCount := s.reconnectCount + 1), ReconnectWait, true), TopCheck)
    case EndClose => Effect(s.(sock := Destroy(s.sock)), EndNote, s.sock.fd, -1)
    case EndNote => Stay(EndBlock(s), Finished)
  }

  // ---- Blocks run by others ----------------------------------------------------------------

  /** ntrip_runtime_set_mock_mode. */
  function SetMock(s: Slot, mock: Mock): Slot { s.(mock := mock, stopRequested := true, sock := Destroy(s.sock)) }

  /** ntrip_runtime_slot_enable, after the configuration has been persisted. */
  function Enable(s: Slot, enabled: bool): Slot {
    if enabled then s.(stopRequested := false)
    else s.(stopRequested := true, sock := Destroy(s.sock), state := Disabled)
  }

  /** One iteration of ntrip_runtime_restart_all; the buffer reset may fail while a reader waits. */
  function RestartOne(s: Slot, resetOk: bool): Slot {
    s.(stopRequested := true, sock := Destroy(s.sock), state := Disconnected,
       stream := if resetOk then ResetBuffer(s.stream) else s.stream)
  }

  function Taken(m: Stream, length: nat): nat
    requires |m.buffer| <= RTCM_BUFFER_SIZE
  {
    Min(RTCM_BUFFER_SIZE - |m.buffer|, length)
  }

  /** xStreamBufferSend of a chunk: as much as fits. */
  function SendChunk(m: Stream, chunk: seq<byte>): Stream
    requires |m.buffer| <= RTCM_BUFFER_SIZE
  {
    var n := Taken(m, |chunk|);
    m.(buffer := m.buffer + chunk[..n], offers := m.offers + [Offer(chunk, n)])
  }

  /** ntrip_runtime_update_ringbuffer_high_water_locked. */
  function Measure(m: Stream): Stream {
    if |m.buffer| > m.highWater then m.(highWater := |m.buffer|) else m
  }

  /** The rest of a fanout iteration: high water, then the drop count if the chunk was cut. */
  function NoteSent(s: Slot, cut: bool): Slot {
    var m := Measure(s.stream);
    if cut then s.(stale := true, hasError := true, stream := m.(dropped := m.dropped + 1)) else s.(stream := m)
  }

  /** A supervisor's locked block for one slot with a readable configuration; `created` is a new task's id. */
  function Supervise(s: Slot, enabled: bool, safeMode: bool, allow: bool, created: Option<nat>): Slot {
    var t := s.(shouldRun := allow, stream := Measure(s.stream));
    if !enabled then t.(stopRequested := true, state := Disabled)
    else if safeMode then t.(stopRequested := true, state := HardwareLimited, hasError := true)
    else if !allow then t.(stopRequested := true, state := HardwareLimited)
    else if !t.taskRunning && t.handle == None then t.(stopRequested := false, handle := created)
    else t
  }

  /** Whether that block asks for a new task. */
  predicate WantsTask(s: Slot, enabled: bool, safeMode: bool, allow: bool) {
    enabled && !safeMode && allow && !s.taskRunning && s.handle == None
  }

  // ---- What a slot's record always satisfies -------------------------------------------------

  predicate Busy(state: State) {
    state == Connecting || state == Authenticating || state == Streaming || state == ReconnectWait || state == Error
  }

  /** Positions at which the task keeps a copy of the descriptor that it has stored in the slot. */
  predicate Keeps(pc: Pc) { pc.AnnounceAuth? || pc.SendRequest? || pc.ReadReply? }

  /** Positions at which the slot may hold an open descriptor. */
  predicate MayHold(pc: Pc) {
    Keeps(pc) || pc.MarkStreaming? || pc.FailClose? || pc.InnerCheck? || pc.Receiving?
    || pc.IdleNote? || pc.Writing? || pc.NoteSend? || pc.LeaveClose? || (pc.NoteError? && pc.exit != ToTop)
  }

  /** The descriptors a slot and its task answer for. */
  function Owned(s: Slot, pc: Pc): set<int> {
    (if s.sock.fd >= 0 then {s.sock.fd} else {}) + (if pc.Dialed? then {pc.fd} else {})
  }

  /**
   The descriptor bookkeeping: a task dials only while the slot holds nothing, and what the slot holds
   is the descriptor of which the task keeps a copy.
   */
  predicate SocketAgrees(k: Socket, pc: Pc) {
    && k.fd >= -1
    && (k.fd >= 0 ==> MayHold(pc))
    && (pc.Dialed? || Keeps(pc) ==> pc.fd >= 0)
    && (Keeps(pc) ==> k.fd == -1 || k.fd == pc.fd)
    && k.opens == k.closes + (if k.fd >= 0 then 1 else 0) + (if pc.Dialed? then 1 else 0)
  }

  /** Flags, state and descriptor agree with the task's position (`Finished` when the slot has no task). */
  predicate TaskAgrees(s: Slot, pc: Pc) {
    && (s.handle == None <==> pc == Finished)
    && (s.taskRunning <==> pc != Finished && pc != Starting)
    && (Busy(s.state) ==> s.taskRunning)
    && SocketAgrees(s.sock, pc)
  }

  lemma TaskStepFlags(s: Slot, pc: Pc, ev: Event)
    requires TaskAgrees(s, pc) && Fits(s, pc, ev)
    ensures var e := TaskStep(s, pc, ev);
            && (e.slot.taskRunning <==> e.pc != Finished && e.pc != Starting)
            && (Busy(e.slot.state) ==> e.slot.taskRunning)
            && e.slot.handle == (if e.pc == Finished then None else s.handle)
  {
  }

  predicate Closing(pc: Pc) { pc.FailClose? || pc.LeaveClose? || pc.EndClose? }

  /** The slot's descriptor record after a step, kind by kind. */
  function SockAfter(s: Slot, pc: Pc, ev: Event): Socket {
    if Closing(pc) then Destroy(s.sock)
    else if pc.Starting? then s.sock.(fd := -1)
    else if pc.Dialing? && ev.DialGives? then s.sock.(opens := s.sock.opens + 1)
    else if pc.Dialed? then s.sock.(fd := pc.fd)
    else s.sock
  }

  lemma TaskStepSock(s: Slot, pc: Pc, ev: Event)
    requires Fits(s, pc, ev)
    ensures TaskStep(s, pc, ev).slot.sock == SockAfter(s, pc, ev)
  {
  }

  /** Where a step may lead: dialing is what leads to a dialed descriptor, and holders stay holders. */
  lemma TaskStepMoves(s: Slot, pc: Pc, ev: Event)
    requires Fits(s, pc, ev)
    ensures var e := TaskStep(s, pc, ev);
            && (e.pc.Dialed? <==> pc.Dialing? && ev.DialGives?) && (e.pc.Dialed? ==> e.pc.fd == ev.fd)
            && (Keeps(e.pc) ==> (pc.Dialed? || Keeps(pc)) && e.pc.fd == pc.fd)
            && ((MayHold(pc) && !Closing(pc)) || pc.Dialed? ==> MayHold(e.pc))
  {
  }

  /** A task step keeps the descriptor bookkeeping. */
  lemma TaskStepSocket(s: Slot, pc: Pc, ev: Event)
    requires SocketAgrees(s.sock, pc) && Fits(s, pc, ev)
    ensures SocketAgrees(TaskStep(s, pc, ev).slot.sock, TaskStep(s, pc, ev).pc)
  {
    var e := TaskStep(s, pc, ev);
    TaskStepSock(s, pc, ev);
    TaskStepMoves(s, pc, ev);
    SockAgrees(s, pc, ev, e.pc);
  }

  lemma SockAgrees(s: Slot, pc: Pc, ev: Event, next: Pc)
    requires SocketAgrees(s.sock, pc) && (pc.Dialing? && ev.DialGives? ==> ev.fd >= 0)
    requires next.Dialed? <==> pc.Dialing? && ev.DialGives?
    requires next.Dialed? ==> next.fd == ev.fd
    requires Keeps(next) ==> (pc.Dialed? || Keeps(pc)) && next.fd == pc.fd
    requires (MayHold(pc) && !Closing(pc)) || pc.Dialed? ==> MayHold(next)
    ensures SocketAgrees(SockAfter(s, pc, ev), next)
  {
  }

  /** The calls a task step makes, by kind of step. */
  lemma TaskStepCalls(s: Slot, pc: Pc, ev: Event)
    requires SocketAgrees(s.sock, pc) && Fits(s, pc, ev)
    ensures var e := TaskStep(s, pc, ev);
            && e.closes == (if Closing(pc) then s.sock.fd else -1)
            && e.opens == (if pc.Dialing? && ev.DialGives? then ev.fd else -1)
            && (pc.Dialing? ==> s.sock.fd == -1)
  {
  }

  /** A task step reports every descriptor it takes or gives up. */
  lemma TaskStepOwned(s: Slot, pc: Pc, ev: Event)
    requires SocketAgrees(s.sock, pc) && Fits(s, pc, ev)
    ensures var e := TaskStep(s, pc, ev);
            && Single(e.closes) <= Owned(s, pc)
            && Owned(e.slot, e.pc) == Owned(s, pc) - Single(e.closes) + Single(e.opens)
  {
    var e := TaskStep(s, pc, ev);
    TaskStepSock(s, pc, ev);
    TaskStepMoves(s, pc, ev);
    TaskStepCalls(s, pc, ev);
    SockOwned(s, pc, ev, e.slot, e.pc);
  }

  lemma SockOwned(s: Slot, pc: Pc, ev: Event, t: Slot, next: Pc)
    requires SocketAgrees(s.sock, pc) && (pc.Dialing? && ev.DialGives? ==> ev.fd >= 0)
    requires next.Dialed? <==> pc.Dialing? && ev.DialGives?
    requires next.Dialed? ==> next.fd == ev.fd
    requires t.sock == SockAfter(s, pc, ev)
    ensures Single(if Closing(pc) then s.sock.fd else -1) <= Owned(s, pc)
    ensures Owned(t, next) == Owned(s, pc) - Single(if Closing(pc) then s.sock.fd else -1)
                              + Single(if pc.Dialing? && ev.DialGives? then ev.fd else -1)
  {
  }

  function Single(fd: int): set<int> { if fd >= 0 then {fd} else {} }

  /** What a block that replaces the record closes. */
  function ClosedBy(s: Slot, t: Slot): int {
    if t.sock.closes > s.sock.closes then s.sock.fd else -1
  }

  /** The blocks commands run either leave the descriptor alone or close it. */
  lemma CommandAgrees(s: Slot, pc: Pc, t: Slot)
    requires TaskAgrees(s, pc)
    requires t.handle == s.handle && t.taskRunning == s.taskRunning && (Busy(t.state) ==> Busy(s.state))
    requires t.sock == s.sock || t.sock == Destroy(s.sock)
    ensures TaskAgrees(t, pc)
    ensures Owned(t, pc) == Owned(s, pc) - Single(ClosedBy(s, t)) && Single(ClosedBy(s, t)) <= Owned(s, pc)
  {
  }

  // ---- The stream buffer's traffic ----------------------------------------------------------

  /** Everything a buffer took, in order. */
  function Delivered(offers: seq<Offer>): seq<byte>
    requires forall i | 0 <= i < |offers| :: offers[i].taken <= |offers[i].chunk|
  {
    if offers == [] then [] else
      Delivered(offers[..|offers| - 1]) + offers[|offers| - 1].chunk[..offers[|offers| - 1].taken]
  }

  /** How many offers were cut short. */
  function CutShort(offers: seq<Offer>): nat {
    if offers == [] then 0 else
      CutShort(offers[..|offers| - 1]) + if offers[|offers| - 1].taken < |offers[|offers| - 1].chunk| then 1 else 0
  }

  /** Received bytes followed by buffered bytes are the prefixes taken, in order. */
  ghost predicate StreamExact(m: Stream) {
    && (forall i | 0 <= i < |m.offers| :: m.offers[i].taken <= |m.offers[i].chunk|)
    && m.received + m.buffer == Delivered(m.offers)
    && |m.buffer| <= RTCM_BUFFER_SIZE && m.highWater <= RTCM_BUFFER_SIZE
    && m.dropBase <= m.dropped
  }

  /** Cut offers are exactly the drops counted, up to `pending` not counted yet. */
  predicate Accounted(m: Stream, pending: nat) {
    CutShort(m.offers) == m.dropped - m.dropBase + pending
  }

  predicate Covered(m: Stream) { |m.buffer| <= m.highWater }

  lemma ReceiveStream(m: Stream, n: nat)
    requires StreamExact(m) && n <= |m.buffer|
    ensures StreamExact(Receive(m, n))
  {
    assert m.received + m.buffer[..n] + m.buffer[n..] == m.received + m.buffer;
  }

  lemma ResetStream(m: Stream)
    requires StreamExact(m)
    ensures StreamExact(ResetBuffer(m)) && CutShort(ResetBuffer(m).offers) == 0
  {
  }

  lemma SendStream(m: Stream, chunk: seq<byte>)
    requires StreamExact(m)
    ensures StreamExact(SendChunk(m, chunk))
    ensures CutShort(SendChunk(m, chunk).offers) == CutShort(m.offers) + if Taken(m, |chunk|) < |chunk| then 1 else 0
  {
    var t := SendChunk(m, chunk);
    var part := chunk[..Taken(m, |chunk|)];
    assert t.offers[..|t.offers| - 1] == m.offers;
    assert m.received + (m.buffer + part) == (m.received + m.buffer) + part;
  }

  lemma MeasureStream(m: Stream)
    requires StreamExact(m)
    ensures StreamExact(Measure(m)) && |Measure(m).buffer| <= Measure(m).highWater
  {
  }

  /** A reader's view of a stream step: bytes move on, or the record starts afresh. */
  ghost predicate Flow(m: Stream, t: Stream) {
    && StreamExact(t)
    && ((t == m.(buffer := t.buffer, received := t.received) && |t.buffer| <= |m.buffer|) || Restarted(t))
  }

  predicate Restarted(t: Stream) { t.offers == [] && t.buffer == [] && t.dropped == t.dropBase }

  /** Everything the protocol needs to know about a task step. */
  ghost predicate GoodEffect(s: Slot, pc: Pc, e: Effect) {
    && TaskAgrees(e.slot, e.pc)
    && e.slot.handle == (if e.pc == Finished then None else s.handle)
    && Single(e.closes) <= Owned(s, pc)
    && Owned(e.slot, e.pc) == Owned(s, pc) - Single(e.closes) + Single(e.opens)
    && Flow(s.stream, e.slot.stream)
  }

  lemma TaskStepFlow(s: Slot, pc: Pc, ev: Event)
    requires StreamExact(s.stream) && Fits(s, pc, ev)
    ensures Flow(s.stream, TaskStep(s, pc, ev).slot.stream)
    ensures !Locked(pc) ==> var t := TaskStep(s, pc, ev).slot.stream;
                            t == s.stream.(buffer := t.buffer, received := t.received)
  {
    var m, t := s.stream, TaskStep(s, pc, ev).slot.stream;
    if pc.Receiving? && ev.n > 0 {
      ReceiveStream(m, ev.n);
      assert t == Receive(m, ev.n);
    } else if pc.Starting? {
      assert t == ResetBuffer(m.(dropped := 0, highWater := 0));
    } else {
      assert t == m;
    }
  }

  /** Only the start block begins a new traffic record or lowers the high-water mark. */
  lemma TaskStepTraffic(s: Slot, pc: Pc, ev: Event)
    requires Fits(s, pc, ev) && pc != Starting
    ensures TaskStep(s, pc, ev).slot.stream.offers == s.stream.offers
    ensures TaskStep(s, pc, ev).slot.stream.highWater == s.stream.highWater
  {
    var m, t := s.stream, TaskStep(s, pc, ev).slot.stream;
    if pc.Receiving? && ev.n > 0 {
      assert t == Receive(m, ev.n);
    } else {
      assert t == m;
    }
  }

  lemma TaskStepGood(s: Slot, pc: Pc, ev: Event)
    requires TaskAgrees(s, pc) && StreamExact(s.stream) && Fits(s, pc, ev)
    ensures GoodEffect(s, pc, TaskStep(s, pc, ev))
    ensures TaskStep(s, pc, ev).opens >= 0 ==> ev.DialGives? && TaskStep(s, pc, ev).opens == ev.fd
    ensures !Locked(pc) ==> var t := TaskStep(s, pc, ev).slot.stream;
                            t == s.stream.(buffer := t.buffer, received := t.received)
  {
    var e := TaskStep(s, pc, ev);
    TaskStepFlags(s, pc, ev);
    TaskStepSocket(s, pc, ev);
    TaskStepCalls(s, pc, ev);
    TaskStepOwned(s, pc, ev);
    TaskStepFlow(s, pc, ev);
    assert e.slot.handle == None <==> e.pc == Finished;
  }
}
