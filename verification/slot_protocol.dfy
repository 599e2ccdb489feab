/**
 The NTRIP runtime of main/ntrip_runtime.c as a protocol: five slots, their tasks, one mutex, the
 supervisor, the RTCM fanout and the external commands, interleaved in every possible way.
 A locked block is one step; the fanout and restart loops hold the mutex over several steps while
 stream-buffer reads, socket calls and configuration reads of the slot tasks go on beside them.
 */
module SlotProtocol {
  import opened Wrappers
  import opened Numbers
  import opened Bytes
  import opened SlotModel
  import Qos

  const SLOT_COUNT: nat := 5

  datatype Task = Task(slot: nat, pc: Pc)

  /** Who holds the mutex across steps, and how far its loop is; `cut` is set between send and accounting. */
  datatype Lock = Free | Fanout(chunk: seq<byte>, next: nat, cut: Option<bool>) | Restart(next: nat)

  /** A supervisor pass: what it sampled, the configurations it read, and its running totals. */
  datatype Pass = Resting | Passing(heap: nat, sockets: nat, maxSlots: nat, configs: seq<Option<bool>>,
                                    allowed: nat, active: nat, maxUsed: nat, maxHigh: nat, totalDropped: nat)

  /** `open` maps each open descriptor to the slot that opened it; `stray` counts closes of anything else. */
  datatype World = World(slots: seq<Slot>, tasks: map<nat, Task>, open: map<int, nat>, stray: nat,
                         lock: Lock, pass: Pass, monitor: Qos.Monitor, passes: nat, lastConfigs: seq<Option<bool>>)

  function Init(): World {
    World(seq(SLOT_COUNT, _ => FRESH_SLOT), map[], map[], 0, Free, Resting, Qos.InitMonitor(), 0, [])
  }

  datatype Action =
    | TaskAct(id: nat, ev: Event)
    | FanoutStart(chunk: seq<byte>)
    | RestartStart
    | LockNext(resetOk: bool)
    | EnableSlot(slot: nat, enabled: bool)
    | SetMockMode(slot: nat, mock: Mock)
    | PassStart(heap: nat, sockets: nat, maxSlots: nat)
    | PassSlot(config: Option<bool>, created: Option<nat>)
    | PassEnd(now: int)

  // ---- Steps ---------------------------------------------------------------------------------

  /** close() on a descriptor, as the operating system sees it. */
  function Close(w: World, i: nat, fd: int): World {
    if fd < 0 then w
    else if fd in w.open && w.open[fd] == i then w.(open := w.open - {fd})
    else w.(stray := w.stray + 1)
  }

  function Open(w: World, i: nat, fd: int): World {
    if fd < 0 then w else w.(open := w.open[fd := i])
  }

  /** A block that replaces slot `i` and may close its descriptor. */
  function Replace(w: World, i: nat, s: Slot): World
    requires i < |w.slots|
  {
    Close(w, i, ClosedBy(w.slots[i], s)).(slots := w.slots[i := s])
  }

  predicate Passed(w: World) { w.pass.Passing? && |w.pass.configs| == SLOT_COUNT }

  /** Whether the next slot of the pass is admitted. */
  function Admit(p: Pass, enabled: bool): bool
    requires p.Passing?
  {
    enabled && p.allowed < p.maxSlots && !Qos.SafeMode(p.heap)
  }

  predicate Enabled(w: World, a: Action) {
    |w.slots| == SLOT_COUNT &&
    match a
    case TaskAct(id, ev) =>
      && id in w.tasks && w.tasks[id].slot < SLOT_COUNT
      && (Locked(w.tasks[id].pc) ==> w.lock.Free?)
      && Fits(w.slots[w.tasks[id].slot], w.tasks[id].pc, ev)
      && (ev.DialGives? ==> ev.fd !in w.open)
    case FanoutStart(_) => w.lock.Free?
    case RestartStart => w.lock.Free?
    case LockNext(_) =>
      && !w.lock.Free?
      && (w.lock.Fanout? && w.lock.next < SLOT_COUNT ==> |w.slots[w.lock.next].stream.buffer| <= RTCM_BUFFER_SIZE)
    case EnableSlot(i, _) => w.lock.Free? && i < SLOT_COUNT
    case SetMockMode(i, _) => w.lock.Free? && i < SLOT_COUNT
    case PassStart(_, _, _) => w.pass.Resting?
    case PassSlot(config, created) =>
      && w.pass.Passing? && |w.pass.configs| < SLOT_COUNT
      && (config.Some? ==> w.lock.Free?)
      && (created.Some? ==>
            && config.Some? && created.value !in w.tasks
            && WantsTask(w.slots[|w.pass.configs|], config.value, Qos.SafeMode(w.pass.heap), Admit(w.pass, config.value)))
    case PassEnd(_) => Passed(w) && w.lock.Free?
  }

  /** A task's step lands in its slot, its position and the descriptor table. */
  function Land(w: World, id: nat, e: Effect): World
    requires |w.slots| == SLOT_COUNT && id in w.tasks && w.tasks[id].slot < SLOT_COUNT
  {
    var i := w.tasks[id].slot;
    Open(Close(w, i, e.closes), i, e.opens).(
      slots := w.slots[i := e.slot],
      tasks := if e.pc == Finished then w.tasks - {id} else w.tasks[id := Task(i, e.pc)])
  }

  function EffectOf(w: World, id: nat, ev: Event): Effect
    requires |w.slots| == SLOT_COUNT && Enabled(w, TaskAct(id, ev))
  {
    TaskStep(w.slots[w.tasks[id].slot], w.tasks[id].pc, ev)
  }

  /** The send half of a fanout iteration. */
  function FanoutSend(w: World, i: nat): World
    requires |w.slots| == SLOT_COUNT && w.lock.Fanout? && i < SLOT_COUNT
    requires |w.slots[i].stream.buffer| <= RTCM_BUFFER_SIZE
  {
    var m, chunk := w.slots[i].stream, w.lock.chunk;
    w.(slots := w.slots[i := w.slots[i].(stream := SendChunk(m, chunk))],
       lock := w.lock.(cut := Some(Taken(m, |chunk|) < |chunk|)))
  }

  /** The accounting half. */
  function FanoutNote(w: World, i: nat): World
    requires |w.slots| == SLOT_COUNT && w.lock.Fanout? && w.lock.cut.Some? && i < SLOT_COUNT
  {
    w.(slots := w.slots[i := NoteSent(w.slots[i], w.lock.cut.value)], lock := w.lock.(next := i + 1, cut := None))
  }

  function FanoutMove(w: World): World
    requires |w.slots| == SLOT_COUNT && w.lock.Fanout? && Enabled(w, LockNext(true))
  {
    var i := w.lock.next;
    if i >= SLOT_COUNT then w.(lock := Free)
    else if w.lock.cut.Some? then FanoutNote(w, i)
    else if !w.slots[i].taskRunning then w.(lock := w.lock.(next := i + 1))
    else FanoutSend(w, i)
  }

  /** The supervisor's block on one slot, with a task it may have created. */
  function Supervised(w: World, i: nat, s: Slot, created: Option<nat>): World
    requires i < |w.slots|
  {
    w.(slots := w.slots[i := s],
       tasks := if created.Some? then w.tasks[created.value := Task(i, Starting)] else w.tasks)
  }

  /** The running totals after a slot with a readable configuration. */
  function Tally(p: Pass, enabled: bool, s: Slot): Pass
    requires p.Passing?
  {
    p.(configs := p.configs + [Some(enabled)],
       allowed := if enabled && p.allowed < p.maxSlots then p.allowed + 1 else p.allowed,
       active := if s.taskRunning then p.active + 1 else p.active,
       maxUsed := Max(p.maxUsed, |s.stream.buffer|),
       maxHigh := Max(p.maxHigh, s.stream.highWater),
       totalDropped := p.totalDropped + s.stream.dropped)
  }

  function PassMove(w: World, config: Option<bool>, created: Option<nat>): World
    requires |w.slots| == SLOT_COUNT && Enabled(w, PassSlot(config, created))
  {
    var p := w.pass;
    var i := |p.configs|;
    if config.None? then w.(pass := p.(configs := p.configs + [config]))
    else
      var s := Supervise(w.slots[i], config.value, Qos.SafeMode(p.heap), Admit(p, config.value), created);
      Supervised(w, i, s, created).(pass := Tally(p, config.value, s))
  }

  function Step(w: World, a: Action): World
    requires Enabled(w, a)
  {
    match a
    case TaskAct(id, ev) => Land(w, id, EffectOf(w, id, ev))
    case FanoutStart(chunk) => w.(lock := Fanout(chunk, 0, None))
    case RestartStart => w.(lock := Restart(0))
    case LockNext(resetOk) =>
      if w.lock.Fanout? then FanoutMove(w)
      else if w.lock.next >= SLOT_COUNT then w.(lock := Free)
      else Replace(w, w.lock.next, RestartOne(w.slots[w.lock.next], resetOk)).(lock := Restart(w.lock.next + 1))
    case EnableSlot(i, enabled) => Replace(w, i, Enable(w.slots[i], enabled))
    case SetMockMode(i, mock) => Replace(w, i, SetMock(w.slots[i], mock))
    case PassStart(heap, sockets, maxSlots) => w.(pass := Passing(heap, sockets, maxSlots, [], 0, 0, 0, 0, 0))
    case PassSlot(config, created) => PassMove(w, config, created)
    case PassEnd(now) =>
      w.(monitor := Qos.Update(w.monitor, w.pass.heap, w.pass.sockets, w.pass.maxUsed, w.pass.maxHigh,
                               w.pass.totalDropped, now),
         pass := Resting, passes := w.passes + 1, lastConfigs := w.pass.configs)
  }

  predicate Legal(w: World, acts: seq<Action>)
    decreases |acts|
  {
    acts == [] || (Enabled(w, acts[0]) && Legal(Step(w, acts[0]), acts[1..]))
  }

  function Exec(w: World, acts: seq<Action>): World
    requires Legal(w, acts)
    decreases |acts|
  {
    if acts == [] then w else Exec(Step(w, acts[0]), acts[1..])
  }

  // ---- The invariant ---------------------------------------------------------------------------

  /** Every live task is the one its slot's handle names, and every handle names a live task of that slot. */
  ghost predicate TasksOk(w: World) {
    && |w.slots| == SLOT_COUNT
    && (forall id | id in w.tasks :: w.tasks[id].slot < SLOT_COUNT && w.tasks[id].pc != Finished
                                     && w.slots[w.tasks[id].slot].handle == Some(id))
    && (forall i | 0 <= i < SLOT_COUNT && w.slots[i].handle.Some? ::
          w.slots[i].handle.value in w.tasks && w.tasks[w.slots[i].handle.value].slot == i)
  }

  /** Where slot `i`'s task stands. */
  function PcOf(w: World, i: nat): Pc
    requires i < |w.slots|
  {
    var h := w.slots[i].handle;
    if h.Some? && h.value in w.tasks then w.tasks[h.value].pc else Finished
  }

  /** The open descriptors slot `i` answers for, by the operating system's account. */
  function OpenOf(w: World, i: nat): set<int> {
    set fd | fd in w.open && w.open[fd] == i
  }

  ghost predicate SlotsOk(w: World)
    requires |w.slots| == SLOT_COUNT
  {
    forall i | 0 <= i < SLOT_COUNT :: TaskAgrees(w.slots[i], PcOf(w, i))
  }

  /** The operating system and the slot records agree on who has what open, and nothing was closed twice. */
  ghost predicate FdsOk(w: World)
    requires |w.slots| == SLOT_COUNT
  {
    && w.stray == 0
    && (forall i | 0 <= i < SLOT_COUNT :: OpenOf(w, i) == Owned(w.slots[i], PcOf(w, i)))
    && (forall fd | fd in w.open :: w.open[fd] < SLOT_COUNT)
  }

  /** What the fanout has not yet accounted for on slot `i`. */
  function Pending(w: World, i: nat): nat {
    if w.lock.Fanout? && w.lock.next == i && w.lock.cut == Some(true) then 1 else 0
  }

  predicate BeingSent(w: World, i: nat) { w.lock.Fanout? && w.lock.next == i && w.lock.cut.Some? }

  ghost predicate StreamsOk(w: World)
    requires |w.slots| == SLOT_COUNT
  {
    forall i | 0 <= i < SLOT_COUNT ::
      && StreamExact(w.slots[i].stream)
      && Accounted(w.slots[i].stream, Pending(w, i))
      && (!BeingSent(w, i) ==> Covered(w.slots[i].stream))
  }

  ghost predicate Inv(w: World) {
    TasksOk(w) && SlotsOk(w) && FdsOk(w) && StreamsOk(w) && (w.lock.Fanout? && w.lock.cut.Some? ==> w.lock.next < SLOT_COUNT)
  }

  lemma InitInv()
    ensures Inv(Init())
  {
    assert forall i | 0 <= i < SLOT_COUNT :: OpenOf(Init(), i) == {};
  }

  // ---- Task steps ------------------------------------------------------------------------------

  lemma LandTasks(w: World, id: nat, e: Effect)
    requires TasksOk(w) && id in w.tasks
    requires e.slot.handle == (if e.pc == Finished then None else Some(id))
    ensures var w' := Land(w, id, e); var i := w.tasks[id].slot;
            && TasksOk(w')
            && PcOf(w, i) == w.tasks[id].pc && PcOf(w', i) == e.pc
            && forall j | 0 <= j < SLOT_COUNT && j != i :: PcOf(w', j) == PcOf(w, j)
  {
  }

  /** Closing what one slot owns and opening something new for it moves only that slot's account. */
  lemma LandOpen(w: World, i: nat, closes: int, opens: int)
    requires Single(closes) <= OpenOf(w, i) && (opens >= 0 ==> opens !in w.open) && i < SLOT_COUNT
    requires forall fd | fd in w.open :: w.open[fd] < SLOT_COUNT
    ensures var w' := Open(Close(w, i, closes), i, opens);
            && w'.stray == w.stray
            && OpenOf(w', i) == OpenOf(w, i) - Single(closes) + Single(opens)
            && (forall j | 0 <= j < SLOT_COUNT && j != i :: OpenOf(w', j) == OpenOf(w, j))
            && (forall fd | fd in w'.open :: w'.open[fd] < SLOT_COUNT)
  {
    assert closes >= 0 ==> closes in Single(closes);
  }

  /** The descriptor table after a task's step. */
  lemma LandFds(w: World, id: nat, e: Effect)
    requires TasksOk(w) && FdsOk(w) && id in w.tasks
    requires GoodEffect(w.slots[w.tasks[id].slot], w.tasks[id].pc, e) && PcOf(w, w.tasks[id].slot) == w.tasks[id].pc
    requires e.opens >= 0 ==> e.opens !in w.open
    ensures var w' := Land(w, id, e); var i := w.tasks[id].slot;
            && w'.stray == 0 && (forall fd | fd in w'.open :: w'.open[fd] < SLOT_COUNT)
            && OpenOf(w', i) == Owned(e.slot, e.pc)
            && forall j | 0 <= j < SLOT_COUNT && j != i :: OpenOf(w', j) == OpenOf(w, j)
  {
    var w' := Land(w, id, e);
    var i := w.tasks[id].slot;
    assert OpenOf(w, i) == Owned(w.slots[i], PcOf(w, i));
    LandOpen(w, i, e.closes, e.opens);
    var v := Open(Close(w, i, e.closes), i, e.opens);
    assert w'.open == v.open && w'.stray == v.stray;
    assert forall j | 0 <= j < SLOT_COUNT :: OpenOf(w', j) == OpenOf(v, j);
  }

  lemma LandKeeps(w: World, id: nat, e: Effect)
    requires TasksOk(w) && SlotsOk(w) && FdsOk(w)
    requires id in w.tasks && GoodEffect(w.slots[w.tasks[id].slot], w.tasks[id].pc, e)
    requires e.opens >= 0 ==> e.opens !in w.open
    ensures TasksOk(Land(w, id, e)) && SlotsOk(Land(w, id, e)) && FdsOk(Land(w, id, e))
  {
    var w' := Land(w, id, e);
    var i := w.tasks[id].slot;
    LandTasks(w, id, e);
    LandFds(w, id, e);
    forall j | 0 <= j < SLOT_COUNT
      ensures TaskAgrees(w'.slots[j], PcOf(w', j)) && OpenOf(w', j) == Owned(w'.slots[j], PcOf(w', j))
    {
      if j != i {
        assert w'.slots[j] == w.slots[j];
        assert TaskAgrees(w.slots[j], PcOf(w, j)) && OpenOf(w, j) == Owned(w.slots[j], PcOf(w, j));
      }
    }
  }

  /** A reader's step keeps the accounting; a restarted record starts with nothing pending. */
  lemma FlowKeeps(m: Stream, t: Stream, pending: nat)
    requires Accounted(m, pending) && Flow(m, t)
    requires pending == 0 || t == m.(buffer := t.buffer, received := t.received)
    ensures Accounted(t, pending) && (Covered(m) ==> Covered(t))
  {
  }

  lemma LandStreams(w: World, id: nat, e: Effect)
    requires Inv(w) && id in w.tasks && Flow(w.slots[w.tasks[id].slot].stream, e.slot.stream)
    requires !w.lock.Free? ==>
               e.slot.stream == w.slots[w.tasks[id].slot].stream.(buffer := e.slot.stream.buffer, received := e.slot.stream.received)
    ensures StreamsOk(Land(w, id, e))
  {
    var w' := Land(w, id, e);
    var i := w.tasks[id].slot;
    FlowKeeps(w.slots[i].stream, e.slot.stream, Pending(w, i));
    assert w'.lock == w.lock;
    OneStreamMoves(w, w', i);
  }

  /** The streams after a step on slot `i`, which is also the only one the fanout may stand at. */
  lemma OneStreamMoves(w: World, w': World, i: nat)
    requires |w.slots| == SLOT_COUNT && StreamsOk(w) && i < SLOT_COUNT && |w'.slots| == SLOT_COUNT
    requires forall j | 0 <= j < SLOT_COUNT && j != i :: w'.slots[j] == w.slots[j]
    requires forall j | 0 <= j < SLOT_COUNT && j != i :: Pending(w', j) == Pending(w, j) && BeingSent(w', j) == BeingSent(w, j)
    requires StreamExact(w'.slots[i].stream) && Accounted(w'.slots[i].stream, Pending(w', i))
    requires !BeingSent(w', i) ==> Covered(w'.slots[i].stream)
    ensures StreamsOk(w')
  {
    forall j | 0 <= j < SLOT_COUNT
      ensures StreamExact(w'.slots[j].stream) && Accounted(w'.slots[j].stream, Pending(w', j))
      ensures !BeingSent(w', j) ==> Covered(w'.slots[j].stream)
    {
      if j != i {
        assert w'.slots[j] == w.slots[j];
      }
    }
  }

  lemma TaskActKeeps(w: World, id: nat, ev: Event)
    requires Inv(w) && Enabled(w, TaskAct(id, ev))
    ensures Inv(Step(w, TaskAct(id, ev)))
  {
    var i := w.tasks[id].slot;
    assert PcOf(w, i) == w.tasks[id].pc && TaskAgrees(w.slots[i], PcOf(w, i));
    TaskStepGood(w.slots[i], w.tasks[id].pc, ev);
    LandKeeps(w, id, EffectOf(w, id, ev));
    LandStreams(w, id, EffectOf(w, id, ev));
  }

  // ---- Locked blocks that replace one slot ---------------------------------------------------------

  lemma ReplaceOpen(w: World, i: nat, s: Slot)
    requires Inv(w) && i < SLOT_COUNT && Single(ClosedBy(w.slots[i], s)) <= Owned(w.slots[i], PcOf(w, i))
    ensures var w' := Replace(w, i, s);
            && w'.stray == 0 && (forall fd | fd in w'.open :: w'.open[fd] < SLOT_COUNT)
            && OpenOf(w', i) == Owned(w.slots[i], PcOf(w, i)) - Single(ClosedBy(w.slots[i], s))
            && forall j | 0 <= j < SLOT_COUNT && j != i :: OpenOf(w', j) == OpenOf(w, j)
  {
    var w' := Replace(w, i, s);
    assert OpenOf(w, i) == Owned(w.slots[i], PcOf(w, i));
    LandOpen(w, i, ClosedBy(w.slots[i], s), -1);
    var v := Close(w, i, ClosedBy(w.slots[i], s));
    assert w'.open == v.open && w'.stray == v.stray;
    assert forall j | 0 <= j < SLOT_COUNT :: OpenOf(w', j) == OpenOf(v, j);
  }

  /** A block that keeps handle and flags and leaves the descriptor alone or closes it. */
  lemma ReplaceKeeps(w: World, i: nat, s: Slot)
    requires Inv(w) && i < SLOT_COUNT
    requires s.handle == w.slots[i].handle && s.taskRunning == w.slots[i].taskRunning
    requires Busy(s.state) ==> Busy(w.slots[i].state)
    requires s.sock == w.slots[i].sock || s.sock == Destroy(w.slots[i].sock)
    ensures TasksOk(Replace(w, i, s)) && SlotsOk(Replace(w, i, s)) && FdsOk(Replace(w, i, s))
  {
    var w' := Replace(w, i, s);
    assert TaskAgrees(w.slots[i], PcOf(w, i));
    CommandAgrees(w.slots[i], PcOf(w, i), s);
    ReplaceOpen(w, i, s);
    LocalKeeps(w, w', i, s);
  }

  /** Replacing one slot, with the descriptor table moved accordingly. */
  lemma LocalKeeps(w: World, w': World, i: nat, s: Slot)
    requires TasksOk(w) && SlotsOk(w) && FdsOk(w)
    requires i < SLOT_COUNT && w'.slots == w.slots[i := s] && w'.tasks == w.tasks
    requires s.handle == w.slots[i].handle && TaskAgrees(s, PcOf(w, i))
    requires w'.stray == 0 && forall fd | fd in w'.open :: w'.open[fd] < SLOT_COUNT
    requires OpenOf(w', i) == Owned(s, PcOf(w, i))
    requires forall j | 0 <= j < SLOT_COUNT && j != i :: OpenOf(w', j) == OpenOf(w, j)
    ensures TasksOk(w') && SlotsOk(w') && FdsOk(w')
  {
    assert TasksOk(w');
    forall j | 0 <= j < SLOT_COUNT
      ensures PcOf(w', j) == PcOf(w, j)
      ensures TaskAgrees(w'.slots[j], PcOf(w', j))
      ensures OpenOf(w', j) == Owned(w'.slots[j], PcOf(w', j))
    {
      if j != i {
        assert w'.slots[j] == w.slots[j];
        assert OpenOf(w, j) == Owned(w.slots[j], PcOf(w, j));
      }
    }
  }

  /** The streams survive a block that leaves the slot's stream alone or resets it. */
  lemma ReplaceStreams(w: World, i: nat, s: Slot)
    requires Inv(w) && i < SLOT_COUNT && !w.lock.Fanout?
    requires s.stream == w.slots[i].stream || s.stream == ResetBuffer(w.slots[i].stream)
    ensures StreamsOk(Replace(w, i, s))
  {
    ResetStream(w.slots[i].stream);
  }

  /** A block that touches only one slot's stream and error flags keeps tasks and descriptors. */
  lemma StreamOnlyKeeps(w: World, w': World, i: nat, s: Slot)
    requires TasksOk(w) && SlotsOk(w) && FdsOk(w) && i < SLOT_COUNT
    requires s == w.slots[i].(stale := s.stale, hasError := s.hasError, stream := s.stream)
    requires w'.slots == w.slots[i := s] && w'.tasks == w.tasks && w'.open == w.open && w'.stray == w.stray
    ensures TasksOk(w') && SlotsOk(w') && FdsOk(w')
  {
    assert TaskAgrees(w.slots[i], PcOf(w, i));
    assert OpenOf(w, i) == Owned(w.slots[i], PcOf(w, i));
    LocalKeeps(w, w', i, s);
  }

  lemma FanoutSendKeeps(w: World, i: nat)
    requires Inv(w) && w.lock.Fanout? && w.lock.next == i < SLOT_COUNT && w.lock.cut.None?
    ensures Inv(FanoutSend(w, i))
  {
    var m := w.slots[i].stream;
    SendStream(m, w.lock.chunk);
    StreamOnlyKeeps(w, FanoutSend(w, i), i, w.slots[i].(stream := SendChunk(m, w.lock.chunk)));
  }

  lemma FanoutNoteKeeps(w: World, i: nat)
    requires Inv(w) && w.lock.Fanout? && w.lock.next == i < SLOT_COUNT && w.lock.cut.Some?
    ensures Inv(FanoutNote(w, i))
  {
    FanoutNoteStreams(w, i);
    StreamOnlyKeeps(w, FanoutNote(w, i), i, NoteSent(w.slots[i], w.lock.cut.value));
  }

  lemma FanoutNoteStreams(w: World, i: nat)
    requires |w.slots| == SLOT_COUNT && StreamsOk(w)
    requires w.lock.Fanout? && w.lock.next == i < SLOT_COUNT && w.lock.cut.Some?
    ensures StreamsOk(FanoutNote(w, i))
  {
    NotedStream(w.slots[i], w.lock.cut.value);
    OneStreamMoves(w, FanoutNote(w, i), i);
  }

  lemma NotedStream(s: Slot, cut: bool)
    requires StreamExact(s.stream) && Accounted(s.stream, if cut then 1 else 0)
    ensures var t := NoteSent(s, cut).stream; StreamExact(t) && Accounted(t, 0) && Covered(t)
  {
    MeasureStream(s.stream);
  }

  lemma FanoutMoveKeeps(w: World)
    requires Inv(w) && w.lock.Fanout? && Enabled(w, LockNext(true))
    ensures Inv(FanoutMove(w))
  {
    var i := w.lock.next;
    if i >= SLOT_COUNT {
      FrameKeeps(w, FanoutMove(w));
    } else if w.lock.cut.Some? {
      FanoutNoteKeeps(w, i);
    } else if w.slots[i].taskRunning {
      FanoutSendKeeps(w, i);
    } else {
      FrameKeeps(w, FanoutMove(w));
    }
  }

  lemma RestartMoveKeeps(w: World, resetOk: bool)
    requires Inv(w) && w.lock.Restart? && w.lock.next < SLOT_COUNT
    ensures Inv(Replace(w, w.lock.next, RestartOne(w.slots[w.lock.next], resetOk)))
  {
    var s := RestartOne(w.slots[w.lock.next], resetOk);
    ReplaceKeeps(w, w.lock.next, s);
    ReplaceStreams(w, w.lock.next, s);
  }

  lemma CommandKeeps(w: World, i: nat, s: Slot)
    requires Inv(w) && i < SLOT_COUNT && w.lock.Free?
    requires (exists enabled :: s == Enable(w.slots[i], enabled)) || (exists mock :: s == SetMock(w.slots[i], mock))
    ensures Inv(Replace(w, i, s))
  {
    ReplaceKeeps(w, i, s);
    ReplaceStreams(w, i, s);
  }

  lemma SupervisedKeeps(w: World, i: nat, s: Slot, created: Option<nat>)
    requires Inv(w) && i < SLOT_COUNT && !w.lock.Fanout?
    requires created.Some? ==> created.value !in w.tasks && w.slots[i].handle == None
    requires s.handle == (if created.Some? then created else w.slots[i].handle)
    requires TaskAgrees(s, if created.Some? then Starting else PcOf(w, i))
    requires Owned(s, if created.Some? then Starting else PcOf(w, i)) == Owned(w.slots[i], PcOf(w, i))
    requires s.stream == Measure(w.slots[i].stream)
    ensures Inv(Supervised(w, i, s, created))
  {
    var w' := Supervised(w, i, s, created);
    SupervisedTasks(w, i, s, created);
    assert w'.open == w.open && w'.stray == w.stray;
    assert forall j | 0 <= j < SLOT_COUNT :: OpenOf(w', j) == OpenOf(w, j);
    assert SlotsOk(w') && FdsOk(w');
    MeasureStream(w.slots[i].stream);
    assert StreamsOk(w');
  }

  lemma SupervisedTasks(w: World, i: nat, s: Slot, created: Option<nat>)
    requires TasksOk(w) && i < SLOT_COUNT
    requires created.Some? ==> created.value !in w.tasks && w.slots[i].handle == None
    requires s.handle == (if created.Some? then created else w.slots[i].handle)
    ensures var w' := Supervised(w, i, s, created);
            && TasksOk(w') && PcOf(w', i) == (if created.Some? then Starting else PcOf(w, i))
            && forall j | 0 <= j < SLOT_COUNT && j != i :: PcOf(w', j) == PcOf(w, j)
  {
    var w' := Supervised(w, i, s, created);
    assert forall id | id in w.tasks :: id in w'.tasks && w'.tasks[id] == w.tasks[id];
  }

  lemma PassMoveKeeps(w: World, config: Option<bool>, created: Option<nat>)
    requires Inv(w) && Enabled(w, PassSlot(config, created))
    ensures Inv(PassMove(w, config, created))
  {
    if config.None? {
      FrameKeeps(w, PassMove(w, config, created));
    } else {
      var i := |w.pass.configs|;
      var safe, allow := Qos.SafeMode(w.pass.heap), Admit(w.pass, config.value);
      var s := Supervise(w.slots[i], config.value, safe, allow, created);
      assert TaskAgrees(w.slots[i], PcOf(w, i));
      SuperviseAgrees(w.slots[i], PcOf(w, i), config.value, safe, allow, created);
      SupervisedKeeps(w, i, s, created);
      FrameKeeps(Supervised(w, i, s, created), PassMove(w, config, created));
    }
  }

  lemma SuperviseAgrees(s: Slot, pc: Pc, enabled: bool, safeMode: bool, allow: bool, created: Option<nat>)
    requires TaskAgrees(s, pc) && (created.Some? ==> WantsTask(s, enabled, safeMode, allow))
    ensures var t := Supervise(s, enabled, safeMode, allow, created);
            && TaskAgrees(t, if created.Some? then Starting else pc)
            && t.handle == (if created.Some? then created else s.handle)
            && t.stream == Measure(s.stream) && t.sock == s.sock
            && Owned(t, if created.Some? then Starting else pc) == Owned(s, pc)
  {
  }

  lemma StepKeeps(w: World, a: Action)
    requires Inv(w) && Enabled(w, a)
    ensures Inv(Step(w, a))
  {
    match a
    case TaskAct(id, ev) => TaskActKeeps(w, id, ev);
    case LockNext(resetOk) =>
      if w.lock.Fanout? {
        FanoutMoveKeeps(w);
      } else if w.lock.next < SLOT_COUNT {
        RestartMoveKeeps(w, resetOk);
        FrameKeeps(Replace(w, w.lock.next, RestartOne(w.slots[w.lock.next], resetOk)), Step(w, a));
      } else {
        FrameKeeps(w, Step(w, a));
      }
    case EnableSlot(i, enabled) => CommandKeeps(w, i, Enable(w.slots[i], enabled));
    case SetMockMode(i, mock) => CommandKeeps(w, i, SetMock(w.slots[i], mock));
    case PassSlot(config, created) => PassMoveKeeps(w, config, created);
    case _ => FrameKeeps(w, Step(w, a));
  }

  /** No fanout stands between a send and its accounting. */
  predicate QuietLock(l: Lock) { l.Fanout? ==> l.cut.None? }

  /** Taking or releasing the mutex and moving the supervisor along leave the invariant alone. */
  lemma FrameKeeps(w: World, w': World)
    requires Inv(w) && w'.slots == w.slots && w'.tasks == w.tasks && w'.open == w.open && w'.stray == w.stray
    requires w'.lock == w.lock || (QuietLock(w'.lock) && QuietLock(w.lock))
    ensures Inv(w')
  {
    assert forall j | 0 <= j < SLOT_COUNT :: PcOf(w', j) == PcOf(w, j) && OpenOf(w', j) == OpenOf(w, j);
  }

  lemma {:induction false} RunKeeps(w: World, acts: seq<Action>)
    requires Inv(w) && Legal(w, acts)
    ensures Inv(Exec(w, acts))
    decreases |acts|
  {
    if acts == [] {
    } else {
      StepKeeps(w, acts[0]);
      RunKeeps(Step(w, acts[0]), acts[1..]);
    }
  }
}
