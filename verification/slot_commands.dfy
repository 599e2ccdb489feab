/**
 What a restart, disable, mock change or supervisor decision does to a slot's task, and what the slot's
 state says about it (main/ntrip_runtime.c): a task told to stop ends within a bounded number of its own
 steps, and the state is the task's until somebody else writes it.
 */
module SlotCommands {
  import opened Wrappers
  import opened SlotModel
  import opened SlotProtocol
  import opened SlotTheorems
  import opened SlotDelivery
  import Qos

  // ---- What each of them leaves ------------------------------------------------------------------

  /** The steps that tell slot `i`'s task to stop. */
  predicate Stops(w: World, a: Action, i: nat) {
    match a
    case EnableSlot(j, enabled) => j == i && !enabled
    case SetMockMode(j, _) => j == i
    case LockNext(_) => w.lock.Restart? && w.lock.next == i
    case PassSlot(config, _) => w.pass.Passing? && |w.pass.configs| == i && config.Some? && !Admit(w.pass, config.value)
    case _ => false
  }

  /** The state such a step publishes, if any. */
  function StoppedState(w: World, a: Action, s: State): State {
    match a
    case EnableSlot(_, _) => Disabled
    case LockNext(_) => Disconnected
    case PassSlot(config, _) => if config == Some(true) then HardwareLimited else Disabled
    case _ => s
  }

  /** The flag is up, the state published, and all but the supervisor's decision have closed the descriptor. */
  lemma StopTells(w: World, a: Action, i: nat)
    requires Enabled(w, a) && i < SLOT_COUNT && Stops(w, a, i)
    ensures |Step(w, a).slots| == SLOT_COUNT
    ensures var t := Step(w, a).slots[i];
      && t.stopRequested && t.state == StoppedState(w, a, w.slots[i].state) && t.handle == w.slots[i].handle
      && (a.PassSlot? ==> !t.shouldRun && t.sock == w.slots[i].sock)
      && (!a.PassSlot? ==> t.shouldRun == w.slots[i].shouldRun && t.sock.fd < 0)
      && (a.SetMockMode? ==> t.mock == a.mock) && (!a.SetMockMode? ==> t.mock == w.slots[i].mock)
      && (a.LockNext? && a.resetOk ==> t.stream.buffer == [] && t.stream.dropped == w.slots[i].stream.dropped)
  {
    StepIsLocal(w, a, i);
  }

  /** An admitted slot is given a task if it has none; one that has a task is left running. */
  lemma AdmissionTells(w: World, created: Option<nat>)
    requires Enabled(w, PassSlot(Some(true), created)) && Admit(w.pass, true)
    ensures var i := |w.pass.configs|; var w' := Step(w, PassSlot(Some(true), created));
      && |w'.slots| == SLOT_COUNT && w'.slots[i].shouldRun && w'.slots[i].state == w.slots[i].state
      && (w.slots[i].handle == None && !w.slots[i].taskRunning ==>
            !w'.slots[i].stopRequested && w'.slots[i].handle == created)
      && (w.slots[i].handle.Some? || w.slots[i].taskRunning ==>
            w'.slots[i].stopRequested == w.slots[i].stopRequested && w'.slots[i].handle == w.slots[i].handle)
      && (created.Some? ==> created.value in w'.tasks && w'.tasks[created.value] == Task(i, Starting))
  {
  }

  /** A task that starts clears the flag, the counters and the buffer, and shows the slot as disconnected. */
  lemma StartTells(s: Slot)
    ensures var t := TaskStep(s, Starting, Go).slot;
      && t.taskRunning && !t.stopRequested && t.state == Disconnected && !t.hasError && t.sock.fd == -1
      && t.reconnectCount == t.bytesSent == t.packetsSent == t.stream.dropped == t.stream.highWater == 0
      && t.stream.buffer == [] && t.shouldRun == s.shouldRun && t.handle == s.handle
  {
  }

  /** One that ends gives up its handle and leaves the slot disabled and not wanted until the supervisor admits it again. */
  lemma EndTells(s: Slot)
    ensures var e := TaskStep(s, EndNote, Go);
      && e.pc == Finished && !e.slot.taskRunning && !e.slot.stopRequested && !e.slot.shouldRun
      && e.slot.state == Disabled && e.slot.handle == None && e.slot.bytesSent == s.bytesSent
  {
  }

  /** Each wait for a reconnection is counted. */
  lemma WaitsAreCounted(s: Slot, pc: Pc, ev: Event)
    requires Fits(s, pc, ev) && pc != Starting
    ensures var t := TaskStep(s, pc, ev).slot; var waits := pc.FailNote? || (pc.LeaveNote? && s.shouldRun && !s.stopRequested);
      t.reconnectCount == s.reconnectCount + (if waits then 1 else 0) && (waits ==> t.state == ReconnectWait)
  {
    if !pc.FailNote? && !pc.LeaveNote? {
      if Connects(pc) {
        CountStaysConnecting(s, pc, ev);
      } else {
        CountStays(s, pc, ev);
      }
    }
  }

  lemma CountStaysConnecting(s: Slot, pc: Pc, ev: Event)
    requires Fits(s, pc, ev) && Connects(pc)
    ensures TaskStep(s, pc, ev).slot.reconnectCount == s.reconnectCount
  {
  }

  lemma CountStays(s: Slot, pc: Pc, ev: Event)
    requires Fits(s, pc, ev) && !Connects(pc) && pc != Starting && !pc.FailNote? && !pc.LeaveNote?
    ensures TaskStep(s, pc, ev).slot.reconnectCount == s.reconnectCount
  {
  }

  // ---- A task told to stop ends -----------------------------------------------------------------

  /** The most steps a task that must stop can still take. */
  function StepsLeft(pc: Pc): nat {
    match pc
    case Finished => 0
    case EndNote => 1
    case EndClose => 2
    case TopCheck => 3
    case LeaveNote => 4
    case FailNote => 4
    case LeaveClose => 5
    case FailClose => 5
    case NoteError(exit) => if exit == ToTop then 4 else 6
    case InnerCheck => 6
    case IdleNote => 7
    case NoteSend(_) => 7
    case Writing(_) => 8
    case Receiving => 9
    case MarkStreaming => 7
    case MockAuth => 8
    case ReadReply(_) => 8
    case SendRequest(_) => 9
    case AnnounceAuth(_) => 10
    case Dialed(_) => 11
    case Dialing => 12
    case AnnounceConnect(_) => 13
    case ChooseRoute => 14
    case ReadConfig => 15
    case Starting => 16
  }

  /** It must: past its start block, which clears the flag, with the flag up. */
  predicate Ending(s: Slot, pc: Pc) {
    s.handle.Some? && pc != Starting && s.stopRequested
  }

  lemma EndingTaskStep(s: Slot, pc: Pc, ev: Event)
    requires Fits(s, pc, ev) && s.stopRequested && pc != Starting
    ensures var e := TaskStep(s, pc, ev);
      && StepsLeft(e.pc) < StepsLeft(pc) && e.pc != Starting && (e.pc != Finished ==> e.slot.stopRequested)
  {
  }

  lemma EndingForeignStep(s: Slot, l: Local)
    requires Applies(s, l) && !l.TaskOwn? && l != EnableOwn(true) && s.stopRequested && s.handle.Some?
    ensures React(s, l).stopRequested
  {
  }

  predicate Alive(w: World, id: nat, i: nat) { id in w.tasks && w.tasks[id].slot == i }

  /** The task lives in every state of the run and nobody enables its slot. */
  predicate StaysUnwanted(w: World, acts: seq<Action>, id: nat, i: nat)
    requires Legal(w, acts)
    decreases |acts|
  {
    && Alive(w, id, i)
    && (acts == [] || (acts[0] != EnableSlot(i, true) && StaysUnwanted(Step(w, acts[0]), acts[1..], id, i)))
  }

  function StepsOf(acts: seq<Action>, id: nat): nat {
    if acts == [] then 0 else (if acts[0].TaskAct? && acts[0].id == id then 1 else 0) + StepsOf(acts[1..], id)
  }

  lemma EndingStep(w: World, a: Action, id: nat, i: nat)
    requires Inv(w) && Enabled(w, a) && i < SLOT_COUNT && Alive(w, id, i) && Alive(Step(w, a), id, i)
    requires Ending(w.slots[i], PcOf(w, i)) && a != EnableSlot(i, true)
    ensures |Step(w, a).slots| == SLOT_COUNT && Ending(Step(w, a).slots[i], PcOf(Step(w, a), i))
    ensures StepsLeft(PcOf(Step(w, a), i)) + (if a.TaskAct? && a.id == id then 1 else 0) <= StepsLeft(PcOf(w, i))
  {
    StepKeeps(w, a);
    StepIsLocal(w, a, i);
    PcMoves(w, a, i);
    ViewFits(w, a, i);
    OwnView(w, a, id, i);
    AliveHandle(Step(w, a), id, i);
    var l := View(w, a, i);
    if l.TaskOwn? {
      EndingTaskStep(w.slots[i], l.pc, l.ev);
    } else {
      EndingForeignStep(w.slots[i], l);
    }
  }

  lemma AliveHandle(w: World, id: nat, i: nat)
    requires Inv(w) && i < SLOT_COUNT && Alive(w, id, i)
    ensures w.slots[i].handle == Some(id) && PcOf(w, i) == w.tasks[id].pc != Finished
  {
  }

  lemma OwnView(w: World, a: Action, id: nat, i: nat)
    requires Inv(w) && Enabled(w, a) && i < SLOT_COUNT && Alive(w, id, i)
    ensures View(w, a, i).TaskOwn? <==> a.TaskAct? && a.id == id
    ensures View(w, a, i) == EnableOwn(true) <==> a == EnableSlot(i, true)
  {
  }

  /** What the first step of such a run leaves to the rest of it. */
  lemma EndingFirst(w: World, acts: seq<Action>, id: nat, i: nat)
    requires Inv(w) && acts != [] && Legal(w, acts) && i < SLOT_COUNT && StaysUnwanted(w, acts, id, i)
    requires Ending(w.slots[i], PcOf(w, i))
    ensures var u := Step(w, acts[0]);
      && Inv(u) && Legal(u, acts[1..]) && StaysUnwanted(u, acts[1..], id, i) && Ending(u.slots[i], PcOf(u, i))
      && Exec(w, acts) == Exec(u, acts[1..])
      && StepsLeft(PcOf(u, i)) + StepsOf(acts, id) <= StepsLeft(PcOf(w, i)) + StepsOf(acts[1..], id)
  {
    StepKeeps(w, acts[0]);
    EndingStep(w, acts[0], id, i);
  }

  lemma {:induction false} EndingRun(w: World, acts: seq<Action>, id: nat, i: nat)
    requires Inv(w) && Legal(w, acts) && i < SLOT_COUNT && StaysUnwanted(w, acts, id, i)
    requires Ending(w.slots[i], PcOf(w, i))
    ensures |Exec(w, acts).slots| == SLOT_COUNT && Ending(Exec(w, acts).slots[i], PcOf(Exec(w, acts), i))
    ensures StepsLeft(PcOf(Exec(w, acts), i)) + StepsOf(acts, id) <= StepsLeft(PcOf(w, i))
    decreases |acts|
  {
    if acts == [] {
    } else {
      EndingFirst(w, acts, id, i);
      EndingRun(Step(w, acts[0]), acts[1..], id, i);
    }
  }

  /**
   From every reachable state, however the others go on: a task past its start block whose flag is up
   keeps it up, and takes at most 15 more steps of its own while it lives, unless its slot is enabled again.
   */
  lemma StoppedTaskEnds(before: seq<Action>, acts: seq<Action>, id: nat, i: nat)
    requires Legal(Init(), before) && i < SLOT_COUNT && |Exec(Init(), before).slots| == SLOT_COUNT
    requires var w := Exec(Init(), before);
      Ending(w.slots[i], PcOf(w, i)) && Legal(w, acts) && StaysUnwanted(w, acts, id, i)
    ensures var w' := Exec(Exec(Init(), before), acts);
      |w'.slots| == SLOT_COUNT && w'.slots[i].stopRequested && StepsOf(acts, id) <= 15
  {
    var w := Exec(Init(), before);
    InitInv();
    RunKeeps(Init(), before);
    EndingRun(w, acts, id, i);
    StepsAtMost(PcOf(w, i));
  }

  lemma StepsAtMost(pc: Pc)
    requires pc != Starting
    ensures StepsLeft(pc) <= 15
  {
  }

  // ---- What the state says ----------------------------------------------------------------------

  /** The states a slot may publish while its task is at `pc` and nobody else has written the state. */
  predicate Published(state: State, pc: Pc) {
    match pc
    case MockAuth => state == Connecting
    case Dialing => state == Connecting
    case Dialed(_) => state == Connecting
    case AnnounceAuth(_) => state == Connecting
    case SendRequest(_) => state == Authenticating
    case ReadReply(_) => state == Authenticating
    case MarkStreaming => state == Connecting || state == Authenticating
    case InnerCheck => state == Streaming
    case Receiving => state == Streaming
    case IdleNote => state == Streaming
    case Writing(_) => state == Streaming
    case NoteSend(_) => state == Streaming
    case FailClose => state == Error || state == Connecting
    case FailNote => state == Error || state == Connecting
    case LeaveClose => state == Streaming || state == Error
    case LeaveNote => state == Streaming || state == Error
    case Finished => state == Disabled || state == HardwareLimited || state == Disconnected
    case _ => true
  }

  predicate Connects(pc: Pc) {
    pc.AnnounceConnect? || pc.MockAuth? || pc.Dialing? || pc.Dialed? || Keeps(pc) || pc.MarkStreaming?
  }

  predicate Streams(pc: Pc) {
    pc.InnerCheck? || pc.Receiving? || pc.IdleNote? || pc.Writing? || pc.NoteSend?
  }

  lemma PublishedConnects(s: Slot, pc: Pc, ev: Event)
    requires Fits(s, pc, ev) && Published(s.state, pc) && Connects(pc)
    ensures Published(TaskStep(s, pc, ev).slot.state, TaskStep(s, pc, ev).pc)
  {
  }

  lemma PublishedStreams(s: Slot, pc: Pc, ev: Event)
    requires Fits(s, pc, ev) && Published(s.state, pc) && Streams(pc)
    ensures Published(TaskStep(s, pc, ev).slot.state, TaskStep(s, pc, ev).pc)
  {
  }

  lemma PublishedElsewhere(s: Slot, pc: Pc, ev: Event)
    requires Fits(s, pc, ev) && Published(s.state, pc) && !Connects(pc) && !Streams(pc)
    ensures Published(TaskStep(s, pc, ev).slot.state, TaskStep(s, pc, ev).pc)
  {
  }

  lemma PublishedTaskStep(s: Slot, pc: Pc, ev: Event)
    requires Fits(s, pc, ev) && Published(s.state, pc)
    ensures Published(TaskStep(s, pc, ev).slot.state, TaskStep(s, pc, ev).pc)
  {
    if Connects(pc) {
      PublishedConnects(s, pc, ev);
    } else if Streams(pc) {
      PublishedStreams(s, pc, ev);
    } else {
      PublishedElsewhere(s, pc, ev);
    }
  }

  /** The steps of others that write slot `i`'s state. */
  predicate Overrules(w: World, a: Action, i: nat) { Stops(w, a, i) && !a.SetMockMode? }

  predicate NeverOverruled(w: World, acts: seq<Action>, i: nat)
    requires Legal(w, acts)
    decreases |acts|
  {
    acts == [] || (!Overrules(w, acts[0], i) && NeverOverruled(Step(w, acts[0]), acts[1..], i))
  }

  lemma PublishedForeignStep(w: World, a: Action, i: nat)
    requires Enabled(w, a) && i < SLOT_COUNT && !Overrules(w, a, i) && !View(w, a, i).TaskOwn?
    ensures React(w.slots[i], View(w, a, i)).state == w.slots[i].state
  {
  }

  lemma PublishedStep(w: World, a: Action, i: nat)
    requires Inv(w) && Enabled(w, a) && i < SLOT_COUNT && !Overrules(w, a, i) && Published(w.slots[i].state, PcOf(w, i))
    ensures |Step(w, a).slots| == SLOT_COUNT && Published(Step(w, a).slots[i].state, PcOf(Step(w, a), i))
  {
    StepIsLocal(w, a, i);
    PcMoves(w, a, i);
    ViewFits(w, a, i);
    var l := View(w, a, i);
    if l.TaskOwn? {
      PublishedTaskStep(w.slots[i], l.pc, l.ev);
    } else {
      PublishedForeignStep(w, a, i);
    }
  }

  /**
   In every interleaving: from a moment at which the state says what the task does, as when it has none
   or is about to connect, it goes on saying so until a disable, restart or supervisor decision writes it.
   */
  lemma {:induction false} StateSaysWhatTaskDoes(w: World, acts: seq<Action>, i: nat)
    requires Inv(w) && Legal(w, acts) && i < SLOT_COUNT && NeverOverruled(w, acts, i)
    requires Published(w.slots[i].state, PcOf(w, i))
    ensures |Exec(w, acts).slots| == SLOT_COUNT && Published(Exec(w, acts).slots[i].state, PcOf(Exec(w, acts), i))
    decreases |acts|
  {
    if acts == [] {
    } else {
      StepKeeps(w, acts[0]);
      PublishedStep(w, acts[0], i);
      StateSaysWhatTaskDoes(Step(w, acts[0]), acts[1..], i);
    }
  }

  /** Overruled, it need not: a slot disabled and enabled again shows DISABLED, and its task goes on as before. */
  lemma RunsWhileDisabled(w: World, i: nat)
    requires Inv(w) && w.lock.Free? && i < SLOT_COUNT
    ensures Enabled(w, EnableSlot(i, false)) && Enabled(Step(w, EnableSlot(i, false)), EnableSlot(i, true))
    ensures var w' := Step(Step(w, EnableSlot(i, false)), EnableSlot(i, true));
      && |w'.slots| == SLOT_COUNT && w'.slots[i].state == Disabled && !w'.slots[i].stopRequested
      && w'.slots[i].shouldRun == w.slots[i].shouldRun && PcOf(w', i) == PcOf(w, i)
  {
    var u := Step(w, EnableSlot(i, false));
    StepKeeps(w, EnableSlot(i, false));
    EnableMoves(w, i, false);
    EnableMoves(u, i, true);
  }

  lemma EnableMoves(w: World, i: nat, enabled: bool)
    requires Inv(w) && w.lock.Free? && i < SLOT_COUNT
    ensures var u := Step(w, EnableSlot(i, enabled));
      && |u.slots| == SLOT_COUNT && u.lock.Free? && u.slots[i].stopRequested == !enabled
      && u.slots[i].state == (if enabled then w.slots[i].state else Disabled)
      && u.slots[i].shouldRun == w.slots[i].shouldRun && PcOf(u, i) == PcOf(w, i)
  {
    StepIsLocal(w, EnableSlot(i, enabled), i);
    PcMoves(w, EnableSlot(i, enabled), i);
  }
}
