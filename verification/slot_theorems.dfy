/** What the runtime protocol guarantees in every interleaving. */
module SlotTheorems {
  import opened Wrappers
  import opened Numbers
  import opened Bytes
  import opened SlotModel
  import opened SlotProtocol
  import Qos

  // ---- Tasks, states and sockets -------------------------------------------------------------

  predicate LiveTaskOf(w: World, id: nat, i: nat) {
    id in w.tasks && w.tasks[id].slot == i
  }

  /**
   In every interleaving: a slot has at most one live task, namely the one its handle names; the
   working states imply a running task; a task dials only while its slot holds no socket; every close
   closes a descriptor that very slot has open, so nothing is closed twice; and a slot without a task
   has closed everything it opened.
   */
  lemma SlotSafety(acts: seq<Action>, i: nat, id: nat, other: nat)
    requires Legal(Init(), acts) && i < SLOT_COUNT
    ensures |Exec(Init(), acts).slots| == SLOT_COUNT
    ensures var w := Exec(Init(), acts);
            var s := w.slots[i];
            && (LiveTaskOf(w, id, i) && LiveTaskOf(w, other, i) ==> id == other)
            && (s.handle == Some(id) <==> LiveTaskOf(w, id, i))
            && (Busy(s.state) ==> s.taskRunning)
            && (s.taskRunning ==> s.handle.Some?)
            && (LiveTaskOf(w, id, i) && (w.tasks[id].pc.Dialing? || w.tasks[id].pc.Dialed?) ==> s.sock.fd == -1)
            && w.stray == 0
            && s.sock.opens == s.sock.closes + |OpenOf(w, i)|
            && (s.sock.fd >= 0 ==> s.sock.fd in OpenOf(w, i))
            && (s.handle.None? ==> s.sock.fd == -1 && s.sock.opens == s.sock.closes && OpenOf(w, i) == {})
  {
    InitInv();
    RunKeeps(Init(), acts);
    InvTasks(Exec(Init(), acts), i, id, other);
    InvSockets(Exec(Init(), acts), i);
  }

  lemma InvTasks(w: World, i: nat, id: nat, other: nat)
    requires TasksOk(w) && SlotsOk(w) && i < SLOT_COUNT
    ensures var s := w.slots[i];
            && (LiveTaskOf(w, id, i) && LiveTaskOf(w, other, i) ==> id == other)
            && (s.handle == Some(id) <==> LiveTaskOf(w, id, i))
            && (Busy(s.state) ==> s.taskRunning)
            && (s.taskRunning ==> s.handle.Some?)
            && (LiveTaskOf(w, id, i) && (w.tasks[id].pc.Dialing? || w.tasks[id].pc.Dialed?) ==> s.sock.fd == -1)
  {
    assert TaskAgrees(w.slots[i], PcOf(w, i));
  }

  lemma InvSockets(w: World, i: nat)
    requires TasksOk(w) && SlotsOk(w) && FdsOk(w) && i < SLOT_COUNT
    ensures var s := w.slots[i];
            && w.stray == 0
            && s.sock.opens == s.sock.closes + |OpenOf(w, i)|
            && (s.sock.fd >= 0 ==> s.sock.fd in OpenOf(w, i))
            && (s.handle.None? ==> s.sock.fd == -1 && s.sock.opens == s.sock.closes && OpenOf(w, i) == {})
  {
    assert TaskAgrees(w.slots[i], PcOf(w, i));
    assert OpenOf(w, i) == Owned(w.slots[i], PcOf(w, i));
    OwnedCount(w.slots[i], PcOf(w, i));
  }

  lemma OwnedCount(s: Slot, pc: Pc)
    requires SocketAgrees(s.sock, pc)
    ensures s.sock.opens == s.sock.closes + |Owned(s, pc)|
  {
  }

  // ---- The fanout --------------------------------------------------------------------------------

  /**
   In every interleaving: since the last buffer reset, what the task received followed by what is still
   buffered is the concatenation, in order, of one prefix per chunk offered; outside a send block the
   prefixes that are not whole chunks are exactly the drops counted, and used <= high water <= 2048.
   */
  lemma FanoutExact(acts: seq<Action>, i: nat)
    requires Legal(Init(), acts) && i < SLOT_COUNT
    ensures |Exec(Init(), acts).slots| == SLOT_COUNT
    ensures var w := Exec(Init(), acts);
            var m := w.slots[i].stream;
            && StreamExact(m)
            && (!BeingSent(w, i) ==> CutShort(m.offers) == m.dropped - m.dropBase && |m.buffer| <= m.highWater)
            && m.highWater <= RTCM_BUFFER_SIZE
  {
    InitInv();
    RunKeeps(Init(), acts);
    InvStream(Exec(Init(), acts), i);
  }

  lemma InvStream(w: World, i: nat)
    requires Inv(w) && i < SLOT_COUNT
    ensures var m := w.slots[i].stream;
            && StreamExact(m)
            && (!BeingSent(w, i) ==> CutShort(m.offers) == m.dropped - m.dropBase && |m.buffer| <= m.highWater)
            && m.highWater <= RTCM_BUFFER_SIZE
  {
  }

  /**
   In every interleaving the fanout's send stores as much as fits: the whole chunk behind what was
   buffered, or else up to the last byte of the buffer, and only then is a drop to be counted.
   */
  lemma SendStores(acts: seq<Action>, resetOk: bool)
    requires Legal(Init(), acts) && Enabled(Exec(Init(), acts), LockNext(resetOk))
    requires var w := Exec(Init(), acts);
      w.lock.Fanout? && w.lock.next < SLOT_COUNT && w.lock.cut.None? && w.slots[w.lock.next].taskRunning
    ensures var w := Exec(Init(), acts); var w' := Step(w, LockNext(resetOk)); var i := w.lock.next;
      && |w'.slots| == SLOT_COUNT && w'.lock.Fanout? && w'.lock.next == i
      && Stored(w.slots[i].stream.buffer, w.lock.chunk, w'.slots[i].stream.buffer)
      && w'.lock.cut == Some(|w.slots[i].stream.buffer| + |w.lock.chunk| > 2048)
      && w'.slots[i].stream.dropped == w.slots[i].stream.dropped
  {
    SendStoresAt(Exec(Init(), acts), resetOk);
  }

  /** `after` is `before` with all of `chunk` behind it if that fits into 2048 bytes, and else filled up with its front. */
  predicate Stored(before: seq<byte>, chunk: seq<byte>, after: seq<byte>) {
    if |before| + |chunk| <= 2048 then after == before + chunk
    else |after| == 2048 && before <= after <= before + chunk
  }

  lemma SendStoresAt(w: World, resetOk: bool)
    requires Enabled(w, LockNext(resetOk))
    requires w.lock.Fanout? && w.lock.next < SLOT_COUNT && w.lock.cut.None? && w.slots[w.lock.next].taskRunning
    ensures var w' := Step(w, LockNext(resetOk)); var i := w.lock.next;
      && |w'.slots| == SLOT_COUNT && w'.lock.Fanout? && w'.lock.next == i
      && Stored(w.slots[i].stream.buffer, w.lock.chunk, w'.slots[i].stream.buffer)
      && w'.lock.cut == Some(|w.slots[i].stream.buffer| + |w.lock.chunk| > 2048)
      && w'.slots[i].stream.dropped == w.slots[i].stream.dropped
  {
  }

  /** The accounting behind it: one drop if the chunk was cut, and the high-water mark is raised to the fill level. */
  lemma NoteCounts(w: World, resetOk: bool)
    requires Enabled(w, LockNext(resetOk)) && w.lock.Fanout? && w.lock.next < SLOT_COUNT && w.lock.cut.Some?
    ensures var w' := Step(w, LockNext(resetOk)); var i := w.lock.next;
      && |w'.slots| == SLOT_COUNT
      && w'.slots[i].stream.dropped == w.slots[i].stream.dropped + (if w.lock.cut.value then 1 else 0)
      && w'.slots[i].stream.highWater == Max(w.slots[i].stream.highWater, |w.slots[i].stream.buffer|)
      && w'.slots[i].stream.buffer == w.slots[i].stream.buffer
      && (w.lock.cut.value ==> w'.slots[i].stale)
  {
  }

  // ---- Isolation -----------------------------------------------------------------------------------

  /** What a step means for one particular slot. */
  datatype Local =
    | Nothing
    | TaskOwn(pc: Pc, ev: Event)
    | Send(chunk: seq<byte>)
    | Note(cut: bool)
    | RestartOwn(resetOk: bool)
    | EnableOwn(enabled: bool)
    | MockOwn(mock: Mock)
    | SuperviseOwn(enabled: bool, safeMode: bool, allow: bool, created: Option<nat>)

  /** The part of a step that concerns slot `j`; it reads nothing of the other slots' records. */
  function View(w: World, a: Action, j: nat): Local
    requires Enabled(w, a) && j < SLOT_COUNT
  {
    match a
    case TaskAct(id, ev) => if w.tasks[id].slot == j then TaskOwn(w.tasks[id].pc, ev) else Nothing
    case LockNext(resetOk) =>
      if w.lock.next != j then Nothing
      else if w.lock.Restart? then RestartOwn(resetOk)
      else if w.lock.cut.Some? then Note(w.lock.cut.value)
      else if w.slots[j].taskRunning then Send(w.lock.chunk)
      else Nothing
    case EnableSlot(i, enabled) => if i == j then EnableOwn(enabled) else Nothing
    case SetMockMode(i, mock) => if i == j then MockOwn(mock) else Nothing
    case PassSlot(config, created) =>
      if |w.pass.configs| == j && config.Some? then
        SuperviseOwn(config.value, Qos.SafeMode(w.pass.heap), Admit(w.pass, config.value), created)
      else Nothing
    case _ => Nothing
  }

  predicate Applies(s: Slot, l: Local) {
    match l
    case TaskOwn(pc, ev) => Fits(s, pc, ev)
    case Send(_) => |s.stream.buffer| <= RTCM_BUFFER_SIZE
    case _ => true
  }

  /** The slot's own reaction. */
  function React(s: Slot, l: Local): Slot
    requires Applies(s, l)
  {
    match l
    case Nothing => s
    case TaskOwn(pc, ev) => TaskStep(s, pc, ev).slot
    case Send(chunk) => s.(stream := SendChunk(s.stream, chunk))
    case Note(cut) => NoteSent(s, cut)
    case RestartOwn(resetOk) => RestartOne(s, resetOk)
    case EnableOwn(enabled) => Enable(s, enabled)
    case MockOwn(mock) => SetMock(s, mock)
    case SuperviseOwn(enabled, safeMode, allow, created) => Supervise(s, enabled, safeMode, allow, created)
  }

  lemma StepIsLocal(w: World, a: Action, j: nat)
    requires Enabled(w, a) && j < SLOT_COUNT
    ensures Applies(w.slots[j], View(w, a, j)) && |Step(w, a).slots| == SLOT_COUNT
    ensures Step(w, a).slots[j] == React(w.slots[j], View(w, a, j))
  {
  }

  /** The steps of a run that concern slot `j`. */
  function Views(w: World, acts: seq<Action>, j: nat): seq<Local>
    requires Legal(w, acts) && j < SLOT_COUNT
    decreases |acts|
  {
    if acts == [] then []
    else (if View(w, acts[0], j).Nothing? then [] else [View(w, acts[0], j)]) + Views(Step(w, acts[0]), acts[1..], j)
  }

  predicate AllApply(s: Slot, ls: seq<Local>)
    decreases |ls|
  {
    ls == [] || (Applies(s, ls[0]) && AllApply(React(s, ls[0]), ls[1..]))
  }

  function ReactAll(s: Slot, ls: seq<Local>): Slot
    requires AllApply(s, ls)
    decreases |ls|
  {
    if ls == [] then s else ReactAll(React(s, ls[0]), ls[1..])
  }

  lemma {:induction false} RunIsLocal(w: World, acts: seq<Action>, j: nat)
    requires |w.slots| == SLOT_COUNT && Legal(w, acts) && j < SLOT_COUNT
    ensures AllApply(w.slots[j], Views(w, acts, j)) && |Exec(w, acts).slots| == SLOT_COUNT
    ensures Exec(w, acts).slots[j] == ReactAll(w.slots[j], Views(w, acts, j))
    decreases |acts|
  {
    if acts == [] {
    } else {
      StepIsLocal(w, acts[0], j);
      RunIsLocal(Step(w, acts[0]), acts[1..], j);
      var v, rest := View(w, acts[0], j), Views(Step(w, acts[0]), acts[1..], j);
      if v.Nothing? {
        assert Views(w, acts, j) == rest;
      } else {
        assert Views(w, acts, j) == [v] + rest && ([v] + rest)[1..] == rest;
      }
    }
  }

  /**
   Isolation: a slot that starts the same and is addressed by the same steps ends the same, however
   the other slots' buffers, tasks and configurations differ between the two runs.
   */
  lemma Isolation(w: World, acts: seq<Action>, v: World, bcts: seq<Action>, j: nat)
    requires |w.slots| == SLOT_COUNT == |v.slots| && j < SLOT_COUNT && w.slots[j] == v.slots[j]
    requires Legal(w, acts) && Legal(v, bcts) && Views(w, acts, j) == Views(v, bcts, j)
    ensures |Exec(w, acts).slots| == SLOT_COUNT == |Exec(v, bcts).slots|
    ensures Exec(w, acts).slots[j] == Exec(v, bcts).slots[j]
  {
    RunIsLocal(w, acts, j);
    RunIsLocal(v, bcts, j);
  }

  // ---- Every chunk reaches every running slot ------------------------------------------------------

  function Chunks(offers: seq<Offer>): (r: seq<seq<byte>>)
    ensures |r| == |offers| && forall i | 0 <= i < |r| :: r[i] == offers[i].chunk
  {
    seq(|offers|, i requires 0 <= i < |offers| => offers[i].chunk)
  }

  /** The chunks fed to the fanout by a run. */
  function Inputs(acts: seq<Action>): seq<seq<byte>> {
    if acts == [] then [] else (if acts[0].FanoutStart? then [acts[0].chunk] else []) + Inputs(acts[1..])
  }

  /** Slot `i` runs throughout and nobody restarts the runtime. */
  predicate Undisturbed(w: World, acts: seq<Action>, i: nat)
    requires Legal(w, acts)
    decreases |acts|
  {
    && i < |w.slots| && w.slots[i].taskRunning && !w.lock.Restart?
    && (acts == [] || Undisturbed(Step(w, acts[0]), acts[1..], i))
  }

  /** The chunk a fanout in progress has yet to offer to slot `i`. */
  function Awaited(w: World, i: nat): seq<seq<byte>> {
    if w.lock.Fanout? && (w.lock.next < i || (w.lock.next == i && w.lock.cut.None?)) then [w.lock.chunk] else []
  }

  /** The chunks slot `i` has been offered since its last reset, with the one about to be. */
  function Fed(w: World, i: nat): seq<seq<byte>>
    requires i < |w.slots|
  {
    Chunks(w.slots[i].stream.offers) + Awaited(w, i)
  }

  lemma {:induction false} InputsSplit(acts: seq<Action>)
    requires acts != []
    ensures Inputs(acts) == Inputs([acts[0]]) + Inputs(acts[1..])
  {
    assert [acts[0]][1..] == [];
    assert Inputs([acts[0]]) == if acts[0].FanoutStart? then [acts[0].chunk] else [];
  }

  /** The fanout's move is the send to slot `i`. */
  predicate SendsTo(w: World, i: nat) { w.lock.Fanout? && w.lock.next == i && w.lock.cut.None? }

  lemma SendOffers(w: World, i: nat)
    requires Enabled(w, LockNext(true)) && i < SLOT_COUNT && w.slots[i].taskRunning && SendsTo(w, i)
    ensures FanoutMove(w) == FanoutSend(w, i)
    ensures Chunks(FanoutSend(w, i).slots[i].stream.offers) == Chunks(w.slots[i].stream.offers) + [w.lock.chunk]
    ensures Awaited(FanoutSend(w, i), i) == [] && Awaited(w, i) == [w.lock.chunk]
  {
  }

  lemma OtherMoveOffers(w: World, i: nat)
    requires Enabled(w, LockNext(true)) && i < SLOT_COUNT && w.lock.Fanout? && !SendsTo(w, i)
    ensures |FanoutMove(w).slots| == SLOT_COUNT
    ensures FanoutMove(w).slots[i].stream.offers == w.slots[i].stream.offers
  {
  }

  lemma OtherMoveAwaits(w: World, i: nat)
    requires Enabled(w, LockNext(true)) && i < SLOT_COUNT && w.slots[i].taskRunning && w.lock.Fanout? && !SendsTo(w, i)
    ensures Awaited(FanoutMove(w), i) == Awaited(w, i)
  {
  }

  lemma LockStepOffers(w: World, resetOk: bool, i: nat)
    requires Enabled(w, LockNext(resetOk)) && i < SLOT_COUNT && w.slots[i].taskRunning && w.lock.Fanout?
    ensures |Step(w, LockNext(resetOk)).slots| == SLOT_COUNT && Fed(Step(w, LockNext(resetOk)), i) == Fed(w, i)
  {
    assert Step(w, LockNext(resetOk)) == FanoutMove(w);
    if SendsTo(w, i) {
      SendOffers(w, i);
    } else {
      OtherMoveOffers(w, i);
      OtherMoveAwaits(w, i);
    }
  }

  lemma LocalOffers(s: Slot, l: Local)
    requires Applies(s, l) && !l.Send? && !l.RestartOwn? && !(l.TaskOwn? && l.pc == Starting)
    ensures React(s, l).stream.offers == s.stream.offers
  {
    if l.TaskOwn? {
      TaskStepTraffic(s, l.pc, l.ev);
    }
  }

  /** The task of a running slot is past its start block. */
  lemma RunningHasStarted(w: World, id: nat, i: nat)
    requires Inv(w) && i < SLOT_COUNT && w.slots[i].taskRunning && id in w.tasks && w.tasks[id].slot == i
    ensures w.tasks[id].pc != Starting
  {
    assert PcOf(w, i) == w.tasks[id].pc && TaskAgrees(w.slots[i], PcOf(w, i));
  }

  lemma OtherStepAwaits(w: World, a: Action, i: nat)
    requires Enabled(w, a) && i < SLOT_COUNT && !a.LockNext? && !w.lock.Restart?
    ensures Awaited(Step(w, a), i) == if a.FanoutStart? then [a.chunk] else Awaited(w, i)
  {
    assert !a.FanoutStart? && !a.RestartStart? ==> Step(w, a).lock == w.lock;
  }

  lemma OtherStepOffers(w: World, a: Action, i: nat)
    requires Inv(w) && Enabled(w, a) && i < SLOT_COUNT && w.slots[i].taskRunning && !a.LockNext?
    ensures |Step(w, a).slots| == SLOT_COUNT
    ensures Step(w, a).slots[i].stream.offers == w.slots[i].stream.offers
  {
    StepIsLocal(w, a, i);
    if a.TaskAct? && w.tasks[a.id].slot == i {
      RunningHasStarted(w, a.id, i);
    }
    LocalOffers(w.slots[i], View(w, a, i));
  }

  lemma OneInput(a: Action)
    ensures Inputs([a]) == if a.FanoutStart? then [a.chunk] else []
  {
    assert [a][1..] == [];
  }

  /** One step's contribution to what slot `i` has been or is about to be offered. */
  lemma StepOffers(w: World, a: Action, i: nat)
    requires Inv(w) && Enabled(w, a) && i < SLOT_COUNT && w.slots[i].taskRunning && !w.lock.Restart?
    ensures |Step(w, a).slots| == SLOT_COUNT
    ensures Fed(Step(w, a), i) == Fed(w, i) + Inputs([a])
  {
    if a.LockNext? {
      LockStepFed(w, a, i);
    } else {
      OtherStepFed(w, a, i);
    }
  }

  lemma LockStepFed(w: World, a: Action, i: nat)
    requires Enabled(w, a) && i < SLOT_COUNT && w.slots[i].taskRunning && w.lock.Fanout? && a.LockNext?
    ensures |Step(w, a).slots| == SLOT_COUNT && Fed(Step(w, a), i) == Fed(w, i) + Inputs([a])
  {
    OneInput(a);
    LockStepOffers(w, a.resetOk, i);
    assert Fed(w, i) + [] == Fed(w, i);
  }

  lemma OtherStepFed(w: World, a: Action, i: nat)
    requires Inv(w) && Enabled(w, a) && i < SLOT_COUNT && w.slots[i].taskRunning && !w.lock.Restart? && !a.LockNext?
    ensures |Step(w, a).slots| == SLOT_COUNT && Fed(Step(w, a), i) == Fed(w, i) + Inputs([a])
  {
    OneInput(a);
    OtherStepOffers(w, a, i);
    OtherStepAwaits(w, a, i);
    FedGrows(w, Step(w, a), i, Inputs([a]));
  }

  lemma FedGrows(w: World, w': World, i: nat, more: seq<seq<byte>>)
    requires i < |w.slots| && i < |w'.slots| && w'.slots[i].stream.offers == w.slots[i].stream.offers
    requires if more == [] then Awaited(w', i) == Awaited(w, i) else Awaited(w, i) == [] && Awaited(w', i) == more
    ensures Fed(w', i) == Fed(w, i) + more
  {
  }

  /**
   While a slot runs undisturbed, the chunks offered to it are exactly the fanout's inputs, in order:
   none is skipped or repeated for it, whatever the other slots do.
   */
  lemma {:induction false} EveryChunkOffered(w: World, acts: seq<Action>, i: nat)
    requires Inv(w) && Legal(w, acts) && i < SLOT_COUNT && Undisturbed(w, acts, i)
    ensures i < |Exec(w, acts).slots|
    ensures Fed(Exec(w, acts), i) == Fed(w, i) + Inputs(acts)
    decreases |acts|
  {
    if acts == [] {
      assert Fed(w, i) + [] == Fed(w, i);
    } else {
      var w', rest := Step(w, acts[0]), acts[1..];
      FirstStep(w, acts, i);
      EveryChunkOffered(w', rest, i);
      Regroup(Fed(w, i), Inputs([acts[0]]), Inputs(rest));
    }
  }

  lemma Regroup(a: seq<seq<byte>>, b: seq<seq<byte>>, c: seq<seq<byte>>)
    ensures a + b + c == a + (b + c)
  {
  }

  lemma FirstStep(w: World, acts: seq<Action>, i: nat)
    requires Inv(w) && acts != [] && Legal(w, acts) && i < SLOT_COUNT && Undisturbed(w, acts, i)
    ensures var w' := Step(w, acts[0]);
            && Inv(w') && Legal(w', acts[1..]) && Undisturbed(w', acts[1..], i)
            && Exec(w, acts) == Exec(w', acts[1..])
            && Fed(w', i) == Fed(w, i) + Inputs([acts[0]])
            && Inputs(acts) == Inputs([acts[0]]) + Inputs(acts[1..])
  {
    StepKeeps(w, acts[0]);
    StepOffers(w, acts[0], i);
    InputsSplit(acts);
  }

  // ---- Admission -------------------------------------------------------------------------------------

  /** Enabled slots among the configurations that could be read. */
  function EnabledCount(cs: seq<Option<bool>>): nat {
    if cs == [] then 0 else EnabledCount(cs[..|cs| - 1]) + if cs[|cs| - 1] == Some(true) then 1 else 0
  }

  /** Slot `i` may run: enabled, no safe mode, and fewer than the limit enabled in front of it. */
  predicate Admissible(cs: seq<Option<bool>>, i: nat, heap: nat, maxSlots: nat)
    requires i < |cs|
  {
    cs[i] == Some(true) && !Qos.SafeMode(heap) && EnabledCount(cs[..i]) < maxSlots
  }

  /** During a pass, a slot already decided with a readable configuration runs only if admissible. */
  ghost predicate PassOk(w: World) {
    |w.slots| == SLOT_COUNT &&
    (w.pass.Passing? ==>
       var p := w.pass;
       && |p.configs| <= SLOT_COUNT
       && p.allowed == Min(p.maxSlots, EnabledCount(p.configs))
       && forall i | 0 <= i < |p.configs| && p.configs[i].Some? && w.slots[i].shouldRun ::
            Admissible(p.configs, i, p.heap, p.maxSlots))
  }

  /** Only the supervisor's own block on a slot can make it wanted. */
  lemma WantedOnlyByPass(s: Slot, l: Local)
    requires Applies(s, l) && !l.SuperviseOwn?
    ensures React(s, l).shouldRun ==> s.shouldRun
  {
  }

  lemma AdmissibleExtends(cs: seq<Option<bool>>, config: Option<bool>, i: nat, heap: nat, maxSlots: nat)
    requires i < |cs|
    ensures Admissible(cs + [config], i, heap, maxSlots) == Admissible(cs, i, heap, maxSlots)
  {
    assert (cs + [config])[..i] == cs[..i];
  }

  lemma EnabledCountSnoc(cs: seq<Option<bool>>, config: Option<bool>)
    ensures EnabledCount(cs + [config]) == EnabledCount(cs) + if config == Some(true) then 1 else 0
  {
    assert (cs + [config])[..|cs|] == cs;
  }

  /** The pass decides the next slot by the admission rule and touches no other slot. */
  lemma PassSlotDecides(w: World, config: Option<bool>, created: Option<nat>)
    requires PassOk(w) && Enabled(w, PassSlot(config, created))
    ensures var w' := Step(w, PassSlot(config, created)); var cs := w.pass.configs; var i := |cs|;
            && |w'.slots| == SLOT_COUNT && w'.pass.Passing? && w'.pass.configs == cs + [config]
            && w'.pass.heap == w.pass.heap && w'.pass.maxSlots == w.pass.maxSlots
            && (forall j | 0 <= j < SLOT_COUNT && j != i :: w'.slots[j] == w.slots[j])
            && w'.pass.allowed == Min(w.pass.maxSlots, EnabledCount(cs) + if config == Some(true) then 1 else 0)
            && (config.Some? ==> (w'.slots[i].shouldRun <==> config == Some(true) && !Qos.SafeMode(w.pass.heap)
                                                               && EnabledCount(cs) < w.pass.maxSlots))
  {
  }

  lemma PassSlotOk(w: World, config: Option<bool>, created: Option<nat>)
    requires PassOk(w) && Enabled(w, PassSlot(config, created))
    ensures PassOk(Step(w, PassSlot(config, created)))
    ensures var w' := Step(w, PassSlot(config, created)); var i := |w.pass.configs|;
            config.Some? ==> (w'.slots[i].shouldRun <==> Admissible(w'.pass.configs, i, w.pass.heap, w.pass.maxSlots))
  {
    var w' := Step(w, PassSlot(config, created));
    PassSlotDecides(w, config, created);
    PassOkAfter(w, w', config);
  }

  lemma PassOkAfter(w: World, w': World, config: Option<bool>)
    requires PassOk(w) && w.pass.Passing? && |w.pass.configs| < SLOT_COUNT
    requires |w'.slots| == SLOT_COUNT && w'.pass.Passing? && w'.pass.configs == w.pass.configs + [config]
    requires w'.pass.heap == w.pass.heap && w'.pass.maxSlots == w.pass.maxSlots
    requires forall j | 0 <= j < SLOT_COUNT && j != |w.pass.configs| :: w'.slots[j] == w.slots[j]
    requires w'.pass.allowed == Min(w.pass.maxSlots, EnabledCount(w.pass.configs) + if config == Some(true) then 1 else 0)
    requires config.Some? ==> (w'.slots[|w.pass.configs|].shouldRun <==>
               config == Some(true) && !Qos.SafeMode(w.pass.heap) && EnabledCount(w.pass.configs) < w.pass.maxSlots)
    ensures PassOk(w')
    ensures var i := |w.pass.configs|;
            config.Some? ==> (w'.slots[i].shouldRun <==> Admissible(w'.pass.configs, i, w.pass.heap, w.pass.maxSlots))
  {
    var cs := w.pass.configs;
    EnabledCountSnoc(cs, config);
    assert (cs + [config])[..|cs|] == cs;
    forall i | 0 <= i < |cs + [config]| && (cs + [config])[i].Some? && w'.slots[i].shouldRun
      ensures Admissible(cs + [config], i, w.pass.heap, w.pass.maxSlots)
    {
      if i < |cs| {
        AdmissibleExtends(cs, config, i, w.pass.heap, w.pass.maxSlots);
      }
    }
  }

  lemma PassKeeps(w: World, a: Action)
    requires PassOk(w) && Enabled(w, a)
    ensures PassOk(Step(w, a))
  {
    if a.PassSlot? {
      PassSlotOk(w, a.config, a.created);
    } else {
      var w' := Step(w, a);
      forall j | 0 <= j < SLOT_COUNT && w'.slots[j].shouldRun
        ensures w.slots[j].shouldRun
      {
        StepIsLocal(w, a, j);
        WantedOnlyByPass(w.slots[j], View(w, a, j));
      }
      StepIsLocal(w, a, 0);
      assert !a.PassStart? && !a.PassEnd? ==> w'.pass == w.pass;
    }
  }

  lemma {:induction false} PassRunKeeps(w: World, acts: seq<Action>)
    requires PassOk(w) && Legal(w, acts)
    ensures PassOk(Exec(w, acts))
    decreases |acts|
  {
    if acts == [] {
    } else {
      PassKeeps(w, acts[0]);
      PassRunKeeps(Step(w, acts[0]), acts[1..]);
    }
  }

  /** The indices below `n` that are admissible. */
  function AdmissibleSet(cs: seq<Option<bool>>, n: nat, heap: nat, maxSlots: nat): set<nat>
    requires n <= |cs|
  {
    set i: nat | i < n && Admissible(cs, i, heap, maxSlots)
  }

  lemma {:induction false} AdmissibleBound(cs: seq<Option<bool>>, n: nat, heap: nat, maxSlots: nat)
    requires n <= |cs|
    ensures |AdmissibleSet(cs, n, heap, maxSlots)| <= Min(maxSlots, EnabledCount(cs[..n]))
  {
    var t := AdmissibleSet(cs, n, heap, maxSlots);
    if n == 0 {
      assert t == {};
    } else {
      AdmissibleBound(cs, n - 1, heap, maxSlots);
      AdmissibleMore(cs, n, heap, maxSlots);
      EnabledCountMore(cs, n);
    }
  }

  lemma AdmissibleMore(cs: seq<Option<bool>>, n: nat, heap: nat, maxSlots: nat)
    requires 0 < n <= |cs|
    ensures |AdmissibleSet(cs, n, heap, maxSlots)| ==
            |AdmissibleSet(cs, n - 1, heap, maxSlots)| + if Admissible(cs, n - 1, heap, maxSlots) then 1 else 0
  {
    var u := AdmissibleSet(cs, n - 1, heap, maxSlots);
    var t := if Admissible(cs, n - 1, heap, maxSlots) then u + {n - 1} else u;
    forall i: nat
      ensures i in AdmissibleSet(cs, n, heap, maxSlots) <==> i in t
    {
    }
    assert AdmissibleSet(cs, n, heap, maxSlots) == t;
  }

  lemma EnabledCountMore(cs: seq<Option<bool>>, n: nat)
    requires 0 < n <= |cs|
    ensures EnabledCount(cs[..n]) == EnabledCount(cs[..n - 1]) + if cs[n - 1] == Some(true) then 1 else 0
  {
    assert cs[..n][..n - 1] == cs[..n - 1] && cs[..n][n - 1] == cs[n - 1];
  }

  /**
   At the end of every supervisor pass, in every interleaving: a slot whose configuration was read is
   wanted only if it is enabled, memory allows it, and fewer than the limit enabled slots precede it;
   if all were read, no more than the limit are wanted.
   */
  lemma AdmissionAtPassEnd(acts: seq<Action>, now: int)
    requires Legal(Init(), acts) && Enabled(Exec(Init(), acts), PassEnd(now))
    ensures var w := Exec(Init(), acts); var p := w.pass; var w' := Step(w, PassEnd(now));
            && w'.slots == w.slots && w'.lastConfigs == p.configs
            && (forall i | 0 <= i < SLOT_COUNT && p.configs[i].Some? && w'.slots[i].shouldRun ::
                  Admissible(p.configs, i, p.heap, p.maxSlots))
            && ((forall i | 0 <= i < SLOT_COUNT :: p.configs[i].Some?) ==>
                  |set i: nat | i < SLOT_COUNT && w'.slots[i].shouldRun| <= p.maxSlots)
  {
    PassRunKeeps(Init(), acts);
    var w := Exec(Init(), acts);
    var p := w.pass;
    if forall i | 0 <= i < SLOT_COUNT :: p.configs[i].Some? {
      var wanted := set i: nat | i < SLOT_COUNT && w.slots[i].shouldRun;
      AdmissibleBound(p.configs, SLOT_COUNT, p.heap, p.maxSlots);
      assert wanted <= AdmissibleSet(p.configs, SLOT_COUNT, p.heap, p.maxSlots);
      SubsetSize(wanted, AdmissibleSet(p.configs, SLOT_COUNT, p.heap, p.maxSlots));
    }
  }

  lemma {:induction false} SubsetSize(a: set<nat>, b: set<nat>)
    requires a <= b
    ensures |a| <= |b|
  {
    if a == {} {
    } else {
      var x :| x in a;
      SubsetSize(a - {x}, b - {x});
    }
  }

  // ---- A critical high-water mark persists -------------------------------------------------------------

  /** Slot `i` has been critically full, and a pass that has looked at it knows. */
  ghost predicate Marked(w: World, i: nat, since: nat) {
    && i < SLOT_COUNT == |w.slots|
    && w.slots[i].stream.highWater >= Qos.RING_CRITICAL
    && PassKnows(w, i, since)
  }

  /** The step in which slot `i`'s task starts over. */
  predicate Restarts(w: World, a: Action, i: nat) {
    a.TaskAct? && a.id in w.tasks && w.tasks[a.id] == Task(i, Starting)
  }

  predicate NeverRestarts(w: World, acts: seq<Action>, i: nat)
    requires Legal(w, acts)
    decreases |acts|
  {
    acts == [] || (!Restarts(w, acts[0], i) && NeverRestarts(Step(w, acts[0]), acts[1..], i))
  }

  lemma HighWaterRises(s: Slot, l: Local)
    requires Applies(s, l) && !(l.TaskOwn? && l.pc == Starting)
    ensures React(s, l).stream.highWater >= s.stream.highWater
  {
    if l.TaskOwn? {
      TaskStepTraffic(s, l.pc, l.ev);
    }
  }

  /** What a pass makes of a slot that stays critically full. */
  ghost predicate PassKnows(w: World, i: nat, since: nat) {
    && (w.pass.Passing? && i < |w.pass.configs| && w.pass.configs[i].Some? ==> w.pass.maxHigh >= Qos.RING_CRITICAL)
    && w.passes >= since
    && (w.passes > since && i < |w.lastConfigs| && w.lastConfigs[i].Some? ==> w.monitor.level == Qos.Critical)
  }

  lemma PassStepKnows(w: World, a: Action, i: nat, since: nat)
    requires PassKnows(w, i, since) && Enabled(w, a) && i < SLOT_COUNT
    requires w.slots[i].stream.highWater >= Qos.RING_CRITICAL
    ensures PassKnows(Step(w, a), i, since)
  {
    if !a.PassStart? && !a.PassSlot? && !a.PassEnd? {
      var w' := Step(w, a);
      assert w'.pass == w.pass && w'.passes == w.passes && w'.lastConfigs == w.lastConfigs && w'.monitor == w.monitor;
    }
  }

  lemma MarkedStep(w: World, a: Action, i: nat, since: nat)
    requires Marked(w, i, since) && Enabled(w, a) && !Restarts(w, a, i)
    ensures Marked(Step(w, a), i, since)
  {
    StepIsLocal(w, a, i);
    HighWaterRises(w.slots[i], View(w, a, i));
    PassStepKnows(w, a, i, since);
  }

  /**
   Once a slot's buffer has been critically full, every later pass that can read its configuration
   ends CRITICAL, until that slot's task starts again.
   */
  lemma {:induction false} CriticalPersists(w: World, acts: seq<Action>, i: nat, since: nat)
    requires Marked(w, i, since) && Legal(w, acts) && NeverRestarts(w, acts, i)
    ensures Marked(Exec(w, acts), i, since)
    decreases |acts|
  {
    if acts == [] {
    } else {
      MarkedStep(w, acts[0], i, since);
      CriticalPersists(Step(w, acts[0]), acts[1..], i, since);
    }
  }

  /** The same, from a moment between two passes: the verdict of any later pass that read slot `i`. */
  lemma CriticalUntilRestart(w: World, acts: seq<Action>, i: nat)
    requires |w.slots| == SLOT_COUNT && i < SLOT_COUNT && w.pass.Resting?
    requires w.slots[i].stream.highWater >= Qos.RING_CRITICAL
    requires Legal(w, acts) && NeverRestarts(w, acts, i)
    ensures var w' := Exec(w, acts);
            w'.passes > w.passes && i < |w'.lastConfigs| && w'.lastConfigs[i].Some? ==> w'.monitor.level == Qos.Critical
  {
    CriticalPersists(w, acts, i, w.passes);
  }

  // ---- The verdicts of all passes --------------------------------------------------------------

  /** What the passes that a run completes have sampled. */
  function Samples(w: World, acts: seq<Action>): seq<Qos.Sample>
    requires Legal(w, acts)
    decreases |acts|
  {
    if acts == [] then [] else SampleOf(w, acts[0]) + Samples(Step(w, acts[0]), acts[1..])
  }

  function SampleOf(w: World, a: Action): seq<Qos.Sample>
    requires Enabled(w, a)
  {
    if a.PassEnd? then
      [Qos.Sample(w.pass.heap, w.pass.sockets, w.pass.maxUsed, w.pass.maxHigh, w.pass.totalDropped, a.now)]
    else []
  }

  lemma MonitorMoves(w: World, a: Action, past: seq<Qos.Sample>)
    requires Enabled(w, a) && w.monitor == Qos.After(past)
    ensures Step(w, a).monitor == Qos.After(past + SampleOf(w, a))
  {
    var more := SampleOf(w, a);
    if a.PassEnd? {
      assert (past + more)[..|past + more| - 1] == past;
    } else {
      assert past + more == past;
    }
  }

  lemma {:induction false} MonitorFollows(w: World, acts: seq<Action>, past: seq<Qos.Sample>)
    requires Legal(w, acts) && w.monitor == Qos.After(past)
    ensures Exec(w, acts).monitor == Qos.After(past + Samples(w, acts))
    decreases |acts|
  {
    if acts == [] {
      assert past + [] == past;
    } else {
      MonitorMoves(w, acts[0], past);
      MonitorFollows(Step(w, acts[0]), acts[1..], past + SampleOf(w, acts[0]));
      assert past + SampleOf(w, acts[0]) + Samples(Step(w, acts[0]), acts[1..]) == past + Samples(w, acts);
    }
  }

  /** In every interleaving the level, console and stop flags are those of the passes completed so far. */
  lemma MonitorIsOfPasses(acts: seq<Action>)
    requires Legal(Init(), acts)
    ensures Exec(Init(), acts).monitor == Qos.After(Samples(Init(), acts))
  {
    MonitorFollows(Init(), acts, []);
    assert [] + Samples(Init(), acts) == Samples(Init(), acts);
  }
}
