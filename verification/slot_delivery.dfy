/**
 What becomes of the bytes a slot's task takes from its buffer (main/ntrip_runtime.c, the streaming loop of
 ntrip_runtime_slot_task): each is written, lost, or in the task's hands, and what a connection gets is
 what was taken for it, in order, as long as every write was complete.
 */
module SlotDelivery {
  import opened Wrappers
  import opened Bytes
  import opened SlotModel
  import opened SlotProtocol
  import opened SlotTheorems
  import Qos

  // ---- Sequences with gaps ---------------------------------------------------------------------

  /** `a` is `b` with bytes left out. */
  ghost predicate Drawn(a: seq<byte>, b: seq<byte>)
    decreases |b|
  {
    a == [] ||
    (b != [] && ((a[|a| - 1] == b[|b| - 1] && Drawn(a[..|a| - 1], b[..|b| - 1])) || Drawn(a, b[..|b| - 1])))
  }

  lemma DrawnOne(a: seq<byte>, b: seq<byte>, x: byte)
    requires Drawn(a, b)
    ensures Drawn(a + [x], b + [x])
  {
    assert (a + [x])[..|a|] == a && (b + [x])[..|b|] == b;
  }

  lemma {:induction false} DrawnAppend(a: seq<byte>, b: seq<byte>, c: seq<byte>)
    requires Drawn(a, b)
    ensures Drawn(a + c, b + c)
    decreases |c|
  {
    if c == [] {
      assert a + c == a && b + c == b;
    } else {
      DrawnOne(a, b, c[0]);
      DrawnAppend(a + [c[0]], b + [c[0]], c[1..]);
      assert a + c == a + [c[0]] + c[1..] && b + c == b + [c[0]] + c[1..];
    }
  }

  lemma {:induction false} DrawnLess(a: seq<byte>, b: seq<byte>)
    requires a != [] && Drawn(a, b)
    ensures Drawn(a[..|a| - 1], b)
    decreases |b|
  {
    if a[|a| - 1] == b[|b| - 1] && Drawn(a[..|a| - 1], b[..|b| - 1]) {
    } else {
      DrawnLess(a, b[..|b| - 1]);
    }
  }

  lemma {:induction false} DrawnPrefix(a: seq<byte>, n: nat, b: seq<byte>)
    requires n <= |a| && Drawn(a, b)
    ensures Drawn(a[..n], b)
    decreases |a| - n
  {
    if n == |a| {
      assert a[..n] == a;
    } else {
      DrawnLess(a, b);
      DrawnPrefix(a[..|a| - 1], n, b);
      assert a[..|a| - 1][..n] == a[..n];
    }
  }

  predicate EndsWith(a: seq<byte>, b: seq<byte>) { |b| <= |a| && a[|a| - |b|..] == b }

  /** One ends with the other: they are fed alike and may have been emptied at different times. */
  predicate SameEnd(a: seq<byte>, b: seq<byte>) { EndsWith(a, b) || EndsWith(b, a) }

  lemma SameEndGrows(a: seq<byte>, b: seq<byte>, c: seq<byte>)
    requires SameEnd(a, b)
    ensures SameEnd(a + c, b + c)
  {
    if EndsWith(a, b) {
      assert (a + c)[|a| - |b|..] == b + c;
    } else {
      assert (b + c)[|b| - |a|..] == a + c;
    }
  }

  // ---- The balance -------------------------------------------------------------------------------

  /** The block the task has taken and not yet written. */
  function InHand(pc: Pc): seq<byte> { if pc.Writing? then pc.data else [] }

  /** Written and not yet counted. */
  function Uncounted(pc: Pc): nat { if pc.NoteSend? then pc.length else 0 }

  /** Since the task started. */
  predicate CountsBalance(s: Slot, pc: Pc) {
    var l := s.ledger;
    && l.taken == l.written + l.lost + |InHand(pc)|
    && s.bytesSent + Uncounted(pc) == l.written
    && s.packetsSent + (if pc.NoteSend? then 1 else 0) == l.blocks
    && l.missed <= l.lost
  }

  /** On the connection, with `hand` in the task's hands. */
  ghost predicate LineBalances(received: seq<byte>, l: Ledger, hand: seq<byte>) {
    && |l.inbound| == |l.outbound| + l.missed + |hand|
    && (l.missed == 0 ==> l.inbound == l.outbound + hand)
    && Drawn(l.outbound + hand, l.inbound)
    && SameEnd(received, l.inbound)
  }

  ghost predicate Balances(s: Slot, pc: Pc) {
    CountsBalance(s, pc) && LineBalances(s.stream.received, s.ledger, InHand(pc))
  }

  lemma TakeBalances(s: Slot, n: nat)
    requires 0 < n <= |s.stream.buffer| && Balances(s, Receiving)
    ensures Balances(TakeBlock(s, n), Writing(s.stream.buffer[..n]))
  {
    var l, data := s.ledger, s.stream.buffer[..n];
    DrawnAppend(l.outbound + [], l.inbound, data);
    assert l.outbound + [] == l.outbound;
    SameEndGrows(s.stream.received, l.inbound, data);
  }

  lemma WriteBalances(s: Slot, data: seq<byte>, n: int, next: Pc)
    requires n <= |data| && Balances(s, Writing(data))
    requires if n >= 0 then next == NoteSend(n) else InHand(next) == [] && !next.NoteSend?
    ensures Balances(WriteBlock(s, data, n), next)
  {
    var m := if n < 0 then 0 else n;
    WriteOnLine(s.stream.received, s.ledger, data, m, WriteBlock(s, data, n).ledger);
  }

  lemma WriteOnLine(received: seq<byte>, l: Ledger, data: seq<byte>, m: nat, t: Ledger)
    requires m <= |data| && LineBalances(received, l, data)
    requires t.inbound == l.inbound && t.outbound == l.outbound + data[..m] && t.missed == l.missed + (|data| - m)
    ensures LineBalances(received, t, [])
  {
    var out := l.outbound + data;
    DrawnPrefix(out, |l.outbound| + m, l.inbound);
    assert out[..|l.outbound| + m] == t.outbound && t.outbound + [] == t.outbound;
    assert t.missed == 0 ==> data[..m] == data;
  }

  /** Any other step of the task: it starts afresh, opens a connection, counts a block, or touches nothing of this. */
  lemma OtherStepBalances(s: Slot, pc: Pc, ev: Event)
    requires Fits(s, pc, ev) && Balances(s, pc) && !pc.Writing? && !(pc.Receiving? && ev.n > 0)
    ensures Balances(TaskStep(s, pc, ev).slot, TaskStep(s, pc, ev).pc)
  {
    var t := TaskStep(s, pc, ev).slot;
    if pc.Starting? || pc.MarkStreaming? {
      assert t.ledger.inbound == [] == t.ledger.outbound;
    } else {
      assert t.ledger == s.ledger && t.stream == s.stream;
      assert InHand(TaskStep(s, pc, ev).pc) == InHand(pc) == [];
    }
  }

  lemma TaskStepBalances(s: Slot, pc: Pc, ev: Event)
    requires Fits(s, pc, ev) && Balances(s, pc)
    ensures Balances(TaskStep(s, pc, ev).slot, TaskStep(s, pc, ev).pc)
  {
    if pc.Receiving? && ev.n > 0 {
      TakeBalances(s, ev.n);
    } else if pc.Writing? {
      WriteBalances(s, pc.data, ev.written, TaskStep(s, pc, ev).pc);
    } else {
      OtherStepBalances(s, pc, ev);
    }
  }

  /** Nobody else touches the accounts; a reset of the buffer only empties its record. */
  predicate SameAccounts(s: Slot, t: Slot) {
    && t.ledger == s.ledger && t.bytesSent == s.bytesSent && t.packetsSent == s.packetsSent
    && (t.stream.received == s.stream.received || t.stream.received == [])
  }

  lemma ForeignStep(s: Slot, l: Local)
    requires Applies(s, l) && !l.TaskOwn?
    ensures SameAccounts(s, React(s, l))
  {
  }

  lemma SameAccountsBalance(s: Slot, t: Slot, pc: Pc, next: Pc)
    requires SameAccounts(s, t) && Balances(s, pc)
    requires InHand(next) == InHand(pc) && Uncounted(next) == Uncounted(pc) && next.NoteSend? == pc.NoteSend?
    ensures Balances(t, next)
  {
  }

  // ---- Over all runs ---------------------------------------------------------------------------

  /** Where slot `j`'s task stands after a step. */
  function PcAfter(w: World, a: Action, j: nat): Pc
    requires Enabled(w, a) && j < SLOT_COUNT
  {
    match View(w, a, j)
    case TaskOwn(pc, ev) => if Fits(w.slots[j], pc, ev) then TaskStep(w.slots[j], pc, ev).pc else pc
    case SuperviseOwn(_, _, _, created) => if created.Some? then Starting else PcOf(w, j)
    case _ => PcOf(w, j)
  }

  lemma TaskView(w: World, id: nat, ev: Event, j: nat)
    requires Enabled(w, TaskAct(id, ev)) && j < SLOT_COUNT
    ensures PcAfter(w, TaskAct(id, ev), j) == if w.tasks[id].slot == j then EffectOf(w, id, ev).pc else PcOf(w, j)
    ensures View(w, TaskAct(id, ev), j) == if w.tasks[id].slot == j then TaskOwn(w.tasks[id].pc, ev) else Nothing
  {
  }

  lemma PcOfTask(w: World, id: nat, ev: Event, j: nat)
    requires Inv(w) && Enabled(w, TaskAct(id, ev)) && j < SLOT_COUNT
    ensures |Land(w, id, EffectOf(w, id, ev)).slots| == SLOT_COUNT
    ensures PcOf(Land(w, id, EffectOf(w, id, ev)), j) ==
            if w.tasks[id].slot == j then EffectOf(w, id, ev).pc else PcOf(w, j)
    ensures w.tasks[id].slot == j ==> PcOf(w, j) == w.tasks[id].pc
  {
    var i := w.tasks[id].slot;
    assert PcOf(w, i) == w.tasks[id].pc && TaskAgrees(w.slots[i], PcOf(w, i));
    TaskStepFlags(w.slots[i], w.tasks[id].pc, ev);
    LandTasks(w, id, EffectOf(w, id, ev));
  }

  /** The supervisor's block on slot `i`, as far as tasks and handles go. */
  lemma PassMoves(w: World, config: bool, created: Option<nat>, i: nat)
    requires Inv(w) && Enabled(w, PassSlot(Some(config), created)) && i == |w.pass.configs|
    ensures var t := Supervise(w.slots[i], config, Qos.SafeMode(w.pass.heap), Admit(w.pass, config), created);
      var v := Supervised(w, i, t, created); var w' := Step(w, PassSlot(Some(config), created));
      && w'.slots == v.slots && w'.tasks == v.tasks
      && (created.Some? ==> w.slots[i].handle == None)
      && t.handle == (if created.Some? then created else w.slots[i].handle)
  {
  }

  lemma SamePc(v: World, w: World, j: nat)
    requires v.slots == w.slots && v.tasks == w.tasks && j < |v.slots|
    ensures PcOf(v, j) == PcOf(w, j)
  {
  }

  lemma PassView(w: World, config: bool, created: Option<nat>, j: nat)
    requires Enabled(w, PassSlot(Some(config), created)) && j < SLOT_COUNT
    ensures PcAfter(w, PassSlot(Some(config), created), j) ==
            if j == |w.pass.configs| && created.Some? then Starting else PcOf(w, j)
    ensures !View(w, PassSlot(Some(config), created), j).TaskOwn?
    ensures View(w, PassSlot(Some(config), created), j).SuperviseOwn? ==>
              j == |w.pass.configs| && View(w, PassSlot(Some(config), created), j).created == created
  {
  }

  lemma PcOfPass(w: World, config: bool, created: Option<nat>, j: nat)
    requires Inv(w) && Enabled(w, PassSlot(Some(config), created)) && j < SLOT_COUNT
    ensures |Step(w, PassSlot(Some(config), created)).slots| == SLOT_COUNT
    ensures PcOf(Step(w, PassSlot(Some(config), created)), j) == PcAfter(w, PassSlot(Some(config), created), j)
  {
    var i := |w.pass.configs|;
    PassMoves(w, config, created, i);
    PassView(w, config, created, j);
    var t := Supervise(w.slots[i], config, Qos.SafeMode(w.pass.heap), Admit(w.pass, config), created);
    SupervisedTasks(w, i, t, created);
    SamePc(Supervised(w, i, t, created), Step(w, PassSlot(Some(config), created)), j);
  }

  lemma ForeignHandle(s: Slot, l: Local)
    requires Applies(s, l) && !l.TaskOwn? && !l.SuperviseOwn?
    ensures React(s, l).handle == s.handle
  {
  }

  lemma OtherTasks(w: World, a: Action)
    requires Enabled(w, a) && !a.TaskAct? && !(a.PassSlot? && a.config.Some?)
    ensures Step(w, a).tasks == w.tasks
  {
  }

  lemma OtherView(w: World, a: Action, j: nat)
    requires Enabled(w, a) && j < SLOT_COUNT && !a.TaskAct? && !(a.PassSlot? && a.config.Some?)
    ensures !View(w, a, j).TaskOwn? && !View(w, a, j).SuperviseOwn?
  {
  }

  lemma PcMoves(w: World, a: Action, j: nat)
    requires Inv(w) && Enabled(w, a) && j < SLOT_COUNT
    ensures |Step(w, a).slots| == SLOT_COUNT && PcOf(Step(w, a), j) == PcAfter(w, a, j)
  {
    if a.TaskAct? {
      PcOfTask(w, a.id, a.ev, j);
      TaskView(w, a.id, a.ev, j);
    } else if a.PassSlot? && a.config.Some? {
      PcOfPass(w, a.config.value, a.created, j);
    } else {
      StepIsLocal(w, a, j);
      OtherView(w, a, j);
      ForeignHandle(w.slots[j], View(w, a, j));
      OtherTasks(w, a);
    }
  }

  /** A task acts from where it stands, and only a slot without one is given a task. */
  lemma ViewFits(w: World, a: Action, j: nat)
    requires Inv(w) && Enabled(w, a) && j < SLOT_COUNT
    ensures View(w, a, j).TaskOwn? ==> View(w, a, j).pc == PcOf(w, j)
    ensures View(w, a, j).SuperviseOwn? && View(w, a, j).created.Some? ==> PcOf(w, j) == Finished
  {
    if a.TaskAct? {
      PcOfTask(w, a.id, a.ev, j);
      TaskView(w, a.id, a.ev, j);
    } else if a.PassSlot? && a.config.Some? {
      PassMoves(w, a.config.value, a.created, |w.pass.configs|);
      PassView(w, a.config.value, a.created, j);
    }
  }

  lemma StepBalances(w: World, a: Action, j: nat)
    requires Inv(w) && Enabled(w, a) && j < SLOT_COUNT && Balances(w.slots[j], PcOf(w, j))
    ensures |Step(w, a).slots| == SLOT_COUNT && Balances(Step(w, a).slots[j], PcOf(Step(w, a), j))
  {
    StepIsLocal(w, a, j);
    PcMoves(w, a, j);
    ViewFits(w, a, j);
    var l := View(w, a, j);
    if l.TaskOwn? {
      TaskStepBalances(w.slots[j], l.pc, l.ev);
    } else {
      ForeignStep(w.slots[j], l);
      SameAccountsBalance(w.slots[j], React(w.slots[j], l), PcOf(w, j), PcAfter(w, a, j));
    }
  }

  lemma {:induction false} RunBalances(w: World, acts: seq<Action>, j: nat)
    requires Inv(w) && Legal(w, acts) && j < SLOT_COUNT && Balances(w.slots[j], PcOf(w, j))
    ensures |Exec(w, acts).slots| == SLOT_COUNT && Balances(Exec(w, acts).slots[j], PcOf(Exec(w, acts), j))
    decreases |acts|
  {
    if acts == [] {
    } else {
      StepKeeps(w, acts[0]);
      StepBalances(w, acts[0], j);
      RunBalances(Step(w, acts[0]), acts[1..], j);
    }
  }

  /**
   In every interleaving: what a slot's task took since it started is what it wrote, what it lost, and
   the block in its hands; and the byte and packet counters are what it wrote but for a block it is
   about to count.
   */
  lemma BytesAccounted(acts: seq<Action>, i: nat)
    requires Legal(Init(), acts) && i < SLOT_COUNT
    ensures |Exec(Init(), acts).slots| == SLOT_COUNT
    ensures var s := Exec(Init(), acts).slots[i]; var pc := PcOf(Exec(Init(), acts), i);
      && s.ledger.taken == s.ledger.written + s.ledger.lost + (if pc.Writing? then |pc.data| else 0)
      && s.bytesSent == s.ledger.written - (if pc.NoteSend? then pc.length else 0)
      && s.packetsSent == s.ledger.blocks - (if pc.NoteSend? then 1 else 0)
  {
    RunFromInit(acts, i);
  }

  lemma InitBalances(w: World, i: nat)
    requires w == Init() && i < SLOT_COUNT
    ensures Balances(w.slots[i], PcOf(w, i))
  {
    assert w.slots[i] == FRESH_SLOT;
  }

  lemma RunFromInit(acts: seq<Action>, i: nat)
    requires Legal(Init(), acts) && i < SLOT_COUNT
    ensures |Exec(Init(), acts).slots| == SLOT_COUNT && Balances(Exec(Init(), acts).slots[i], PcOf(Exec(Init(), acts), i))
  {
    InitInv();
    InitBalances(Init(), i);
    RunBalances(Init(), acts, i);
  }

  /**
   In every interleaving: what the connection was sent is what was taken for it, in order, with gaps; and
   without a gap, up to the block in hand, if and only if nothing was lost on it. What was taken for it
   is what left the buffer, as far as neither was emptied since.
   */
  lemma ConnectionGets(acts: seq<Action>, i: nat)
    requires Legal(Init(), acts) && i < SLOT_COUNT
    ensures |Exec(Init(), acts).slots| == SLOT_COUNT
    ensures var s := Exec(Init(), acts).slots[i]; var hand := InHand(PcOf(Exec(Init(), acts), i));
      && Drawn(s.ledger.outbound + hand, s.ledger.inbound)
      && (s.ledger.inbound == s.ledger.outbound + hand <==> s.ledger.missed == 0)
      && SameEnd(s.stream.received, s.ledger.inbound)
  {
    RunFromInit(acts, i);
  }

  /** A write to the network that falls short: the rest of the block is gone, and only what was written is counted. */
  lemma ShortWriteLoses(s: Slot, data: seq<byte>, n: nat)
    requires s.mock == NoMock && s.sock.fd >= 0 && n < |data| && Balances(s, Writing(data)) && s.ledger.missed == 0
    ensures Fits(s, Writing(data), Wrote(n))
    ensures var e := TaskStep(s, Writing(data), Wrote(n));
      && e.pc == NoteSend(n) && e.slot.ledger.missed == |data| - n
      && e.slot.ledger.outbound == s.ledger.outbound + data[..n] && e.slot.ledger.inbound == s.ledger.outbound + data
  {
  }
}
