/**
 Whose socket a slot's request goes out on. The task writes the request and reads the reply on its
 own copy of the descriptor (main/ntrip_runtime.c, ntrip_runtime_connect_and_auth), while a command
 may close the descriptor and another slot may be given the same number.
 */
module SlotRequests {
  import opened Wrappers
  import opened SlotModel
  import opened SlotProtocol
  import opened SlotTheorems
  import Qos

  /** Task `id` of slot `i` keeps a copy of `fd`. */
  predicate Keeping(w: World, id: nat, i: nat, fd: int) {
    id in w.tasks && w.tasks[id].slot == i && Keeps(w.tasks[id].pc) && w.tasks[id].pc.fd == fd
  }

  predicate KeepsThroughout(w: World, acts: seq<Action>, id: nat, i: nat, fd: int)
    requires Legal(w, acts)
    decreases |acts|
  {
    Keeping(w, id, i, fd) && (acts == [] || KeepsThroughout(Step(w, acts[0]), acts[1..], id, i, fd))
  }

  /** The step closes whatever descriptor slot `i` holds: it is disabled, its mock changed, or it is restarted. */
  predicate Cuts(w: World, a: Action, i: nat) {
    match a
    case EnableSlot(j, enabled) => j == i && !enabled
    case SetMockMode(j, _) => j == i
    case LockNext(_) => w.lock.Restart? && w.lock.next == i
    case _ => false
  }

  predicate IsCut(w: World, acts: seq<Action>, i: nat)
    requires Legal(w, acts)
    decreases |acts|
  {
    acts != [] && (Cuts(w, acts[0], i) || IsCut(Step(w, acts[0]), acts[1..], i))
  }

  /** The same by its effect on the slot's own record. */
  predicate Closes(l: Local) { l.RestartOwn? || l.MockOwn? || l == EnableOwn(false) }

  lemma CutsIsLocal(w: World, a: Action, i: nat)
    requires Enabled(w, a) && i < SLOT_COUNT
    ensures Closes(View(w, a, i)) <==> Cuts(w, a, i)
  {
  }

  lemma KeeperHolds(s: Slot, pc: Pc, ev: Event)
    requires Keeps(pc) && Fits(s, pc, ev)
    ensures TaskStep(s, pc, ev).slot.sock == s.sock
  {
  }

  lemma LocalHolds(s: Slot, l: Local)
    requires Applies(s, l) && s.sock.fd >= -1 && (l.TaskOwn? ==> Keeps(l.pc))
    ensures React(s, l).sock.fd == if Closes(l) then -1 else s.sock.fd
  {
    if l.TaskOwn? {
      KeeperHolds(s, l.pc, l.ev);
    }
  }

  /** While the task keeps its copy, only those steps change what the slot holds. */
  lemma StepHolds(w: World, a: Action, id: nat, i: nat, fd: int)
    requires Inv(w) && Enabled(w, a) && i < SLOT_COUNT && Keeping(w, id, i, fd)
    ensures |Step(w, a).slots| == SLOT_COUNT
    ensures Step(w, a).slots[i].sock.fd == if Cuts(w, a, i) then -1 else w.slots[i].sock.fd
  {
    KeptDescriptor(w, id, i, fd);
    StepIsLocal(w, a, i);
    CutsIsLocal(w, a, i);
    assert a.TaskAct? && w.tasks[a.id].slot == i ==> a.id == id;
    LocalHolds(w.slots[i], View(w, a, i));
  }

  /** What the slot holds is the copy or nothing, and it is open for that slot iff it holds it. */
  lemma KeptDescriptor(w: World, id: nat, i: nat, fd: int)
    requires Inv(w) && i < SLOT_COUNT && Keeping(w, id, i, fd)
    ensures fd >= 0 && (w.slots[i].sock.fd == fd || w.slots[i].sock.fd == -1)
    ensures fd in OpenOf(w, i) <==> w.slots[i].sock.fd == fd
  {
    assert PcOf(w, i) == w.tasks[id].pc && TaskAgrees(w.slots[i], PcOf(w, i));
    assert OpenOf(w, i) == Owned(w.slots[i], PcOf(w, i));
  }

  lemma {:induction false} HeldUnlessCut(w: World, acts: seq<Action>, id: nat, i: nat, fd: int)
    requires Inv(w) && Legal(w, acts) && i < SLOT_COUNT && KeepsThroughout(w, acts, id, i, fd)
    ensures Inv(Exec(w, acts)) && Keeping(Exec(w, acts), id, i, fd)
    ensures Exec(w, acts).slots[i].sock.fd == if IsCut(w, acts, i) then -1 else w.slots[i].sock.fd
    decreases |acts|
  {
    if acts == [] {
    } else {
      StepKeeps(w, acts[0]);
      StepHolds(w, acts[0], id, i, fd);
      HeldUnlessCut(Step(w, acts[0]), acts[1..], id, i, fd);
    }
  }

  lemma StoresDescriptor(w: World, id: nat, i: nat, fd: int)
    requires i < SLOT_COUNT && id in w.tasks && w.tasks[id] == Task(i, Dialed(fd)) && Enabled(w, TaskAct(id, Go))
    ensures |Step(w, TaskAct(id, Go)).slots| == SLOT_COUNT && Step(w, TaskAct(id, Go)).slots[i].sock.fd == fd
  {
    StepIsLocal(w, TaskAct(id, Go), i);
  }

  /**
   In every interleaving, from the moment the task stores its new descriptor and as long as it keeps
   the copy for the request and the reply: the copy is a descriptor its slot has open if and only if
   no command disabled, mocked or restarted the slot meanwhile.
   */
  lemma OwnSocketUnlessCut(before: seq<Action>, id: nat, i: nat, fd: int, acts: seq<Action>)
    requires Legal(Init(), before) && i < SLOT_COUNT
    requires var w := Exec(Init(), before);
      id in w.tasks && w.tasks[id] == Task(i, Dialed(fd)) && Enabled(w, TaskAct(id, Go))
    requires var u := Step(Exec(Init(), before), TaskAct(id, Go)); Legal(u, acts) && KeepsThroughout(u, acts, id, i, fd)
    ensures var u := Step(Exec(Init(), before), TaskAct(id, Go));
      fd in OpenOf(Exec(u, acts), i) <==> !IsCut(u, acts, i)
  {
    var w := Exec(Init(), before);
    var u := Step(w, TaskAct(id, Go));
    InitInv();
    RunKeeps(Init(), before);
    StepKeeps(w, TaskAct(id, Go));
    StoresDescriptor(w, id, i, fd);
    KeptDescriptor(u, id, i, fd);
    HeldUnlessCut(u, acts, id, i, fd);
    KeptDescriptor(Exec(u, acts), id, i, fd);
  }

  // ---- When it is cut -------------------------------------------------------------------------

  /**
   Two steps are enough for the request to go out on another slot's socket: the slot is disabled when
   its task is about to write, and a dialing task of another slot is given the same number.
   */
  lemma CutMisdirects(w: World, id: nat, i: nat, fd: int, other: nat, j: nat) returns (acts: seq<Action>)
    requires Inv(w) && w.lock.Free? && i < SLOT_COUNT && j < SLOT_COUNT && i != j
    requires id in w.tasks && w.tasks[id] == Task(i, SendRequest(fd)) && w.slots[i].sock.fd == fd
    requires other in w.tasks && w.tasks[other] == Task(j, Dialing)
    ensures Legal(w, acts) && IsCut(w, acts, i)
    ensures var w' := Exec(w, acts);
      && id in w'.tasks && w'.tasks[id] == Task(i, SendRequest(fd)) && Enabled(w', TaskAct(id, Wrote(0)))
      && fd in OpenOf(w', j) && fd !in OpenOf(w', i)
  {
    var cut, dial := EnableSlot(i, false), TaskAct(other, DialGives(fd));
    acts := [cut, dial];
    var w' := CutThenDial(w, id, i, fd, other, j);
    CutFirst(w, cut, dial, i);
    SendsElsewhere(w', id, i, fd, j);
  }

  lemma CutThenDial(w: World, id: nat, i: nat, fd: int, other: nat, j: nat) returns (w': World)
    requires Inv(w) && w.lock.Free? && i < SLOT_COUNT && j < SLOT_COUNT && i != j
    requires id in w.tasks && w.tasks[id] == Task(i, SendRequest(fd)) && w.slots[i].sock.fd == fd
    requires other in w.tasks && w.tasks[other] == Task(j, Dialing)
    ensures Enabled(w, EnableSlot(i, false)) && Enabled(Step(w, EnableSlot(i, false)), TaskAct(other, DialGives(fd)))
    ensures w' == Step(Step(w, EnableSlot(i, false)), TaskAct(other, DialGives(fd)))
    ensures |w'.slots| == SLOT_COUNT && id in w'.tasks && w'.tasks[id] == w.tasks[id]
    ensures fd in w'.open && w'.open[fd] == j
  {
    CutFrees(w, id, i, fd);
    DialTakes(Step(w, EnableSlot(i, false)), other, j, fd);
    w' := Step(Step(w, EnableSlot(i, false)), TaskAct(other, DialGives(fd)));
  }

  lemma CutFirst(w: World, cut: Action, dial: Action, i: nat)
    requires Enabled(w, cut) && Enabled(Step(w, cut), dial) && Cuts(w, cut, i)
    ensures Legal(w, [cut, dial]) && IsCut(w, [cut, dial], i) && Exec(w, [cut, dial]) == Step(Step(w, cut), dial)
  {
    assert [cut, dial][1..] == [dial] && [dial][1..] == [];
    var u := Step(w, cut);
    assert Legal(u, [dial]) && Exec(u, [dial]) == Exec(Step(u, dial), []);
  }

  lemma SendsElsewhere(w: World, id: nat, i: nat, fd: int, j: nat)
    requires |w.slots| == SLOT_COUNT && i < SLOT_COUNT && i != j
    requires id in w.tasks && w.tasks[id] == Task(i, SendRequest(fd)) && fd in w.open && w.open[fd] == j
    ensures Enabled(w, TaskAct(id, Wrote(0))) && fd in OpenOf(w, j) && fd !in OpenOf(w, i)
  {
  }

  lemma CutFrees(w: World, id: nat, i: nat, fd: int)
    requires Inv(w) && w.lock.Free? && i < SLOT_COUNT && Keeping(w, id, i, fd) && w.slots[i].sock.fd == fd
    ensures var u := Step(w, EnableSlot(i, false));
      |u.slots| == SLOT_COUNT && u.tasks == w.tasks && u.lock == w.lock && fd >= 0 && fd !in u.open
  {
    KeptDescriptor(w, id, i, fd);
    assert w.open[fd] == i;
  }

  lemma DialTakes(u: World, other: nat, j: nat, fd: int)
    requires |u.slots| == SLOT_COUNT && u.lock.Free? && j < SLOT_COUNT && fd >= 0 && fd !in u.open
    requires other in u.tasks && u.tasks[other] == Task(j, Dialing)
    ensures Enabled(u, TaskAct(other, DialGives(fd)))
    ensures var w' := Step(u, TaskAct(other, DialGives(fd)));
      && |w'.slots| == SLOT_COUNT && w'.lock == u.lock && w'.open == u.open[fd := j]
      && w'.tasks == u.tasks[other := Task(j, Dialed(fd))]
  {
  }

  // ---- Such a state is reached ------------------------------------------------------------------

  /** Slots 0 and 1 with their tasks 0 and 1 in the middle of a pass; the other slots have not been looked at. */
  function Two(s: Slot, pc: Pc, t: Slot, next: Pc, open: map<int, nat>, pass: Pass): World {
    World([s, t] + seq(SLOT_COUNT - 2, _ => FRESH_SLOT), map[0 := Task(0, pc), 1 := Task(1, next)], open, 0, Free,
          pass, Qos.InitMonitor(), 0, [])
  }

  ghost predicate Reachable(w: World) {
    exists acts :: Legal(Init(), acts) && Exec(Init(), acts) == w
  }

  lemma {:induction false} ExecSnoc(w: World, acts: seq<Action>, a: Action)
    requires Legal(w, acts) && Enabled(Exec(w, acts), a)
    ensures Legal(w, acts + [a]) && Exec(w, acts + [a]) == Step(Exec(w, acts), a)
    decreases |acts|
  {
    if acts == [] {
      assert acts + [a] == [a] && [a][1..] == [];
    } else {
      assert (acts + [a])[1..] == acts[1..] + [a];
      ExecSnoc(Step(w, acts[0]), acts[1..], a);
    }
  }

  lemma ReachesNext(w: World, a: Action)
    requires Reachable(w) && Enabled(w, a)
    ensures Reachable(Step(w, a))
  {
    var acts :| Legal(Init(), acts) && Exec(Init(), acts) == w;
    ExecSnoc(Init(), acts, a);
  }

  lemma ReachableInv(w: World)
    requires Reachable(w)
    ensures Inv(w)
  {
    var acts :| Legal(Init(), acts) && Exec(Init(), acts) == w;
    InitInv();
    RunKeeps(Init(), acts);
  }

  lemma {:induction false} ReachesAll(w: World, acts: seq<Action>)
    requires Reachable(w) && Legal(w, acts)
    ensures Reachable(Exec(w, acts))
    decreases |acts|
  {
    if acts == [] {
    } else {
      ReachesNext(w, acts[0]);
      ReachesAll(Step(w, acts[0]), acts[1..]);
    }
  }

  /** Task 0 takes a step that closes nothing. */
  lemma TaskZero(s: Slot, pc: Pc, ev: Event, t: Slot, next: Pc, open: map<int, nat>, pass: Pass)
    requires Reachable(Two(s, pc, t, next, open, pass)) && Fits(s, pc, ev) && (ev.DialGives? ==> ev.fd !in open)
    requires TaskStep(s, pc, ev).closes == -1 && TaskStep(s, pc, ev).pc != Finished
    ensures var e := TaskStep(s, pc, ev);
      Reachable(Two(e.slot, e.pc, t, next, if e.opens < 0 then open else open[e.opens := 0], pass))
  {
    ReachesNext(Two(s, pc, t, next, open, pass), TaskAct(0, ev));
    LandZero(s, pc, TaskStep(s, pc, ev), t, next, open, pass);
  }

  lemma LandZero(s: Slot, pc: Pc, e: Effect, t: Slot, next: Pc, open: map<int, nat>, pass: Pass)
    requires e.closes == -1 && e.pc != Finished
    ensures Land(Two(s, pc, t, next, open, pass), 0, e) ==
            Two(e.slot, e.pc, t, next, if e.opens < 0 then open else open[e.opens := 0], pass)
  {
    assert ([s, t] + seq(SLOT_COUNT - 2, _ => FRESH_SLOT))[0 := e.slot] ==
           [e.slot, t] + seq(SLOT_COUNT - 2, _ => FRESH_SLOT);
  }

  /** So does task 1. */
  lemma TaskOne(s: Slot, pc: Pc, t: Slot, next: Pc, ev: Event, open: map<int, nat>, pass: Pass)
    requires Reachable(Two(s, pc, t, next, open, pass)) && Fits(t, next, ev) && !ev.DialGives?
    requires TaskStep(t, next, ev).closes == -1 == TaskStep(t, next, ev).opens && TaskStep(t, next, ev).pc != Finished
    ensures var e := TaskStep(t, next, ev); Reachable(Two(s, pc, e.slot, e.pc, open, pass))
  {
    ReachesNext(Two(s, pc, t, next, open, pass), TaskAct(1, ev));
    LandOne(s, pc, t, next, TaskStep(t, next, ev), open, pass);
  }

  lemma LandOne(s: Slot, pc: Pc, t: Slot, next: Pc, e: Effect, open: map<int, nat>, pass: Pass)
    requires e.closes == -1 == e.opens && e.pc != Finished
    ensures Land(Two(s, pc, t, next, open, pass), 1, e) == Two(s, pc, e.slot, e.pc, open, pass)
  {
    assert ([s, t] + seq(SLOT_COUNT - 2, _ => FRESH_SLOT))[1 := e.slot] ==
           [s, e.slot] + seq(SLOT_COUNT - 2, _ => FRESH_SLOT);
  }

  // The positions of a task up to its request, and the slot's record there.

  /** What the supervisor's block makes of a fresh slot it admits. */
  function Wanted(id: nat): Slot { FRESH_SLOT.(shouldRun := true, handle := Some(id)) }

  function Started(id: nat): Slot { Wanted(id).(taskRunning := true, state := Disconnected) }

  function Connects(id: nat): Slot { Started(id).(state := Connecting) }

  function Connected(id: nat): Slot { Connects(id).(state := Authenticating, sock := Socket(3, 1, 0)) }

  lemma ZeroDials(t: Slot, next: Pc, pass: Pass)
    requires Reachable(Two(Wanted(0), Starting, t, next, map[], pass))
    ensures Reachable(Two(Connects(0), Dialing, t, next, map[], pass))
  {
    TaskZero(Wanted(0), Starting, Go, t, next, map[], pass);
    TaskZero(Started(0), TopCheck, Go, t, next, map[], pass);
    TaskZero(Started(0), ReadConfig, ConfigRead(true), t, next, map[], pass);
    TaskZero(Started(0), ChooseRoute, Go, t, next, map[], pass);
    TaskZero(Started(0), AnnounceConnect(false), Go, t, next, map[], pass);
  }

  lemma ZeroConnects(t: Slot, next: Pc, pass: Pass)
    requires Reachable(Two(Connects(0), Dialing, t, next, map[], pass))
    ensures Reachable(Two(Connected(0), SendRequest(3), t, next, map[3 := 0], pass))
  {
    var dialed := Connects(0).(sock := Socket(-1, 1, 0));
    var stored := Connects(0).(sock := Socket(3, 1, 0));
    TaskZero(Connects(0), Dialing, DialGives(3), t, next, map[], pass);
    assert map[][3 := 0] == map[3 := 0];
    TaskZero(dialed, Dialed(3), Go, t, next, map[3 := 0], pass);
    TaskZero(stored, AnnounceAuth(3), Go, t, next, map[3 := 0], pass);
  }

  lemma OneDials(s: Slot, pc: Pc, open: map<int, nat>, pass: Pass)
    requires Reachable(Two(s, pc, Wanted(1), Starting, open, pass))
    ensures Reachable(Two(s, pc, Connects(1), Dialing, open, pass))
  {
    TaskOne(s, pc, Wanted(1), Starting, Go, open, pass);
    TaskOne(s, pc, Started(1), TopCheck, Go, open, pass);
    TaskOne(s, pc, Started(1), ReadConfig, ConfigRead(true), open, pass);
    TaskOne(s, pc, Started(1), ChooseRoute, Go, open, pass);
    TaskOne(s, pc, Started(1), AnnounceConnect(false), Go, open, pass);
  }

  const PLENTY: nat := Qos.HEAP_DEGRADED

  function AfterNone(): Pass { Passing(PLENTY, 0, 2, [], 0, 0, 0, 0, 0) }

  function AfterOne(): Pass { Passing(PLENTY, 0, 2, [Some(true)], 1, 0, 0, 0, 0) }

  function AfterTwo(): Pass { Passing(PLENTY, 0, 2, [Some(true), Some(true)], 2, 0, 0, 0, 0) }

  /** Slot 0 has been given its task, and slot 1 has not been looked at. */
  function One(): World {
    World([Wanted(0)] + seq(SLOT_COUNT - 1, _ => FRESH_SLOT), map[0 := Task(0, Starting)], map[], 0, Free, AfterOne(),
          Qos.InitMonitor(), 0, [])
  }

  /** A pass that admits the next slot, which is fresh, creates its task. */
  lemma PassAdmits(w: World, i: nat, id: nat)
    requires |w.slots| == SLOT_COUNT && w.lock.Free? && w.pass.Passing? && i == |w.pass.configs| < SLOT_COUNT
    requires w.pass.heap == PLENTY && w.pass.allowed < w.pass.maxSlots && id !in w.tasks && w.slots[i] == FRESH_SLOT
    ensures Enabled(w, PassSlot(Some(true), Some(id)))
    ensures Step(w, PassSlot(Some(true), Some(id))) ==
            Supervised(w, i, Wanted(id), Some(id)).(pass := Tally(w.pass, true, Wanted(id)))
  {
    assert Supervise(FRESH_SLOT, true, false, true, Some(id)) == Wanted(id);
  }

  lemma Tallies(id: nat)
    ensures Tally(AfterNone(), true, Wanted(id)) == AfterOne() && Tally(AfterOne(), true, Wanted(id)) == AfterTwo()
  {
    assert [] + [Some(true)] == [Some(true)] && [Some(true)] + [Some(true)] == [Some(true), Some(true)];
  }

  lemma StartsOne()
    ensures Reachable(One())
  {
    assert Legal(Init(), []) && Exec(Init(), []) == Init();
    ReachesNext(Init(), PassStart(PLENTY, 0, 2));
    var w := Init().(pass := AfterNone());
    assert Step(Init(), PassStart(PLENTY, 0, 2)) == w;
    PassAdmits(w, 0, 0);
    ReachesNext(w, PassSlot(Some(true), Some(0)));
    Tallies(0);
    SupervisedOne(w);
  }

  lemma SupervisedOne(w: World)
    requires w == Init().(pass := AfterNone())
    ensures Supervised(w, 0, Wanted(0), Some(0)).(pass := AfterOne()) == One()
  {
    assert seq(SLOT_COUNT, _ => FRESH_SLOT)[0 := Wanted(0)] == [Wanted(0)] + seq(SLOT_COUNT - 1, _ => FRESH_SLOT);
    assert map[][0 := Task(0, Starting)] == map[0 := Task(0, Starting)];
  }

  lemma StartsTwo()
    ensures Reachable(Two(Wanted(0), Starting, Wanted(1), Starting, map[], AfterTwo()))
  {
    StartsOne();
    PassAdmits(One(), 1, 1);
    ReachesNext(One(), PassSlot(Some(true), Some(1)));
    Tallies(1);
    SupervisedTwo();
  }

  lemma SupervisedTwo()
    ensures Supervised(One(), 1, Wanted(1), Some(1)).(pass := AfterTwo()) ==
            Two(Wanted(0), Starting, Wanted(1), Starting, map[], AfterTwo())
  {
    assert ([Wanted(0)] + seq(SLOT_COUNT - 1, _ => FRESH_SLOT))[1 := Wanted(1)] ==
           [Wanted(0), Wanted(1)] + seq(SLOT_COUNT - 2, _ => FRESH_SLOT);
    assert map[0 := Task(0, Starting)][1 := Task(1, Starting)] == map[0 := Task(0, Starting), 1 := Task(1, Starting)];
  }

  /** Both slots are enabled, task 0 has connected, and task 1 is dialing. */
  lemma BothUnderWay() returns (w: World)
    ensures w == Two(Connected(0), SendRequest(3), Connects(1), Dialing, map[3 := 0], AfterTwo()) && Reachable(w)
  {
    StartsTwo();
    OneDials(Wanted(0), Starting, map[], AfterTwo());
    ZeroDials(Connects(1), Dialing, AfterTwo());
    ZeroConnects(Connects(1), Dialing, AfterTwo());
    w := Two(Connected(0), SendRequest(3), Connects(1), Dialing, map[3 := 0], AfterTwo());
  }

  /**
   A run in which slot 0 is about to write its request on descriptor 3, and descriptor 3
   is slot 1's connection.
   */
  lemma RequestOnOtherSocket() returns (acts: seq<Action>)
    ensures Legal(Init(), acts)
    ensures var w := Exec(Init(), acts);
      && 0 in w.tasks && w.tasks[0] == Task(0, SendRequest(3)) && Enabled(w, TaskAct(0, Wrote(0)))
      && 3 in OpenOf(w, 1) && 3 !in OpenOf(w, 0)
  {
    var w := BothUnderWay();
    ReachableInv(w);
    var more := CutMisdirects(w, 0, 0, 3, 1, 1);
    ReachesAll(w, more);
    acts :| Legal(Init(), acts) && Exec(Init(), acts) == Exec(w, more);
  }
}
