/**
 The locked loops of main/ntrip_runtime.c over the slot array, as the code runs them when nothing
 interferes: the RTCM fanout, the runtime restart, and one supervisor pass. Each is tied to the
 protocol by a run of its steps with the same outcome.
 */
module SlotRuntime {
  import opened Wrappers
  import opened Numbers
  import opened Bytes
  import opened SlotModel
  import opened SlotProtocol
  import opened SlotTheorems
  import Qos

  /** What a whole fanout does to one slot. */
  function FanOne(s: Slot, chunk: seq<byte>): Slot
    requires |s.stream.buffer| <= RTCM_BUFFER_SIZE
  {
    if !s.taskRunning then s
    else NoteSent(s.(stream := SendChunk(s.stream, chunk)), Taken(s.stream, |chunk|) < |chunk|)
  }

  /**
   A running slot has the chunk stored as far as it fits, a drop counted if it did not, and its high-water
   mark raised to the fill level; another slot is left alone.
   */
  predicate Served(s: Slot, chunk: seq<byte>, t: Slot) {
    if !s.taskRunning then t == s
    else
      && Stored(s.stream.buffer, chunk, t.stream.buffer)
      && t.stream.dropped == s.stream.dropped + (if |s.stream.buffer| + |chunk| > 2048 then 1 else 0)
      && t.stream.highWater == Max(s.stream.highWater, |t.stream.buffer|)
      && t.stale == (s.stale || |s.stream.buffer| + |chunk| > 2048)
      && t.stream.received == s.stream.received
      && t == s.(stale := t.stale, hasError := t.hasError, stream := t.stream)
  }

  lemma FanOneServes(s: Slot, chunk: seq<byte>)
    requires |s.stream.buffer| <= RTCM_BUFFER_SIZE
    ensures Served(s, chunk, FanOne(s, chunk))
  {
  }

  predicate BuffersFit(slots: seq<Slot>) {
    |slots| == SLOT_COUNT && forall i | 0 <= i < |slots| :: |slots[i].stream.buffer| <= RTCM_BUFFER_SIZE
  }

  /** The supervisor's decisions for the slots before `n`, and the pass totals behind them. */
  function Decide(slots: seq<Slot>, configs: seq<Option<bool>>, created: seq<Option<nat>>, heap: nat, sockets: nat,
                  maxSlots: nat, n: nat): (seq<Slot>, Pass)
    requires |slots| == |configs| == |created| == SLOT_COUNT && n <= SLOT_COUNT
    ensures var (s, p) := Decide(slots, configs, created, heap, sockets, maxSlots, n);
            && |s| == SLOT_COUNT && s[n..] == slots[n..]
            && p.Passing? && p.configs == configs[..n] && p.heap == heap && p.maxSlots == maxSlots && p.sockets == sockets
  {
    if n == 0 then (slots, Passing(heap, sockets, maxSlots, [], 0, 0, 0, 0, 0))
    else
      var (s, p) := Decide(slots, configs, created, heap, sockets, maxSlots, n - 1);
      var c := configs[n - 1];
      assert configs[..n] == configs[..n - 1] + [c];
      if c.None? then (s, p.(configs := p.configs + [c]))
      else
        var t := Supervise(s[n - 1], c.value, Qos.SafeMode(heap), Admit(p, c.value), created[n - 1]);
        (s[n - 1 := t], Tally(p, c.value, t))
  }

  /** Told to stop, shown as disconnected, its descriptor closed and its buffer emptied if that worked. */
  predicate RestartedAs(s: Slot, resetOk: bool, t: Slot) {
    && t.stopRequested && t.state == Disconnected && t.sock.fd < 0
    && t.sock.closes == s.sock.closes + (if s.sock.fd >= 0 then 1 else 0)
    && t.stream.buffer == (if resetOk then [] else s.stream.buffer)
    && t.stream.dropped == s.stream.dropped && t.stream.highWater == s.stream.highWater
    && t == s.(stopRequested := true, state := Disconnected, sock := t.sock, stream := t.stream)
  }

  /** What a pass makes of one slot with a readable configuration. */
  predicate Decided(s: Slot, enabled: bool, safeMode: bool, admitted: bool, created: Option<nat>, t: Slot) {
    && t.shouldRun == admitted
    && t.stream == s.stream.(highWater := Max(s.stream.highWater, |s.stream.buffer|))
    && t == s.(shouldRun := t.shouldRun, stopRequested := t.stopRequested, state := t.state, hasError := t.hasError,
               handle := t.handle, stream := t.stream)
    && t.hasError == (s.hasError || (enabled && safeMode))
    && (if !admitted then
          t.stopRequested && t.handle == s.handle && t.state == (if enabled then HardwareLimited else Disabled)
        else if s.taskRunning || s.handle.Some? then
          t.stopRequested == s.stopRequested && t.handle == s.handle && t.state == s.state
        else !t.stopRequested && t.handle == created && t.state == s.state)
  }

  lemma SuperviseDecides(s: Slot, enabled: bool, safeMode: bool, admitted: bool, created: Option<nat>)
    requires admitted ==> enabled && !safeMode
    ensures Decided(s, enabled, safeMode, admitted, created, Supervise(s, enabled, safeMode, admitted, created))
  {
  }

  /** The drops and the running tasks of the first `n` slots as far as their configurations were read. */
  function DropsOf(slots: seq<Slot>, configs: seq<Option<bool>>, n: nat): nat
    requires n <= |slots| == |configs|
  {
    if n == 0 then 0
    else DropsOf(slots, configs, n - 1) + if configs[n - 1].Some? then slots[n - 1].stream.dropped else 0
  }

  function RunningOf(slots: seq<Slot>, configs: seq<Option<bool>>, n: nat): nat
    requires n <= |slots| == |configs|
  {
    if n == 0 then 0
    else RunningOf(slots, configs, n - 1) + if configs[n - 1].Some? && slots[n - 1].taskRunning then 1 else 0
  }

  /** `used` is the fullest of those slots' buffers, and `high` their highest mark, this pass included. */
  predicate Fullest(slots: seq<Slot>, configs: seq<Option<bool>>, n: nat, used: nat, high: nat)
    requires n <= |slots| == |configs|
  {
    && (forall i | 0 <= i < n && configs[i].Some? :: |slots[i].stream.buffer| <= used)
    && (forall i | 0 <= i < n && configs[i].Some? :: Max(slots[i].stream.highWater, |slots[i].stream.buffer|) <= high)
    && (used == 0 || exists i :: 0 <= i < n && configs[i].Some? && |slots[i].stream.buffer| == used)
    && (high == 0 || exists i :: 0 <= i < n && configs[i].Some? &&
                       Max(slots[i].stream.highWater, |slots[i].stream.buffer|) == high)
  }

  /** The totals of a pass over the first `n` slots that nothing interferes with. */
  predicate TotalsOf(slots: seq<Slot>, configs: seq<Option<bool>>, maxSlots: nat, n: nat, p: Pass)
    requires n <= |slots| == |configs|
  {
    && p.Passing? && p.totalDropped == DropsOf(slots, configs, n) && p.active == RunningOf(slots, configs, n)
    && Fullest(slots, configs, n, p.maxUsed, p.maxHigh)
    && p.maxSlots == maxSlots && p.allowed == Min(maxSlots, EnabledCount(configs[..n]))
  }

  lemma TotalsMore(slots: seq<Slot>, configs: seq<Option<bool>>, maxSlots: nat, n: nat, p: Pass, t: Slot)
    requires 0 < n <= |slots| == |configs| && configs[n - 1].Some? && TotalsOf(slots, configs, maxSlots, n - 1, p)
    requires t.stream == slots[n - 1].stream.(highWater := Max(slots[n - 1].stream.highWater, |slots[n - 1].stream.buffer|))
    requires t.taskRunning == slots[n - 1].taskRunning
    ensures TotalsOf(slots, configs, maxSlots, n, Tally(p, configs[n - 1].value, t))
  {
    EnabledCountMore(configs, n);
    FullestMore(slots, configs, n, p, t);
  }

  lemma TotalsSame(slots: seq<Slot>, configs: seq<Option<bool>>, maxSlots: nat, n: nat, p: Pass)
    requires 0 < n <= |slots| == |configs| && configs[n - 1].None? && TotalsOf(slots, configs, maxSlots, n - 1, p)
    ensures TotalsOf(slots, configs, maxSlots, n, p.(configs := p.configs + [None]))
  {
    EnabledCountMore(configs, n);
    FullestSame(slots, configs, n, p);
  }

  lemma {:induction false} DecideTotals(slots: seq<Slot>, configs: seq<Option<bool>>, created: seq<Option<nat>>,
                                        heap: nat, sockets: nat, maxSlots: nat, n: nat)
    requires |slots| == |configs| == |created| == SLOT_COUNT && n <= SLOT_COUNT
    ensures TotalsOf(slots, configs, maxSlots, n, Decide(slots, configs, created, heap, sockets, maxSlots, n).1)
  {
    if n == 0 {
    } else {
      DecideTotals(slots, configs, created, heap, sockets, maxSlots, n - 1);
      var (s, p) := Decide(slots, configs, created, heap, sockets, maxSlots, n - 1);
      var c := configs[n - 1];
      assert s[n - 1] == s[n - 1..][0] == slots[n - 1..][0] == slots[n - 1];
      if c.Some? {
        var admitted := Admit(p, c.value);
        SuperviseDecides(slots[n - 1], c.value, Qos.SafeMode(heap), admitted, created[n - 1]);
        TotalsMore(slots, configs, maxSlots, n, p, Supervise(slots[n - 1], c.value, Qos.SafeMode(heap), admitted, created[n - 1]));
      } else {
        TotalsSame(slots, configs, maxSlots, n, p);
      }
    }
  }

  lemma FullestMore(slots: seq<Slot>, configs: seq<Option<bool>>, n: nat, p: Pass, t: Slot)
    requires 0 < n <= |slots| == |configs| && configs[n - 1].Some? && p.Passing?
    requires Fullest(slots, configs, n - 1, p.maxUsed, p.maxHigh)
    requires t.stream == slots[n - 1].stream.(highWater := Max(slots[n - 1].stream.highWater, |slots[n - 1].stream.buffer|))
    ensures Fullest(slots, configs, n, Max(p.maxUsed, |t.stream.buffer|), Max(p.maxHigh, t.stream.highWater))
  {
  }

  lemma FullestSame(slots: seq<Slot>, configs: seq<Option<bool>>, n: nat, p: Pass)
    requires 0 < n <= |slots| == |configs| && configs[n - 1].None? && p.Passing?
    requires Fullest(slots, configs, n - 1, p.maxUsed, p.maxHigh)
    ensures Fullest(slots, configs, n, p.maxUsed, p.maxHigh)
  {
  }

  /** Each slot is decided by the admission rule, and one whose configuration cannot be read is left alone. */
  lemma {:induction false} DecideSlots(slots: seq<Slot>, configs: seq<Option<bool>>, created: seq<Option<nat>>,
                                       heap: nat, sockets: nat, maxSlots: nat, n: nat, i: nat)
    requires |slots| == |configs| == |created| == SLOT_COUNT && i < n <= SLOT_COUNT
    ensures var t := Decide(slots, configs, created, heap, sockets, maxSlots, n).0[i];
      if configs[i].None? then t == slots[i]
      else Decided(slots[i], configs[i].value, Qos.SafeMode(heap), Admissible(configs, i, heap, maxSlots), created[i], t)
  {
    if i < n - 1 {
      DecideSlots(slots, configs, created, heap, sockets, maxSlots, n - 1, i);
    } else {
      DecideTotals(slots, configs, created, heap, sockets, maxSlots, i);
      var (s, p) := Decide(slots, configs, created, heap, sockets, maxSlots, i);
      assert s[i] == s[i..][0] == slots[i..][0] == slots[i];
      if configs[i].Some? {
        SuperviseDecides(slots[i], configs[i].value, Qos.SafeMode(heap), Admit(p, configs[i].value), created[i]);
      }
    }
  }

  /** A whole pass: every slot by the admission rule, in terms of the slots and configurations before it. */
  predicate AllDecided(slots: seq<Slot>, configs: seq<Option<bool>>, created: seq<Option<nat>>, heap: nat, maxSlots: nat,
                       ts: seq<Slot>)
    requires |slots| == |configs| == |created| == |ts| == SLOT_COUNT
  {
    forall i | 0 <= i < SLOT_COUNT ::
      if configs[i].None? then ts[i] == slots[i]
      else Decided(slots[i], configs[i].value, heap < 49152, Admissible(configs, i, heap, maxSlots), created[i], ts[i])
  }

  lemma DecideAll(slots: seq<Slot>, configs: seq<Option<bool>>, created: seq<Option<nat>>, heap: nat, sockets: nat,
                  maxSlots: nat)
    requires |slots| == |configs| == |created| == SLOT_COUNT
    ensures var (s, p) := Decide(slots, configs, created, heap, sockets, maxSlots, SLOT_COUNT);
      && AllDecided(slots, configs, created, heap, maxSlots, s)
      && TotalsOf(slots, configs, maxSlots, SLOT_COUNT, p)
  {
    DecideTotals(slots, configs, created, heap, sockets, maxSlots, SLOT_COUNT);
    forall i | 0 <= i < SLOT_COUNT
      ensures var t := Decide(slots, configs, created, heap, sockets, maxSlots, SLOT_COUNT).0[i];
        if configs[i].None? then t == slots[i]
        else Decided(slots[i], configs[i].value, heap < 49152, Admissible(configs, i, heap, maxSlots), created[i], t)
    {
      DecideSlots(slots, configs, created, heap, sockets, maxSlots, SLOT_COUNT, i);
    }
  }

  class Runtime {
    const slots: array<Slot>
    var monitor: Qos.Monitor

    constructor ()
      ensures fresh(slots) && slots.Length == SLOT_COUNT && slots[..] == Init().slots
      ensures monitor == Qos.InitMonitor()
    {
      slots := new Slot[5](_ => FRESH_SLOT);
      monitor := Qos.InitMonitor();
    }

    /** ntrip_runtime_fanout_rtcm. */
    method FanoutRtcm(chunk: seq<byte>)
      requires BuffersFit(slots[..])
      modifies slots
      ensures forall i | 0 <= i < slots.Length :: slots[i] == FanOne(old(slots[i]), chunk)
      ensures forall i | 0 <= i < slots.Length :: Served(old(slots[i]), chunk, slots[i])
    {
      forall i | 0 <= i < slots.Length
        ensures Served(slots[i], chunk, FanOne(slots[i], chunk))
      {
        FanOneServes(slots[i], chunk);
      }
      for i := 0 to slots.Length
        invariant forall j | 0 <= j < i :: slots[j] == FanOne(old(slots[j]), chunk)
        invariant forall j | i <= j < slots.Length :: slots[j] == old(slots[j])
      {
        FanoutSlot(i, chunk);
      }
    }

    /** One iteration of its loop. */
    method FanoutSlot(i: nat, chunk: seq<byte>)
      requires i < slots.Length && |slots[i].stream.buffer| <= RTCM_BUFFER_SIZE
      modifies slots
      ensures slots[i] == FanOne(old(slots[i]), chunk)
      ensures forall j | 0 <= j < slots.Length && j != i :: slots[j] == old(slots[j])
    {
      if !slots[i].taskRunning {
        return;
      }
      var m := slots[i].stream;
      var sent := Min(RTCM_BUFFER_SIZE - |m.buffer|, |chunk|);
      m := m.(buffer := m.buffer + chunk[..sent], offers := m.offers + [Offer(chunk, sent)]);
      var used := |m.buffer|;
      if used > m.highWater {
        m := m.(highWater := used);
      }
      slots[i] := slots[i].(stream := m);
      if sent < |chunk| {
        slots[i] := slots[i].(stale := true, hasError := true, stream := m.(dropped := m.dropped + 1));
      }
    }

    /** ntrip_runtime_restart_all; `resetOk` says which buffer resets succeed. */
    method RestartAll(resetOk: seq<bool>) returns (closed: seq<int>)
      requires slots.Length == SLOT_COUNT == |resetOk|
      modifies slots
      ensures forall i | 0 <= i < slots.Length :: slots[i] == RestartOne(old(slots[i]), resetOk[i])
      ensures forall i | 0 <= i < slots.Length :: RestartedAs(old(slots[i]), resetOk[i], slots[i])
      ensures |closed| == SLOT_COUNT && forall i | 0 <= i < SLOT_COUNT ::
                closed[i] == ClosedBy(old(slots[i]), slots[i]) || (closed[i] == -1 && old(slots[i]).sock.fd < 0)
    {
      closed := [];
      for i := 0 to slots.Length
        invariant forall j | 0 <= j < i :: slots[j] == RestartOne(old(slots[j]), resetOk[j])
        invariant forall j | i <= j < slots.Length :: slots[j] == old(slots[j])
        invariant |closed| == i && forall j | 0 <= j < i ::
                    closed[j] == ClosedBy(old(slots[j]), slots[j]) || (closed[j] == -1 && old(slots[j]).sock.fd < 0)
      {
        var s := slots[i].(stopRequested := true);
        closed := closed + [if s.sock.fd < 0 then -1 else s.sock.fd];
        if s.sock.fd >= 0 {
          s := s.(sock := Socket(-1, s.sock.opens, s.sock.closes + 1));
        }
        if resetOk[i] {
          s := s.(stream := ResetBuffer(s.stream));
        }
        slots[i] := s.(state := Disconnected);
      }
    }

    /** One supervisor pass: `created[i]` is the task made for slot `i`, if one was asked for and could be made. */
    method SupervisorPass(configs: seq<Option<bool>>, created: seq<Option<nat>>, heap: nat, sockets: nat,
                          maxSlots: nat, now: int) returns (activeCount: nat)
      requires slots.Length == SLOT_COUNT == |configs| == |created|
      modifies this, slots
      ensures var (s, p) := Decide(old(slots[..]), configs, created, heap, sockets, maxSlots, SLOT_COUNT);
              && slots[..] == s && activeCount == p.active
              && monitor == Qos.Update(old(monitor), heap, sockets, p.maxUsed, p.maxHigh, p.totalDropped, now)
      ensures AllDecided(old(slots[..]), configs, created, heap, maxSlots, slots[..])
      ensures activeCount == RunningOf(old(slots[..]), configs, SLOT_COUNT)
      ensures exists used, high :: Fullest(old(slots[..]), configs, SLOT_COUNT, used, high) &&
                monitor == Qos.Update(old(monitor), heap, sockets, used, high, DropsOf(old(slots[..]), configs, SLOT_COUNT), now)
    {
      DecideAll(slots[..], configs, created, heap, sockets, maxSlots);
      var maxUsed, maxHigh, totalDropped;
      activeCount, maxUsed, maxHigh, totalDropped := SuperviseSlots(configs, created, heap, sockets, maxSlots);
      monitor := Qos.Update(monitor, heap, sockets, maxUsed, maxHigh, totalDropped, now);
    }

    /** Its loop over the slots, with the totals it keeps. */
    method SuperviseSlots(configs: seq<Option<bool>>, created: seq<Option<nat>>, heap: nat, ghost sockets: nat, maxSlots: nat)
      returns (activeCount: nat, maxUsed: nat, maxHigh: nat, totalDropped: nat)
      requires slots.Length == SLOT_COUNT == |configs| == |created|
      modifies slots
      ensures var (s, p) := Decide(old(slots[..]), configs, created, heap, sockets, maxSlots, SLOT_COUNT);
              && slots[..] == s && activeCount == p.active
              && maxUsed == p.maxUsed && maxHigh == p.maxHigh && totalDropped == p.totalDropped
    {
      var safeMode := heap < 48 * 1024;
      var allowedStarted := 0;
      activeCount, maxUsed, maxHigh, totalDropped := 0, 0, 0, 0;
      for i := 0 to slots.Length
        invariant var (s, p) := Decide(old(slots[..]), configs, created, heap, sockets, maxSlots, i);
                  && slots[..] == s && allowedStarted == p.allowed && activeCount == p.active
                  && maxUsed == p.maxUsed && maxHigh == p.maxHigh && totalDropped == p.totalDropped
      {
        if configs[i].None? {
          continue;
        }
        var enabled := configs[i].value;
        var allowSlot := enabled && allowedStarted < maxSlots && !safeMode;
        if enabled && allowedStarted < maxSlots {
          allowedStarted := allowedStarted + 1;
        }
        slots[i] := Supervise(slots[i], enabled, safeMode, allowSlot, created[i]);
        if slots[i].taskRunning {
          activeCount := activeCount + 1;
        }
        if |slots[i].stream.buffer| > maxUsed {
          maxUsed := |slots[i].stream.buffer|;
        }
        if slots[i].stream.highWater > maxHigh {
          maxHigh := slots[i].stream.highWater;
        }
        totalDropped := totalDropped + slots[i].stream.dropped;
      }
    }
  }

  // ---- The loops are runs of the protocol -------------------------------------------------------

  /** The slots with the first `n` already served by a fanout. */
  function Fanned(slots: seq<Slot>, chunk: seq<byte>, n: nat): (r: seq<Slot>)
    requires BuffersFit(slots) && n <= SLOT_COUNT
    ensures |r| == SLOT_COUNT && forall i | 0 <= i < SLOT_COUNT :: r[i] == if i < n then FanOne(slots[i], chunk) else slots[i]
  {
    seq(SLOT_COUNT, i requires 0 <= i < SLOT_COUNT => if i < n then FanOne(slots[i], chunk) else slots[i])
  }

  /** From slot `n` on, the fanout loop alone finishes the job and gives the mutex back. */
  lemma {:induction false} FanoutRest(w: World, slots: seq<Slot>, chunk: seq<byte>, n: nat) returns (acts: seq<Action>)
    requires BuffersFit(slots) && n <= SLOT_COUNT && w.slots == Fanned(slots, chunk, n) &&
             w.lock == Fanout(chunk, n, None)
    ensures Legal(w, acts) && Exec(w, acts) == w.(slots := Fanned(slots, chunk, SLOT_COUNT), lock := Free)
    decreases SLOT_COUNT - n
  {
    var go := LockNext(true);
    var w1 := Step(w, go);
    if n == SLOT_COUNT {
      acts := [go];
      assert [go][1..] == [];
      assert Exec(w, acts) == Exec(w1, []) == w1;
    } else if !slots[n].taskRunning {
      assert w1.slots == Fanned(slots, chunk, n + 1);
      var rest := FanoutRest(w1, slots, chunk, n + 1);
      acts := [go] + rest;
      assert acts[1..] == rest;
    } else {
      var w2 := Step(w1, go);
      assert w2.slots == Fanned(slots, chunk, n + 1);
      var rest := FanoutRest(w2, slots, chunk, n + 1);
      acts := [go] + ([go] + rest);
      assert acts[1..] == [go] + rest && ([go] + rest)[1..] == rest;
      assert Legal(w1, [go] + rest) && Exec(w1, [go] + rest) == Exec(w2, rest);
    }
  }

  /** The fanout method computes what the protocol's fanout computes when it runs alone. */
  lemma FanoutIsRun(w: World, chunk: seq<byte>) returns (acts: seq<Action>)
    requires BuffersFit(w.slots) && w.lock.Free?
    ensures Legal(w, acts) && Exec(w, acts) == w.(slots := Fanned(w.slots, chunk, SLOT_COUNT))
  {
    var w1 := Step(w, FanoutStart(chunk));
    assert w1.slots == Fanned(w.slots, chunk, 0);
    var rest := FanoutRest(w1, w.slots, chunk, 0);
    acts := [FanoutStart(chunk)] + rest;
    assert acts[1..] == rest;
  }

  lemma {:induction false} ExecAppend(w: World, acts: seq<Action>, a: Action)
    requires Legal(w, acts) && Enabled(Exec(w, acts), a)
    ensures Legal(w, acts + [a]) && Exec(w, acts + [a]) == Step(Exec(w, acts), a)
    decreases |acts|
  {
    if acts == [] {
      assert acts + [a] == [a] && [a][1..] == [];
      assert Exec(Step(w, a), []) == Step(w, a);
    } else {
      ExecAppend(Step(w, acts[0]), acts[1..], a);
      assert (acts + [a])[1..] == acts[1..] + [a];
    }
  }

  /** Task ids a pass may hand out: new, and never the same twice. */
  predicate FreshIds(w: World, created: seq<Option<nat>>) {
    && (forall i | 0 <= i < |created| && created[i].Some? :: created[i].value !in w.tasks)
    && (forall i, j | 0 <= i < j < |created| && created[i].Some? && created[j].Some? :: created[i] != created[j])
  }

  /** The first `n` slots of an uninterrupted pass. */
  lemma {:induction false} PassPrefix(w: World, configs: seq<Option<bool>>, created: seq<Option<nat>>, heap: nat,
                                      sockets: nat, maxSlots: nat, n: nat) returns (acts: seq<Action>)
    requires |w.slots| == |configs| == |created| == SLOT_COUNT && n <= SLOT_COUNT
    requires w.lock.Free? && w.pass.Resting? && FreshIds(w, created)
    ensures Legal(w, acts)
    ensures var (s, p) := Decide(w.slots, configs, created, heap, sockets, maxSlots, n); var v := Exec(w, acts);
            && v.slots == s && v.pass == p && v.lock.Free? && v.monitor == w.monitor
            && forall id | id in v.tasks && id !in w.tasks ::
                 exists i :: 0 <= i < n && created[i] == Some(id)
    decreases n
  {
    if n == 0 {
      acts := [PassStart(heap, sockets, maxSlots)];
      assert acts[1..] == [];
      assert Exec(w, acts) == Step(w, acts[0]);
    } else {
      var front := PassPrefix(w, configs, created, heap, sockets, maxSlots, n - 1);
      var v := Exec(w, front);
      var c := configs[n - 1];
      var made := if c.Some? && WantsTask(v.slots[n - 1], c.value, Qos.SafeMode(heap), Admit(v.pass, c.value))
                  then created[n - 1] else None;
      ExecAppend(w, front, PassSlot(c, made));
      acts := front + [PassSlot(c, made)];
    }
  }

  /** The supervisor method computes what the protocol's pass computes when it runs alone. */
  lemma PassIsRun(w: World, configs: seq<Option<bool>>, created: seq<Option<nat>>, heap: nat, sockets: nat,
                  maxSlots: nat, now: int) returns (acts: seq<Action>)
    requires |w.slots| == |configs| == |created| == SLOT_COUNT
    requires w.lock.Free? && w.pass.Resting? && FreshIds(w, created)
    ensures Legal(w, acts)
    ensures var (s, p) := Decide(w.slots, configs, created, heap, sockets, maxSlots, SLOT_COUNT);
            && Exec(w, acts).slots == s
            && Exec(w, acts).monitor == Qos.Update(w.monitor, heap, sockets, p.maxUsed, p.maxHigh, p.totalDropped, now)
  {
    var front := PassPrefix(w, configs, created, heap, sockets, maxSlots, SLOT_COUNT);
    ExecAppend(w, front, PassEnd(now));
    acts := front + [PassEnd(now)];
  }
}
