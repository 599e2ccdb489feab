/**
 The probe and announce state machine of managed_components/espressif__mdns/mdns.c: six PCBs share
 one transmit queue; the timer marks due packets, the service task sends them, and restarts,
 announcements, service removal and interface events interleave freely.
 */
module Probing {
  import opened TxQueue
  import opened Numbers

  /** In the order of mdns_pcb_state_t. */
  datatype State = Off | Dup | Init | Probe1 | Probe2 | Probe3 | Announce1 | Announce2 | Announce3 | Running

  predicate IsProbing(st: State) {
    st == Probe1 || st == Probe2 || st == Probe3
  }

  /** PCB_STATE_IS_PROBING: everything between PCB_OFF and PCB_ANNOUNCE_1. */
  predicate CountsAsProbing(st: State) {
    IsProbing(st) || st == Dup || st == Init
  }

  predicate IsAnnouncing(st: State) {
    st == Announce1 || st == Announce2 || st == Announce3
  }

  /** A probe packet: when it was set up and when it may first be sent. */
  datatype Latest = Latest(id: nat, setUp: nat, due: nat)

  const NO_PROBE := Latest(0, 0, 0)

  /** `probe` is the last probe packet built for this PCB. */
  datatype Pcb = Pcb(state: State, services: seq<nat>, probeIp: bool, probeRunning: bool, failedProbes: nat,
                     ready: bool, probe: Latest)

  type Pcbs = s: seq<Pcb> | |s| == PCBS witness seq(PCBS, i => Pcb(Off, [], false, false, 0, false, NO_PROBE))

  /** One packet put on the wire. */
  datatype Sent = Sent(id: nat, pcb: PcbIndex, at: nat)

  /** `now` counts milliseconds without wrapping; the C code sees it modulo 2^32. */
  datatype Server = Server(pcbs: Pcbs, queue: seq<Packet>, stamps: nat, named: bool, now: nat, nextId: nat,
                           wire: seq<Sent>)

  datatype Outcome = ServicesFail | PacketFail | Built

  datatype Action =
    | Tick(ms: nat)
    | MarkQueued(i: nat, pushed: bool)
    | HandleHead(allocOk: bool)
    | StartProbe(k: PcbIndex, services: seq<nat>, probeIp: bool, outcome: Outcome, jitter: nat)
    | Announce(k: PcbIndex, services: seq<nat>, includeIp: bool, outcome: Outcome, jitter: nat)
    | Answer(k: PcbIndex, delay: nat)
    | RemoveService(i: nat, service: nat, answersGone: bool)
    | Detach(i: nat)
    | ForgetProbe(k: PcbIndex)
    | ClearAll
    | SetName(named: bool)
    | Collide(k: PcbIndex)
    | Open(k: PcbIndex, ok: bool)
    | Close(k: PcbIndex)
    | SetState(k: PcbIndex, state: State)

  /** Elements of `a` that are not in `b`. */
  function Fresh(a: seq<nat>, b: seq<nat>): seq<nat> {
    if a == [] then [] else (if a[0] in b then [] else [a[0]]) + Fresh(a[1..], b)
  }

  function RemoveFirst(a: seq<nat>, x: nat): seq<nat> {
    if a == [] then [] else if a[0] == x then a[1..] else [a[0]] + RemoveFirst(a[1..], x)
  }

  function SetPcb(s: Server, k: PcbIndex, p: Pcb): Server {
    s.(pcbs := s.pcbs[k := p])
  }

  function Schedule(s: Server, p: Packet, ms: nat): Server {
    s.(queue := Insert(s.queue, p.(sendAt := (s.now + ms) % UINT32, stamp := s.stamps)), stamps := s.stamps + 1)
  }

  /** The signed 32-bit difference between `sendAt` and the tick count is negative. */
  predicate Due(sendAt: nat, now: nat) {
    (sendAt - now) % UINT32 >= UINT32 / 2
  }

  /** Taking the head off the queue and putting it on the wire. */
  function Dispatched(s: Server): Server
    requires s.queue != []
  {
    s.(queue := s.queue[1..], wire := s.wire + [Sent(s.queue[0].id, s.queue[0].pcb, s.now)])
  }

  /** The same packet again `ms` later, with its PCB in state `st`. */
  function Repeat(s: Server, p: Packet, ms: nat, st: State): Server {
    SetPcb(Schedule(s, p, ms), p.pcb, s.pcbs[p.pcb].(state := st))
  }

  /** _mdns_create_announce_from_probe succeeded: an announcement takes the place of the probe. */
  function Promote(s: Server, k: PcbIndex): Server {
    SetPcb(Schedule(s.(nextId := s.nextId + 1), Packet(s.nextId, Announcement, k, 0, false, 0), 250), k,
           s.pcbs[k].(state := Announce1, probeRunning := false, probeIp := false, services := [], failedProbes := 0))
  }

  /** _mdns_tx_handle_packet on the head of the queue. */
  function Handled(s: Server, allocOk: bool): Server
    requires s.queue != []
  {
    var p := s.queue[0].(queued := false);
    var d := Dispatched(s);
    match s.pcbs[p.pcb].state
    case Off => s.(queue := s.queue[1..])
    case Probe1 => Repeat(d, p, 250, Probe2)
    case Probe2 => Repeat(d, p, 250, Probe3)
    case Probe3 => if allocOk then Promote(d, p.pcb) else Repeat(d, p, 250, Probe3)
    case Announce1 => Repeat(d, p, 1000, Announce2)
    case Announce2 => Repeat(d, p, 1000, Announce3)
    case Announce3 => SetPcb(d, p.pcb, d.pcbs[p.pcb].(state := Running))
    case _ => d
  }

  function Cleared(s: Server, k: PcbIndex): Server {
    s.(queue := Without(s.queue, k))
  }

  /** _mdns_init_pcb_probe_new_service: probe `added` on top of what is being probed; `jitter` is the random 7-bit delay. */
  function ProbeAlso(s: Server, k: PcbIndex, added: seq<nat>, probeIp: bool, outcome: Outcome, jitter: nat): Server {
    var pcb := s.pcbs[k];
    match outcome
    case ServicesFail => s
    case PacketFail => SetPcb(s, k, pcb.(probeIp := false, services := [], probeRunning := false))
    case Built =>
      SetPcb(Schedule(s.(nextId := s.nextId + 1), Packet(s.nextId, Probe, k, 0, false, 0), ProbeDelay(pcb, jitter)), k,
             pcb.(state := Probe1, services := if CountsAsProbing(pcb.state) then added + pcb.services else added,
                  probeIp := pcb.probeIp || probeIp, probeRunning := true, probe := Latest(s.nextId, s.now, s.now + ProbeDelay(pcb, jitter))))
  }

  function ProbeDelay(pcb: Pcb, jitter: nat): nat {
    (if pcb.failedProbes > 5 then 1000 else 120) + jitter
  }

  /** _mdns_init_pcb_probe. */
  function Probed(s: Server, k: PcbIndex, services: seq<nat>, probeIp: bool, outcome: Outcome, jitter: nat): Server {
    var s0 := Cleared(s, k);
    var pcb := s.pcbs[k];
    if !s.named then SetPcb(s0, k, pcb.(state := Running))
    else if CountsAsProbing(pcb.state) then ProbeAlso(s0, k, Fresh(services, pcb.services), probeIp, outcome, jitter)
    else ProbeAlso(s0, k, services, probeIp, outcome, jitter)
  }

  /** _mdns_announce_pcb. */
  function Announced(s: Server, k: PcbIndex, services: seq<nat>, includeIp: bool, outcome: Outcome,
      jitter: nat): Server {
    var pcb := s.pcbs[k];
    if !pcb.ready then s
    else if CountsAsProbing(pcb.state) then Probed(s, k, services, includeIp, outcome, jitter)
    else if IsAnnouncing(pcb.state) then
      if Of(s.queue, k) != [] then SetPcb(s, k, pcb.(state := Announce1)) else s
    else if pcb.state == Running && s.named then
      var s0 := SetPcb(s, k, pcb.(state := Announce1));
      if outcome.Built? then
        Schedule(s0.(nextId := s0.nextId + 1), Packet(s0.nextId, Announcement, k, 0, false, 0), 0)
      else s0
    else s
  }

  /** What _mdns_remove_scheduled_service_packets does to the PCB of one queued packet. */
  function ServiceRemoved(pcb: Pcb, service: nat, answersGone: bool): Pcb {
    if !pcb.ready then pcb
    else if CountsAsProbing(pcb.state) then
      if service !in pcb.services then pcb
      else if |pcb.services| > 1 then pcb.(services := RemoveFirst(pcb.services, service))
      else if pcb.probeIp then pcb.(services := [])
      else pcb.(services := [], probeRunning := false, state := Running)
    else if IsAnnouncing(pcb.state) && answersGone then pcb.(state := Running)
    else pcb
  }

  predicate Enabled(s: Server, a: Action) {
    match a
    case MarkQueued(i, _) => i < |s.queue| && Due(s.queue[i].sendAt, s.now)
    case HandleHead(_) => s.queue != [] && s.queue[0].queued
    case StartProbe(_, _, _, _, jitter) => jitter < 128
    case Announce(_, _, _, _, jitter) => jitter < 128
    case Answer(k, delay) => (IsAnnouncing(s.pcbs[k].state) || s.pcbs[k].state == Running) && 25 <= delay <= 100
    case RemoveService(i, _, _) => i < |s.queue|
    case Detach(i) => i < |s.queue|
    case SetState(_, st) => st == Off || st == Dup
    case _ => true
  }

  function Apply(s: Server, a: Action): Server
    requires Enabled(s, a)
  {
    match a
    case Tick(ms) => s.(now := s.now + ms)
    case MarkQueued(i, pushed) => s.(queue := s.queue[i := s.queue[i].(queued := pushed)])
    case HandleHead(allocOk) => Handled(s, allocOk)
    case StartProbe(k, services, probeIp, outcome, jitter) => Probed(s, k, services, probeIp, outcome, jitter)
    case Announce(k, services, includeIp, outcome, jitter) => Announced(s, k, services, includeIp, outcome, jitter)
    case Answer(k, delay) =>
      Schedule(s.(nextId := s.nextId + 1), Packet(s.nextId, TxQueue.Answer, k, 0, false, 0), delay)
    case RemoveService(i, service, answersGone) =>
      var k := s.queue[i].pcb;
      SetPcb(s, k, ServiceRemoved(s.pcbs[k], service, answersGone))
    case Detach(i) => s.(queue := s.queue[..i] + s.queue[i + 1..])
    case ForgetProbe(k) => SetPcb(s, k, s.pcbs[k].(services := [], probeRunning := false))
    case ClearAll => s.(queue := [])
    case SetName(named) => s.(named := named)
    case Collide(k) => SetPcb(s, k, s.pcbs[k].(failedProbes := s.pcbs[k].failedProbes + 1))
    case Open(k, ok) => SetPcb(s, k, if ok then s.pcbs[k].(ready := true) else s.pcbs[k].(failedProbes := 0))
    case Close(k) =>
      SetPcb(Cleared(s, k), k, Pcb(Off, [], false, false, 0, false, s.pcbs[k].probe))
    case SetState(k, st) => SetPcb(s, k, s.pcbs[k].(state := st))
  }

  ghost predicate Start(s: Server) {
    s.queue == [] && s.wire == [] && forall k: PcbIndex :: s.pcbs[k].state == Off
  }

  /** A run: each server state follows from the one before by one action. */
  ghost predicate Run(r: seq<Server>, acts: seq<Action>) {
    |r| == |acts| + 1 && Start(r[0]) &&
    forall i | 0 <= i < |acts| :: Enabled(r[i], acts[i]) && r[i + 1] == Apply(r[i], acts[i])
  }

  // ----- What is on the wire -----

  /** When packet `id` of PCB `k` was sent. */
  function Times(wire: seq<Sent>, k: PcbIndex, id: nat): seq<nat> {
    if wire == [] then []
    else
      var n := |wire| - 1;
      Times(wire[..n], k, id) + (if wire[n].id == id && wire[n].pcb == k then [wire[n].at] else [])
  }

  lemma TimesAppend(wire: seq<Sent>, e: Sent, k: PcbIndex, id: nat)
    ensures Times(wire + [e], k, id) == Times(wire, k, id) + (if e.id == id && e.pcb == k then [e.at] else [])
  {
    assert (wire + [e])[..|wire|] == wire;
  }

  lemma {:induction false} TimesFresh(wire: seq<Sent>, k: PcbIndex, id: nat)
    requires forall i | 0 <= i < |wire| :: wire[i].id < id
    ensures Times(wire, k, id) == []
  {
    if wire == [] {
    } else {
      TimesFresh(wire[..|wire| - 1], k, id);
    }
  }

  /** The longest delay a probe is scheduled with: 1000 ms and 7 random bits. */
  const MAX_DELAY: nat := 1127

  /** More than 250 ms between consecutive transmissions. */
  ghost predicate Spaced(t: seq<nat>) {
    forall i | 0 <= i < |t| - 1 :: t[i] + 250 < t[i + 1]
  }

  // ----- The invariant -----

  ghost predicate Numbered(s: Server) {
    && (forall i | 0 <= i < |s.queue| :: s.queue[i].id < s.nextId)
    && (forall i | 0 <= i < |s.wire| :: s.wire[i].id < s.nextId)
  }

  /** When the next transmission may happen: the set-up delay first, then 250 ms after the last one. */
  function NextDue(sent: seq<nat>, probe: Latest): nat {
    if sent == [] then probe.due else sent[|sent| - 1] + 250
  }

  /** Scheduled for `due`, and marked only when that time is over. */
  ghost predicate ScheduledFor(p: Packet, due: nat, now: nat) {
    p.sendAt == due % UINT32 && (p.queued ==> due < now)
  }

  /** The transmissions so far: none before the set-up delay, and well apart. */
  ghost predicate WellTimed(sent: seq<nat>, probe: Latest) {
    Spaced(sent) && (sent != [] ==> probe.due < sent[0])
  }

  /** The only packet of a probing PCB is its latest probe, and what was sent of it matches the state. */
  ghost predicate ProbeFits(st: State, mine: seq<Packet>, sent: seq<nat>, probe: Latest, now: nat) {
    && |mine| <= 1
    && (st == Probe1 ==> sent == [])
    && (st == Probe2 ==> |sent| == 1)
    && (st == Probe3 ==> |sent| >= 2)
    && WellTimed(sent, probe)
    && probe.setUp + 120 <= probe.due && NextDue(sent, probe) <= now + MAX_DELAY
    && (mine != [] ==> mine[0].kind == Probe && mine[0].id == probe.id && ScheduledFor(mine[0], NextDue(sent, probe), now))
  }

  ghost predicate PcbInv(s: Server, k: PcbIndex) {
    IsProbing(s.pcbs[k].state) ==>
      && s.pcbs[k].probe.id < s.nextId
      && ProbeFits(s.pcbs[k].state, Of(s.queue, k), Times(s.wire, k, s.pcbs[k].probe.id), s.pcbs[k].probe, s.now)
  }

  ghost predicate Inv(s: Server) {
    && Ordered(s.queue) && Stamped(s.queue, s.stamps)
    && Numbered(s)
    && (forall k: PcbIndex :: PcbInv(s, k))
  }

  // ----- Every step keeps the invariant -----

  /** Nothing PCB `k` depends on has changed. */
  lemma PcbUntouched(s: Server, t: Server, k: PcbIndex)
    requires PcbInv(s, k)
    requires s.nextId <= t.nextId && s.now <= t.now && t.pcbs[k] == s.pcbs[k] && Of(t.queue, k) == Of(s.queue, k)
    requires Times(t.wire, k, s.pcbs[k].probe.id) == Times(s.wire, k, s.pcbs[k].probe.id)
    ensures PcbInv(t, k)
  {
  }

  /** Only the bookkeeping of PCB `k` has changed, not its state. */
  lemma PcbRewritten(s: Server, k: PcbIndex, pcb: Pcb, j: PcbIndex)
    requires PcbInv(s, j)
    requires pcb.probe == s.pcbs[k].probe && (IsProbing(pcb.state) ==> pcb.state == s.pcbs[k].state)
    ensures PcbInv(SetPcb(s, k, pcb), j)
  {
  }

  /** Scheduling `p` for PCB `k` changes the packets of `k` only. */
  lemma ScheduleElsewhere(s: Server, p: Packet, ms: nat, j: PcbIndex)
    requires PcbInv(s, j) && p.pcb != j
    ensures PcbInv(Schedule(s, p, ms), j)
  {
    OfInsert(s.queue, p.(sendAt := (s.now + ms) % UINT32, stamp := s.stamps), j);
  }

  lemma ScheduleOrdered(s: Server, p: Packet, ms: nat)
    requires Ordered(s.queue) && Stamped(s.queue, s.stamps) && Numbered(s) && p.id < s.nextId
    ensures var t := Schedule(s, p, ms); Ordered(t.queue) && Stamped(t.queue, t.stamps) && Numbered(t)
  {
    var x := p.(sendAt := (s.now + ms) % UINT32, stamp := s.stamps);
    InsertKeepsOrder(s.queue, x);
    var k := InsertSplits(s.queue, x);
  }

  /** Marking the probe of a probing PCB when it is due. */
  lemma FitsMarked(st: State, p: Packet, sent: seq<nat>, probe: Latest, now: nat, pushed: bool)
    requires ProbeFits(st, [p], sent, probe, now) && Due(p.sendAt, now)
    ensures ProbeFits(st, [p.(queued := pushed)], sent, probe, now)
  {
    DueIsLater(NextDue(sent, probe), now);
  }

  lemma MarkKeepsPcb(s: Server, i: nat, pushed: bool, j: PcbIndex)
    requires PcbInv(s, j) && i < |s.queue| && Due(s.queue[i].sendAt, s.now)
    ensures PcbInv(s.(queue := s.queue[i := s.queue[i].(queued := pushed)]), j)
  {
    var p := s.queue[i].(queued := pushed);
    OfUpdate(s.queue, i, p, j);
    if p.pcb == j && IsProbing(s.pcbs[j].state) {
      FitsMarked(s.pcbs[j].state, s.queue[i], Times(s.wire, j, s.pcbs[j].probe.id), s.pcbs[j].probe, s.now, pushed);
    }
  }

  lemma MarkKeeps(s: Server, i: nat, pushed: bool)
    requires Inv(s) && i < |s.queue| && Due(s.queue[i].sendAt, s.now)
    ensures Inv(Apply(s, MarkQueued(i, pushed)))
  {
    var t := Apply(s, MarkQueued(i, pushed));
    forall j: PcbIndex
      ensures PcbInv(t, j)
    {
      assert PcbInv(s, j);
      MarkKeepsPcb(s, i, pushed, j);
    }
  }

  /**
   Wrap-around or not, a packet is found due exactly when its time is past, as long as the two are no
   further apart than half the clock's range.
   */
  lemma DueIffPast(due: nat, now: nat)
    requires due < now + 0x8000_0000 && now <= due + 0x8000_0000
    ensures Due(due % UINT32, now) <==> due < now
  {
    var d := due - now;
    assert (due % UINT32 - now) % UINT32 == d % UINT32 by {
      var c := due / UINT32;
      assert due % UINT32 - now == d - c * UINT32;
      ModShift(d, c);
    }
  }

  /** A packet scheduled a probe's delay ahead is never found due before its time. */
  lemma DueIsLater(due: nat, now: nat)
    requires due <= now + MAX_DELAY
    ensures Due(due % UINT32, now) ==> due < now
  {
    if now <= due {
      DueIffPast(due, now);
    }
  }

  lemma ModShift(d: int, c: int)
    ensures (d - c * UINT32) % UINT32 == d % UINT32
  {
    var q := d / UINT32;
    var r := d % UINT32;
    assert d - c * UINT32 == (q - c) * UINT32 + r;
  }

  lemma HeadGone(s: Server, j: PcbIndex)
    requires s.queue != []
    ensures s.queue[0].pcb != j ==> Of(s.queue[1..], j) == Of(s.queue, j)
    ensures s.queue[0].pcb == j && |Of(s.queue, j)| <= 1 ==> Of(s.queue, j) == [s.queue[0]] && Of(s.queue[1..], j) == []
  {
    OfRemove(s.queue, 0, j);
    assert s.queue[..0] + s.queue[1..] == s.queue[1..];
  }

  lemma DispatchElsewhere(s: Server, j: PcbIndex)
    requires s.queue != [] && PcbInv(s, j) && s.queue[0].pcb != j
    ensures PcbInv(Dispatched(s), j) && PcbInv(s.(queue := s.queue[1..]), j)
  {
    HeadGone(s, j);
    TimesAppend(s.wire, Sent(s.queue[0].id, s.queue[0].pcb, s.now), j, s.pcbs[j].probe.id);
  }

  lemma TimedAgain(sent: seq<nat>, probe: Latest, now: nat)
    requires WellTimed(sent, probe) && NextDue(sent, probe) < now
    ensures WellTimed(sent + [now], probe)
  {
    var t := sent + [now];
    forall i | 0 <= i < |t| - 1
      ensures t[i] + 250 < t[i + 1]
    {
      if i < |sent| - 1 {
        assert t[i] == sent[i] && t[i + 1] == sent[i + 1];
      }
    }
  }

  /** Sending the probe of a probing PCB adds one well-timed transmission and leaves no packet of it. */
  lemma DispatchOwn(s: Server, k: PcbIndex)
    requires s.queue != [] && s.queue[0].pcb == k && s.queue[0].queued && PcbInv(s, k) && IsProbing(s.pcbs[k].state)
    ensures var t := Dispatched(s); Of(t.queue, k) == [] && s.queue[0].id == s.pcbs[k].probe.id
    ensures Times(Dispatched(s).wire, k, s.pcbs[k].probe.id) == Times(s.wire, k, s.pcbs[k].probe.id) + [s.now]
    ensures WellTimed(Times(Dispatched(s).wire, k, s.pcbs[k].probe.id), s.pcbs[k].probe)
  {
    HeadGone(s, k);
    TimesAppend(s.wire, Sent(s.queue[0].id, k, s.now), k, s.pcbs[k].probe.id);
    TimedAgain(Times(s.wire, k, s.pcbs[k].probe.id), s.pcbs[k].probe, s.now);
  }

  /** The probe goes back into the queue for 250 ms and the state follows the transmissions. */
  lemma Requeued(s: Server, k: PcbIndex, st: State)
    requires s.queue != [] && s.queue[0].pcb == k && s.queue[0].queued && PcbInv(s, k) && IsProbing(s.pcbs[k].state)
    requires st == match s.pcbs[k].state case Probe1 => Probe2 case _ => Probe3
    ensures PcbInv(Repeat(Dispatched(s), s.queue[0].(queued := false), 250, st), k)
  {
    DispatchOwn(s, k);
    HeadGone(s, k);
    var d := Dispatched(s);
    var p := s.queue[0].(queued := false, sendAt := (s.now + 250) % UINT32, stamp := d.stamps);
    FitsAgain(s.pcbs[k].state, st, s.queue[0], p, Times(s.wire, k, s.pcbs[k].probe.id), s.pcbs[k].probe, s.now);
    RepeatAlone(d, s.queue[0].(queued := false), st);
  }

  /** A packet scheduled again for a PCB with no other. */
  lemma RepeatAlone(d: Server, p: Packet, st: State)
    requires Of(d.queue, p.pcb) == []
    ensures Of(Repeat(d, p, 250, st).queue, p.pcb) == [p.(sendAt := (d.now + 250) % UINT32, stamp := d.stamps)]
  {
    OfInsert(d.queue, p.(sendAt := (d.now + 250) % UINT32, stamp := d.stamps), p.pcb);
  }

  /** One more transmission, and the packet put off by 250 ms. */
  lemma FitsAgain(st: State, st': State, p: Packet, p': Packet, sent: seq<nat>, probe: Latest, now: nat)
    requires ProbeFits(st, [p], sent, probe, now) && IsProbing(st) && p.queued
    requires st' == match st case Probe1 => Probe2 case _ => Probe3
    requires p'.kind == p.kind && p'.id == p.id && !p'.queued && p'.sendAt == (now + 250) % UINT32
    ensures ProbeFits(st', [p'], sent + [now], probe, now)
  {
  }

  lemma RepeatElsewhere(s: Server, p: Packet, ms: nat, st: State, j: PcbIndex)
    requires PcbInv(s, j) && p.pcb != j
    ensures PcbInv(Repeat(s, p, ms, st), j)
  {
    ScheduleElsewhere(s, p, ms, j);
  }

  lemma PromoteElsewhere(s: Server, k: PcbIndex, j: PcbIndex)
    requires PcbInv(s, j) && k != j
    ensures PcbInv(Promote(s, k), j)
  {
    var e := s.(nextId := s.nextId + 1);
    PcbUntouched(s, e, j);
    ScheduleElsewhere(e, Packet(s.nextId, Announcement, k, 0, false, 0), 250, j);
  }

  lemma HandledElsewhere(s: Server, allocOk: bool, j: PcbIndex)
    requires s.queue != [] && s.queue[0].pcb != j && PcbInv(s, j)
    ensures PcbInv(Handled(s, allocOk), j)
  {
    var p := s.queue[0].(queued := false);
    DispatchElsewhere(s, j);
    var d := Dispatched(s);
    match s.pcbs[p.pcb].state
    case Probe1 => RepeatElsewhere(d, p, 250, Probe2, j);
    case Probe2 => RepeatElsewhere(d, p, 250, Probe3, j);
    case Probe3 => RepeatElsewhere(d, p, 250, Probe3, j); PromoteElsewhere(d, p.pcb, j);
    case Announce1 => RepeatElsewhere(d, p, 1000, Announce2, j);
    case Announce2 => RepeatElsewhere(d, p, 1000, Announce3, j);
    case _ =>
  }

  /** The PCB after the head of the queue was sent for it. */
  function PcbAfter(pcb: Pcb, allocOk: bool): Pcb {
    match pcb.state
    case Probe1 => pcb.(state := Probe2)
    case Probe2 => pcb.(state := Probe3)
    case Probe3 =>
      if allocOk then
        pcb.(state := Announce1, probeRunning := false, probeIp := false, services := [], failedProbes := 0)
      else pcb
    case Announce1 => pcb.(state := Announce2)
    case Announce2 => pcb.(state := Announce3)
    case Announce3 => pcb.(state := Running)
    case _ => pcb
  }

  lemma HandledPcbs(s: Server, allocOk: bool)
    requires s.queue != []
    ensures var k := s.queue[0].pcb; Handled(s, allocOk).pcbs == s.pcbs[k := PcbAfter(s.pcbs[k], allocOk)]
    ensures s.nextId <= Handled(s, allocOk).nextId
  {
    var k := s.queue[0].pcb;
    assert s.pcbs[k := s.pcbs[k]] == s.pcbs;
  }

  predicate SendsAgain(st: State, allocOk: bool) {
    st == Probe1 || st == Probe2 || (st == Probe3 && !allocOk)
  }

  lemma HandledAgain(s: Server, allocOk: bool)
    requires s.queue != [] && SendsAgain(s.pcbs[s.queue[0].pcb].state, allocOk)
    ensures var st := s.pcbs[s.queue[0].pcb].state;
      Handled(s, allocOk) ==
      Repeat(Dispatched(s), s.queue[0].(queued := false), 250, if st == Probe1 then Probe2 else Probe3)
  {
  }

  lemma HandledOwn(s: Server, allocOk: bool)
    requires s.queue != [] && s.queue[0].queued && PcbInv(s, s.queue[0].pcb)
    ensures PcbInv(Handled(s, allocOk), s.queue[0].pcb)
  {
    var k := s.queue[0].pcb;
    var st := s.pcbs[k].state;
    if SendsAgain(st, allocOk) {
      HandledAgain(s, allocOk);
      Requeued(s, k, if st == Probe1 then Probe2 else Probe3);
    } else {
      HandledPcbs(s, allocOk);
      assert !IsProbing(PcbAfter(s.pcbs[k], allocOk).state);
    }
  }

  ghost predicate QueueInv(s: Server) {
    Ordered(s.queue) && Stamped(s.queue, s.stamps) && Numbered(s)
  }

  lemma RepeatKeepsQueue(s: Server, p: Packet, ms: nat, st: State)
    requires QueueInv(s) && p.id < s.nextId
    ensures QueueInv(Repeat(s, p, ms, st))
  {
    ScheduleOrdered(s, p, ms);
  }

  lemma PromoteKeepsQueue(s: Server, k: PcbIndex)
    requires QueueInv(s)
    ensures QueueInv(Promote(s, k))
  {
    ScheduleOrdered(s.(nextId := s.nextId + 1), Packet(s.nextId, Announcement, k, 0, false, 0), 250);
  }

  lemma HandledKeepsQueue(s: Server, allocOk: bool)
    requires s.queue != [] && QueueInv(s)
    ensures QueueInv(Handled(s, allocOk))
  {
    var p := s.queue[0].(queued := false);
    var d := Dispatched(s);
    assert QueueInv(d);
    match s.pcbs[p.pcb].state
    case Probe1 => RepeatKeepsQueue(d, p, 250, Probe2);
    case Probe2 => RepeatKeepsQueue(d, p, 250, Probe3);
    case Probe3 => RepeatKeepsQueue(d, p, 250, Probe3); PromoteKeepsQueue(d, p.pcb);
    case Announce1 => RepeatKeepsQueue(d, p, 1000, Announce2);
    case Announce2 => RepeatKeepsQueue(d, p, 1000, Announce3);
    case _ =>
  }

  lemma HandledKeeps(s: Server, allocOk: bool)
    requires s.queue != [] && s.queue[0].queued && Inv(s)
    ensures Inv(Handled(s, allocOk))
  {
    HandledKeepsQueue(s, allocOk);
    forall j: PcbIndex
      ensures PcbInv(Handled(s, allocOk), j)
    {
      assert PcbInv(s, j);
      if j == s.queue[0].pcb {
        HandledOwn(s, allocOk);
      } else {
        HandledElsewhere(s, allocOk, j);
      }
    }
  }

  lemma ClearedKeeps(s: Server, k: PcbIndex)
    requires Inv(s)
    ensures Inv(Cleared(s, k)) && Of(Cleared(s, k).queue, k) == []
  {
    var t := Cleared(s, k);
    WithoutKeepsOrder(s.queue, k, s.stamps);
    WithoutOthers(s.queue, k, k);
    forall i | 0 <= i < |t.queue|
      ensures t.queue[i].id < t.nextId
    {
      WithoutMember(s.queue, k, t.queue[i]);
    }
    forall j: PcbIndex
      ensures PcbInv(t, j)
    {
      assert PcbInv(s, j);
      WithoutOthers(s.queue, k, j);
    }
  }

  /** A new probe packet waits for its set-up delay; nothing of it is on the wire yet. */
  lemma FitsFresh(p: Packet, probe: Latest, now: nat)
    requires p.kind == Probe && p.id == probe.id && !p.queued && p.sendAt == probe.due % UINT32
    requires probe.setUp + 120 <= probe.due <= now + MAX_DELAY
    ensures ProbeFits(Probe1, [p], [], probe, now)
  {
  }

  lemma ProbeEntersOwn(s: Server, k: PcbIndex, pcb: Pcb, ms: nat)
    requires Numbered(s) && Of(s.queue, k) == [] && pcb.state == Probe1 && 120 <= ms <= MAX_DELAY
    requires pcb.probe == Latest(s.nextId, s.now, s.now + ms)
    ensures PcbInv(SetPcb(Schedule(s.(nextId := s.nextId + 1), Packet(s.nextId, Probe, k, 0, false, 0), ms), k, pcb), k)
  {
    TimesFresh(s.wire, k, s.nextId);
    var e := s.(nextId := s.nextId + 1);
    var p := Packet(s.nextId, Probe, k, 0, false, 0);
    ScheduledAlone(e, p, ms);
    FitsFresh(Of(Schedule(e, p, ms).queue, k)[0], pcb.probe, s.now);
  }

  /** The only packet of its PCB, scheduled. */
  lemma ScheduledAlone(s: Server, p: Packet, ms: nat)
    requires Of(s.queue, p.pcb) == []
    ensures var q := Of(Schedule(s, p, ms).queue, p.pcb);
      |q| == 1 && q[0].kind == p.kind && q[0].id == p.id && q[0].queued == p.queued && q[0].sendAt == (s.now + ms) % UINT32
  {
    OfInsert(s.queue, p.(sendAt := (s.now + ms) % UINT32, stamp := s.stamps), p.pcb);
  }

  lemma ProbeEnters(s: Server, k: PcbIndex, pcb: Pcb, ms: nat)
    requires Inv(s) && Of(s.queue, k) == [] && pcb.state == Probe1 && 120 <= ms <= MAX_DELAY
    requires pcb.probe == Latest(s.nextId, s.now, s.now + ms)
    ensures Inv(SetPcb(Schedule(s.(nextId := s.nextId + 1), Packet(s.nextId, Probe, k, 0, false, 0), ms), k, pcb))
  {
    var e := s.(nextId := s.nextId + 1);
    var p := Packet(s.nextId, Probe, k, 0, false, 0);
    ScheduleOrdered(e, p, ms);
    var t := SetPcb(Schedule(e, p, ms), k, pcb);
    forall j: PcbIndex
      ensures PcbInv(t, j)
    {
      assert PcbInv(s, j);
      if j == k {
        ProbeEntersOwn(s, k, pcb, ms);
      } else {
        PcbUntouched(s, e, j);
        ScheduleElsewhere(e, p, ms, j);
      }
    }
  }

  /** A change of bookkeeping or a step out of probing keeps everything. */
  lemma RewrittenKeeps(s: Server, k: PcbIndex, pcb: Pcb)
    requires Inv(s)
    requires pcb.probe == s.pcbs[k].probe && (IsProbing(pcb.state) ==> pcb.state == s.pcbs[k].state)
    ensures Inv(SetPcb(s, k, pcb))
  {
    forall j: PcbIndex
      ensures PcbInv(SetPcb(s, k, pcb), j)
    {
      assert PcbInv(s, j);
      PcbRewritten(s, k, pcb, j);
    }
  }

  lemma ProbeAlsoKeeps(s: Server, k: PcbIndex, added: seq<nat>, probeIp: bool, outcome: Outcome, jitter: nat)
    requires jitter < 128
    requires Inv(s) && Of(s.queue, k) == []
    ensures Inv(ProbeAlso(s, k, added, probeIp, outcome, jitter))
  {
    var pcb := s.pcbs[k];
    match outcome
    case ServicesFail =>
    case PacketFail => RewrittenKeeps(s, k, pcb.(probeIp := false, services := [], probeRunning := false));
    case Built => ProbeBuiltKeeps(s, k, added, probeIp, jitter);
  }

  lemma ProbeBuiltKeeps(s: Server, k: PcbIndex, added: seq<nat>, probeIp: bool, jitter: nat)
    requires jitter < 128 && Inv(s) && Of(s.queue, k) == []
    ensures Inv(ProbeAlso(s, k, added, probeIp, Built, jitter))
  {
    var t := ProbeAlso(s, k, added, probeIp, Built, jitter);
    ProbeEnters(s, k, t.pcbs[k], ProbeDelay(s.pcbs[k], jitter));
  }

  lemma ProbedKeeps(s: Server, k: PcbIndex, services: seq<nat>, probeIp: bool, outcome: Outcome, jitter: nat)
    requires jitter < 128
    requires Inv(s)
    ensures Inv(Probed(s, k, services, probeIp, outcome, jitter))
  {
    ClearedKeeps(s, k);
    var s0 := Cleared(s, k);
    if !s.named {
      RewrittenKeeps(s0, k, s.pcbs[k].(state := Running));
    } else {
      ProbeAlsoKeeps(s0, k, services, probeIp, outcome, jitter);
      ProbeAlsoKeeps(s0, k, Fresh(services, s.pcbs[k].services), probeIp, outcome, jitter);
    }
  }

  /** Scheduling anything for a PCB that is not probing. */
  lemma ScheduleKeeps(s: Server, p: Packet, ms: nat)
    requires Inv(s) && p.id == s.nextId && !IsProbing(s.pcbs[p.pcb].state)
    ensures Inv(Schedule(s.(nextId := s.nextId + 1), p, ms))
  {
    var e := s.(nextId := s.nextId + 1);
    ScheduleOrdered(e, p, ms);
    forall j: PcbIndex
      ensures PcbInv(Schedule(e, p, ms), j)
    {
      assert PcbInv(s, j);
      if j != p.pcb {
        PcbUntouched(s, e, j);
        ScheduleElsewhere(e, p, ms, j);
      }
    }
  }

  lemma AnnouncedKeeps(s: Server, k: PcbIndex, services: seq<nat>, includeIp: bool, outcome: Outcome, jitter: nat)
    requires jitter < 128
    requires Inv(s)
    ensures Inv(Announced(s, k, services, includeIp, outcome, jitter))
  {
    var pcb := s.pcbs[k];
    if !pcb.ready {
    } else if CountsAsProbing(pcb.state) {
      ProbedKeeps(s, k, services, includeIp, outcome, jitter);
    } else {
      RewrittenKeeps(s, k, pcb.(state := Announce1));
      var s0 := SetPcb(s, k, pcb.(state := Announce1));
      ScheduleKeeps(s0, Packet(s0.nextId, Announcement, k, 0, false, 0), 0);
    }
  }

  lemma DetachKeeps(s: Server, i: nat)
    requires Inv(s) && i < |s.queue|
    ensures Inv(Apply(s, Detach(i)))
  {
    var t := Apply(s, Detach(i));
    RemoveKeepsOrder(s.queue, i, s.stamps);
    forall j | 0 <= j < |t.queue|
      ensures t.queue[j].id < t.nextId
    {
      assert t.queue[j] == if j < i then s.queue[j] else s.queue[j + 1];
    }
    forall j: PcbIndex
      ensures PcbInv(t, j)
    {
      assert PcbInv(s, j);
      OfRemove(s.queue, i, j);
    }
  }

  lemma ClearAllKeeps(s: Server)
    requires Inv(s)
    ensures Inv(Apply(s, ClearAll))
  {
    forall j: PcbIndex
      ensures PcbInv(Apply(s, ClearAll), j)
    {
      assert PcbInv(s, j);
    }
  }

  lemma TickKeeps(s: Server, ms: nat)
    requires Inv(s)
    ensures Inv(Apply(s, Tick(ms)))
  {
    forall j: PcbIndex
      ensures PcbInv(Apply(s, Tick(ms)), j)
    {
      assert PcbInv(s, j);
      PcbUntouched(s, Apply(s, Tick(ms)), j);
    }
  }

  lemma SetNameKeeps(s: Server, named: bool)
    requires Inv(s)
    ensures Inv(Apply(s, SetName(named)))
  {
    forall j: PcbIndex
      ensures PcbInv(Apply(s, SetName(named)), j)
    {
      assert PcbInv(s, j);
    }
  }

  /** The actions that rewrite one PCB's record. */
  predicate Rewrites(a: Action) {
    a.RemoveService? || a.ForgetProbe? || a.Collide? || a.Open? || a.Close? || a.SetState?
  }

  lemma RewritesKeepInv(s: Server, a: Action)
    requires Inv(s) && Enabled(s, a) && Rewrites(a)
    ensures Inv(Apply(s, a))
  {
    match a
    case RemoveService(i, service, answersGone) =>
      RewrittenKeeps(s, s.queue[i].pcb, ServiceRemoved(s.pcbs[s.queue[i].pcb], service, answersGone));
    case ForgetProbe(k) => RewrittenKeeps(s, k, s.pcbs[k].(services := [], probeRunning := false));
    case Collide(k) => RewrittenKeeps(s, k, s.pcbs[k].(failedProbes := s.pcbs[k].failedProbes + 1));
    case Open(k, ok) =>
      RewrittenKeeps(s, k, if ok then s.pcbs[k].(ready := true) else s.pcbs[k].(failedProbes := 0));
    case Close(k) =>
      ClearedKeeps(s, k);
      RewrittenKeeps(Cleared(s, k), k, Pcb(Off, [], false, false, 0, false, s.pcbs[k].probe));
    case SetState(k, st) => RewrittenKeeps(s, k, s.pcbs[k].(state := st));
  }

  lemma ApplyKeepsInv(s: Server, a: Action)
    requires Inv(s) && Enabled(s, a)
    ensures Inv(Apply(s, a))
  {
    match a
    case Tick(ms) => TickKeeps(s, ms);
    case MarkQueued(i, pushed) => MarkKeeps(s, i, pushed);
    case HandleHead(allocOk) => HandledKeeps(s, allocOk);
    case StartProbe(k, services, probeIp, outcome, jitter) => ProbedKeeps(s, k, services, probeIp, outcome, jitter);
    case Announce(k, services, includeIp, outcome, jitter) => AnnouncedKeeps(s, k, services, includeIp, outcome, jitter);
    case Answer(k, delay) => ScheduleKeeps(s, Packet(s.nextId, TxQueue.Answer, k, 0, false, 0), delay);
    case Detach(i) => DetachKeeps(s, i);
    case ClearAll => ClearAllKeeps(s);
    case SetName(named) => SetNameKeeps(s, named);
    case _ => RewritesKeepInv(s, a);
  }

  // ----- Theorems over all runs -----

  lemma {:induction false} RunKeepsInv(r: seq<Server>, acts: seq<Action>, i: nat)
    requires Run(r, acts) && i < |r|
    ensures Inv(r[i])
  {
    if i == 0 {
      forall k: PcbIndex
        ensures PcbInv(r[0], k)
      {
        assert r[0].pcbs[k].state == Off;
      }
    } else {
      RunKeepsInv(r, acts, i - 1);
      assert r[i - 1 + 1] == Apply(r[i - 1], acts[i - 1]);
      ApplyKeepsInv(r[i - 1], acts[i - 1]);
    }
  }

  /**
   In every reachable state the queue is sorted with ties in scheduling order, and a probing PCB has
   at most one packet in it: its latest probe.
   */
  lemma AtMostOneWhileProbing(r: seq<Server>, acts: seq<Action>, i: nat, k: PcbIndex)
    requires Run(r, acts) && i < |r|
    ensures Ordered(r[i].queue)
    ensures IsProbing(r[i].pcbs[k].state) ==>
              |Of(r[i].queue, k)| <= 1 && forall p | p in Of(r[i].queue, k) :: p.kind == Probe && p.id == r[i].pcbs[k].probe.id
  {
    RunKeepsInv(r, acts, i);
    assert PcbInv(r[i], k);
  }

  // ----- Ways out of probing -----

  /** The service's last probe question is gone and no address is being probed. */
  predicate LastServiceGone(pcb: Pcb, service: nat) {
    pcb.ready && pcb.services == [service] && !pcb.probeIp
  }

  /** The ways out of probing that skip the announcement. */
  predicate SkipsAnnouncement(s: Server, a: Action, k: PcbIndex)
    requires Enabled(s, a)
  {
    match a
    case StartProbe(j, _, _, _, _) => j == k && !s.named
    case Announce(j, _, _, _, _) => j == k && s.pcbs[k].ready && !s.named && CountsAsProbing(s.pcbs[k].state)
    case RemoveService(i, service, _) =>
      s.queue[i].pcb == k && LastServiceGone(s.pcbs[k], service) && CountsAsProbing(s.pcbs[k].state)
    case _ => false
  }

  /** The successful hand-over from the third probe to the first announcement. */
  predicate HandsOver(s: Server, a: Action, k: PcbIndex)
    requires Enabled(s, a)
  {
    a == HandleHead(true) && s.queue[0].pcb == k && s.pcbs[k].state == Probe3
  }

  predicate Stops(a: Action, k: PcbIndex) {
    a == Close(k) || (a.SetState? && a.k == k)
  }

  /** A state reached from a probe state, and what led there. */
  predicate LeftBy(s: Server, a: Action, k: PcbIndex, st: State)
    requires Enabled(s, a)
  {
    && (st == Announce1 <==> HandsOver(s, a, k))
    && (st == Running <==> SkipsAnnouncement(s, a, k))
    && (st == Off || st == Dup <==> Stops(a, k))
    && (!HandsOver(s, a, k) && !SkipsAnnouncement(s, a, k) && !Stops(a, k) ==> IsProbing(st))
  }

  lemma HandledLeaves(s: Server, allocOk: bool, k: PcbIndex)
    requires Enabled(s, HandleHead(allocOk)) && IsProbing(s.pcbs[k].state)
    ensures LeftBy(s, HandleHead(allocOk), k, Handled(s, allocOk).pcbs[k].state)
  {
    HandledPcbs(s, allocOk);
    var j := s.queue[0].pcb;
    assert Handled(s, allocOk).pcbs[k] == if j == k then PcbAfter(s.pcbs[k], allocOk) else s.pcbs[k];
  }

  lemma ProbedState(s: Server, j: PcbIndex, services: seq<nat>, ip: bool, outcome: Outcome, jitter: nat, k: PcbIndex)
    requires IsProbing(s.pcbs[k].state)
    ensures var st := Probed(s, j, services, ip, outcome, jitter).pcbs[k].state;
      if j == k && !s.named then st == Running else IsProbing(st)
  {
  }

  lemma AnnouncedState(s: Server, j: PcbIndex, services: seq<nat>, ip: bool, outcome: Outcome, jitter: nat, k: PcbIndex)
    requires IsProbing(s.pcbs[k].state)
    ensures var st := Announced(s, j, services, ip, outcome, jitter).pcbs[k].state;
      if j == k && s.pcbs[k].ready && !s.named then st == Running else IsProbing(st)
  {
    if s.pcbs[j].ready && CountsAsProbing(s.pcbs[j].state) {
      ProbedState(s, j, services, ip, outcome, jitter, k);
    }
  }

  lemma RemovedState(pcb: Pcb, service: nat, answersGone: bool)
    requires IsProbing(pcb.state)
    ensures ServiceRemoved(pcb, service, answersGone).state == if LastServiceGone(pcb, service) then Running else pcb.state
  {
    if |pcb.services| == 1 && service in pcb.services {
      assert pcb.services == [service];
    }
  }

  lemma RemovalLeaves(s: Server, i: nat, service: nat, answersGone: bool, k: PcbIndex)
    requires i < |s.queue| && IsProbing(s.pcbs[k].state)
    ensures LeftBy(s, RemoveService(i, service, answersGone), k,
                   Apply(s, RemoveService(i, service, answersGone)).pcbs[k].state)
  {
    if s.queue[i].pcb == k {
      RemovedState(s.pcbs[k], service, answersGone);
    }
  }

  /** The actions that leave every state as it is. */
  predicate KeepsStates(a: Action) {
    a.Tick? || a.MarkQueued? || a.Answer? || a.Detach? || a.ForgetProbe? || a.ClearAll? || a.SetName? || a.Collide? || a.Open?
  }

  lemma StatesKept(s: Server, a: Action, k: PcbIndex)
    requires Enabled(s, a) && KeepsStates(a)
    ensures Apply(s, a).pcbs[k].state == s.pcbs[k].state
  {
  }

  /**
   Every way out of the probe states: to Announce1 exactly by the successful hand-over in Probe3, to
   Running exactly by the short cuts, and to Off or Dup exactly when the interface is stopped.
   */
  lemma WaysOutOfProbing(s: Server, a: Action, k: PcbIndex)
    requires Enabled(s, a) && IsProbing(s.pcbs[k].state)
    ensures LeftBy(s, a, k, Apply(s, a).pcbs[k].state)
  {
    match a
    case HandleHead(allocOk) => HandledLeaves(s, allocOk, k);
    case StartProbe(j, services, ip, outcome, jitter) => ProbedState(s, j, services, ip, outcome, jitter, k);
    case Announce(j, services, ip, outcome, jitter) => AnnouncedState(s, j, services, ip, outcome, jitter, k);
    case RemoveService(i, service, answersGone) => RemovalLeaves(s, i, service, answersGone, k);
    case Close(j) =>
    case SetState(j, st) =>
    case _ => StatesKept(s, a, k);
  }

  // ----- Three probes -----

  /** Packet numbers only grow, and a PCB changes its probe only for a new number. */
  ghost predicate Grows(s: Server, t: Server, k: PcbIndex) {
    && s.nextId <= t.nextId
    && (t.pcbs[k].probe.id == s.pcbs[k].probe.id || t.pcbs[k].probe.id == s.nextId)
  }

  lemma HandledGrows(s: Server, allocOk: bool, k: PcbIndex)
    requires s.queue != []
    ensures Grows(s, Handled(s, allocOk), k)
  {
    HandledPcbs(s, allocOk);
    var j := s.queue[0].pcb;
    assert PcbAfter(s.pcbs[j], allocOk).probe.id == s.pcbs[j].probe.id;
  }

  lemma ProbedGrows(s: Server, j: PcbIndex, services: seq<nat>, ip: bool, outcome: Outcome, jitter: nat, k: PcbIndex)
    ensures Grows(s, Probed(s, j, services, ip, outcome, jitter), k)
  {
  }

  lemma AnnouncedGrows(s: Server, j: PcbIndex, services: seq<nat>, ip: bool, outcome: Outcome, jitter: nat, k: PcbIndex)
    ensures Grows(s, Announced(s, j, services, ip, outcome, jitter), k)
  {
    ProbedGrows(s, j, services, ip, outcome, jitter, k);
  }

  lemma ApplyGrows(s: Server, a: Action, k: PcbIndex)
    requires Enabled(s, a)
    ensures Grows(s, Apply(s, a), k)
  {
    match a
    case HandleHead(allocOk) => HandledGrows(s, allocOk, k);
    case StartProbe(j, services, ip, outcome, jitter) => ProbedGrows(s, j, services, ip, outcome, jitter, k);
    case Announce(j, services, ip, outcome, jitter) => AnnouncedGrows(s, j, services, ip, outcome, jitter, k);
    case _ =>
  }

  lemma RunGrows(r: seq<Server>, acts: seq<Action>, k: PcbIndex)
    requires Run(r, acts)
    ensures forall m | 0 <= m < |acts| :: Grows(r[m], r[m + 1], k)
  {
    forall m | 0 <= m < |acts|
      ensures Grows(r[m], r[m + 1], k)
    {
      assert r[m + 1] == Apply(r[m], acts[m]);
      ApplyGrows(r[m], acts[m], k);
    }
  }

  /** The step that ends probing with an announcement is the third or later transmission of the probe. */
  lemma AnnounceStep(s: Server, a: Action, k: PcbIndex)
    requires PcbInv(s, k) && Enabled(s, a) && IsProbing(s.pcbs[k].state) && Apply(s, a).pcbs[k].state == Announce1
    ensures var t := Times(Apply(s, a).wire, k, s.pcbs[k].probe.id); |t| >= 3 && WellTimed(t, s.pcbs[k].probe)
    ensures s.pcbs[k].probe.setUp + 120 <= s.pcbs[k].probe.due
  {
    WaysOutOfProbing(s, a, k);
    assert HandsOver(s, a, k);
    DispatchOwn(s, k);
    assert Handled(s, true).wire == Dispatched(s).wire;
  }

  /** While a PCB keeps probing from Probe1 on, none of its current probe was on the wire at the start. */
  lemma {:induction false} ProbeIsNew(r: seq<Server>, i: nat, j: nat, k: PcbIndex)
    requires i <= j < |r| && r[i].pcbs[k].state == Probe1 && PcbInv(r[i], k) && Numbered(r[i])
    requires forall m | i <= m < j :: Grows(r[m], r[m + 1], k)
    ensures Times(r[i].wire, k, r[j].pcbs[k].probe.id) == [] && r[i].nextId <= r[j].nextId
    decreases j
  {
    if i >= j {
    } else {
      ProbeIsNew(r, i, j - 1, k);
      assert Grows(r[j - 1], r[j - 1 + 1], k);
      if r[j].pcbs[k].probe.id != r[j - 1].pcbs[k].probe.id {
        TimesFresh(r[i].wire, k, r[j].pcbs[k].probe.id);
      }
    }
  }

  lemma RunPcbInv(r: seq<Server>, acts: seq<Action>, i: nat, k: PcbIndex)
    requires Run(r, acts) && i < |r|
    ensures PcbInv(r[i], k) && Numbered(r[i])
  {
    RunKeepsInv(r, acts, i);
  }

  lemma RunStep(r: seq<Server>, acts: seq<Action>, j: nat, k: PcbIndex)
    requires Run(r, acts) && j < |acts|
    requires IsProbing(r[j].pcbs[k].state) && r[j + 1].pcbs[k].state == Announce1
    ensures var t := Times(r[j + 1].wire, k, r[j].pcbs[k].probe.id); |t| >= 3 && WellTimed(t, r[j].pcbs[k].probe)
    ensures r[j].pcbs[k].probe.setUp + 120 <= r[j].pcbs[k].probe.due
  {
    RunPcbInv(r, acts, j, k);
    assert Enabled(r[j], acts[j]) && r[j + 1] == Apply(r[j], acts[j]);
    AnnounceStep(r[j], acts[j], k);
  }

  lemma RunProbeIsNew(r: seq<Server>, acts: seq<Action>, i: nat, j: nat, k: PcbIndex)
    requires Run(r, acts) && i <= j < |r| && r[i].pcbs[k].state == Probe1
    ensures Times(r[i].wire, k, r[j].pcbs[k].probe.id) == []
  {
    RunPcbInv(r, acts, i, k);
    RunGrows(r, acts, k);
    ProbeIsNew(r, i, j, k);
  }

  /** Probe `x` was sent three times or more, all after the wire read `before`, each at its time. */
  ghost predicate SentThrice(before: seq<Sent>, after: seq<Sent>, k: PcbIndex, x: Latest) {
    && Times(before, k, x.id) == []
    && |Times(after, k, x.id)| >= 3 && WellTimed(Times(after, k, x.id), x) && x.setUp + 120 <= x.due
  }

  /** A PCB that announces straight out of a probe state has sent its probe three times since it was in Probe1. */
  lemma ProbedAnnouncement(r: seq<Server>, acts: seq<Action>, i: nat, j: nat, k: PcbIndex) returns (x: Latest)
    requires Run(r, acts) && i <= j < |acts| && r[i].pcbs[k].state == Probe1
    requires IsProbing(r[j].pcbs[k].state) && r[j + 1].pcbs[k].state == Announce1
    ensures SentThrice(r[i].wire, r[j + 1].wire, k, x)
  {
    x := r[j].pcbs[k].probe;
    RunProbeIsNew(r, acts, i, j, k);
    RunStep(r, acts, j, k);
  }

  /** Not yet past probing: probing, stopped, or not started. */
  predicate NotPastProbing(st: State) {
    CountsAsProbing(st) || st == Off
  }

  /** Every step from such a state, or from Running. */
  ghost predicate QuietStep(s: Server, a: Action, t: Server, k: PcbIndex)
    requires Enabled(s, a)
  {
    var was, st := s.pcbs[k].state, t.pcbs[k].state;
    && (NotPastProbing(was) ==>
          && (st == Running <==> SkipsAnnouncement(s, a, k))
          && (st == Announce1 ==> was == Probe3)
          && (st != Announce1 && st != Running ==> NotPastProbing(st)))
    && (was == Running && st != Announce1 && st != Running ==> NotPastProbing(st))
  }

  lemma HandledQuiet(s: Server, allocOk: bool, k: PcbIndex)
    requires Enabled(s, HandleHead(allocOk))
    ensures QuietStep(s, HandleHead(allocOk), Handled(s, allocOk), k)
  {
    HandledPcbs(s, allocOk);
    var j := s.queue[0].pcb;
    assert Handled(s, allocOk).pcbs[k] == if j == k then PcbAfter(s.pcbs[k], allocOk) else s.pcbs[k];
  }

  lemma ProbedTo(s: Server, j: PcbIndex, services: seq<nat>, ip: bool, outcome: Outcome, jitter: nat, k: PcbIndex)
    ensures var st := Probed(s, j, services, ip, outcome, jitter).pcbs[k].state;
      st == if j != k then s.pcbs[k].state else if !s.named then Running else if outcome.Built? then Probe1 else s.pcbs[k].state
  {
  }

  lemma AnnouncedQuiet(s: Server, j: PcbIndex, services: seq<nat>, ip: bool, outcome: Outcome, jitter: nat, k: PcbIndex)
    requires jitter < 128
    ensures QuietStep(s, Announce(j, services, ip, outcome, jitter), Announced(s, j, services, ip, outcome, jitter), k)
  {
    ProbedTo(s, j, services, ip, outcome, jitter, k);
  }

  lemma RemovedQuiet(s: Server, i: nat, service: nat, answersGone: bool, k: PcbIndex)
    requires i < |s.queue|
    ensures var a := RemoveService(i, service, answersGone); QuietStep(s, a, Apply(s, a), k)
  {
    var pcb := s.pcbs[s.queue[i].pcb];
    if |pcb.services| == 1 && service in pcb.services {
      assert pcb.services == [service];
    }
  }

  /** The probe states and the stopped ones are left for Running by the short cuts alone, for Announce1 from Probe3 alone. */
  lemma StepIsQuiet(s: Server, a: Action, k: PcbIndex)
    requires Enabled(s, a)
    ensures QuietStep(s, a, Apply(s, a), k)
  {
    match a
    case HandleHead(allocOk) => HandledQuiet(s, allocOk, k);
    case StartProbe(j, services, ip, outcome, jitter) => ProbedTo(s, j, services, ip, outcome, jitter, k);
    case Announce(j, services, ip, outcome, jitter) => AnnouncedQuiet(s, j, services, ip, outcome, jitter, k);
    case RemoveService(i, service, answersGone) => RemovedQuiet(s, i, service, answersGone, k);
    case Close(j) =>
    case SetState(j, st) =>
    case _ => StatesKept(s, a, k);
  }

  lemma RunIsQuiet(r: seq<Server>, acts: seq<Action>, m: nat, k: PcbIndex)
    requires Run(r, acts) && m < |acts|
    ensures Enabled(r[m], acts[m]) && QuietStep(r[m], acts[m], r[m + 1], k)
  {
    assert Enabled(r[m], acts[m]) && r[m + 1] == Apply(r[m], acts[m]);
    StepIsQuiet(r[m], acts[m], k);
  }

  predicate InState(r: seq<Server>, m: nat, k: PcbIndex, st: State) {
    m < |r| && r[m].pcbs[k].state == st
  }

  /** Step `m` takes a short cut to Running ... */
  ghost predicate SkipsAt(r: seq<Server>, acts: seq<Action>, m: nat, k: PcbIndex) {
    && m < |r| && m < |acts| && Enabled(r[m], acts[m])
    && SkipsAnnouncement(r[m], acts[m], k) && NotPastProbing(r[m].pcbs[k].state)
  }

  /** ... and the PCB stays there up to state `j`. */
  ghost predicate ShortCut(r: seq<Server>, acts: seq<Action>, m: nat, j: nat, k: PcbIndex) {
    m < j && SkipsAt(r, acts, m, k) && forall n | m < n <= j :: InState(r, n, k, Running)
  }

  /** No announcement from state `i` up to state `j`. */
  ghost predicate NotYetAnnounced(r: seq<Server>, i: nat, j: nat, k: PcbIndex) {
    forall n | i <= n <= j :: !InState(r, n, k, Announce1)
  }

  lemma ShortCutGoesOn(r: seq<Server>, acts: seq<Action>, m: nat, j: nat, k: PcbIndex)
    requires InState(r, j + 1, k, Running)
    requires ShortCut(r, acts, m, j, k) || (m == j && SkipsAt(r, acts, m, k))
    ensures ShortCut(r, acts, m, j + 1, k)
  {
    forall n | m < n <= j + 1
      ensures InState(r, n, k, Running)
    {
    }
  }

  /** What step `m` means for a PCB that has not announced yet. */
  ghost predicate QuietAt(r: seq<Server>, acts: seq<Action>, m: nat, k: PcbIndex)
    requires m + 1 < |r|
  {
    var was, st := r[m].pcbs[k].state, r[m + 1].pcbs[k].state;
    && (NotPastProbing(was) || was == Running ==> st == Announce1 || st == Running || NotPastProbing(st))
    && (NotPastProbing(was) && st == Running ==> SkipsAt(r, acts, m, k))
  }

  lemma RunQuietAt(r: seq<Server>, acts: seq<Action>, m: nat, k: PcbIndex)
    requires Run(r, acts) && m < |acts|
    ensures QuietAt(r, acts, m, k)
  {
    RunIsQuiet(r, acts, m, k);
  }

  lemma {:induction false} QuietOrShortCut(r: seq<Server>, acts: seq<Action>, i: nat, j: nat,
      k: PcbIndex) returns (m: nat)
    requires i <= j < |r| && r[i].pcbs[k].state == Probe1 && NotYetAnnounced(r, i, j, k)
    requires forall n | i <= n < j :: QuietAt(r, acts, n, k)
    ensures NotPastProbing(r[j].pcbs[k].state) || r[j].pcbs[k].state == Running
    ensures r[j].pcbs[k].state == Running ==> i <= m && ShortCut(r, acts, m, j, k)
    decreases j
  {
    m := i;
    if i >= j {
    } else {
      assert !InState(r, j, k, Announce1);
      NotYetBefore(r, i, j, k);
      m := QuietOrShortCut(r, acts, i, j - 1, k);
      assert QuietAt(r, acts, j - 1, k);
      if NotPastProbing(r[j - 1].pcbs[k].state) {
        m := j - 1;
      }
      if r[j].pcbs[k].state == Running {
        ShortCutGoesOn(r, acts, m, j - 1, k);
      }
    }
  }

  /** Before the first announcement a PCB that was in Probe1 is probing or stopped, or came to Running by a short cut. */
  lemma ProbingOrShortCut(r: seq<Server>, acts: seq<Action>, i: nat, j: nat, k: PcbIndex) returns (m: nat)
    requires Run(r, acts) && i <= j < |r| && r[i].pcbs[k].state == Probe1 && NotYetAnnounced(r, i, j, k)
    ensures NotPastProbing(r[j].pcbs[k].state) || r[j].pcbs[k].state == Running
    ensures r[j].pcbs[k].state == Running ==> i <= m && ShortCut(r, acts, m, j, k)
  {
    forall n | i <= n < j
      ensures QuietAt(r, acts, n, k)
    {
      RunQuietAt(r, acts, n, k);
    }
    m := QuietOrShortCut(r, acts, i, j, k);
  }

  lemma NotYetBefore(r: seq<Server>, i: nat, j: nat, k: PcbIndex)
    requires i < j && NotYetAnnounced(r, i, j, k)
    ensures NotYetAnnounced(r, i, j - 1, k)
  {
  }

  /** A short cut that lasts up to state `j` leaves the PCB in Running there. */
  lemma ShortCutEnds(r: seq<Server>, acts: seq<Action>, m: nat, j: nat, k: PcbIndex)
    requires ShortCut(r, acts, m, j, k)
    ensures InState(r, j, k, Running)
  {
    assert InState(r, j, k, Running);
  }

  /**
   The first announcement after a PCB was in Probe1, in every run: with restarts, stops, reopenings,
   clears, host name changes and allocation failures in between. It comes straight out of Probe3, and
   then after three well-timed transmissions of one probe, if and only if the PCB was not brought to
   Running by a short cut and left there.
   */
  lemma FirstAnnouncement(r: seq<Server>, acts: seq<Action>, i: nat, j: nat, k: PcbIndex) returns (x: Latest, m: nat)
    requires Run(r, acts) && i <= j < |acts| && r[i].pcbs[k].state == Probe1
    requires NotYetAnnounced(r, i, j, k) && r[j + 1].pcbs[k].state == Announce1
    ensures r[j].pcbs[k].state == Probe3 || r[j].pcbs[k].state == Running
    ensures r[j].pcbs[k].state == Probe3 ==>
              SentThrice(r[i].wire, r[j + 1].wire, k, x) && forall n :: !ShortCut(r, acts, n, j, k)
    ensures r[j].pcbs[k].state == Running ==> i <= m && ShortCut(r, acts, m, j, k)
  {
    m := ProbingOrShortCut(r, acts, i, j, k);
    RunIsQuiet(r, acts, j, k);
    x := NO_PROBE;
    if r[j].pcbs[k].state == Probe3 {
      x := ProbedAnnouncement(r, acts, i, j, k);
      forall n | ShortCut(r, acts, n, j, k)
        ensures false
      {
        ShortCutEnds(r, acts, n, j, k);
      }
    }
  }

  /**
   Section 8.1 of RFC 6762 over every run: between Probe1 and the next announcement, whatever happens
   there, a PCB sends one probe packet at least three times, first more than its set-up delay of 120 ms
   or longer after it was set up, then each time more than 250 ms after the one before, provided no
   step takes a short cut: probing without a host name, or the removal of the last probed service
   while no address is probed.
   */
  lemma ThreeProbesBeforeAnnounce(r: seq<Server>, acts: seq<Action>, i: nat, j: nat, k: PcbIndex) returns (x: Latest)
    requires Run(r, acts) && i <= j < |acts| && r[i].pcbs[k].state == Probe1
    requires NotYetAnnounced(r, i, j, k) && r[j + 1].pcbs[k].state == Announce1
    requires forall m | i <= m <= j :: !SkipsAt(r, acts, m, k)
    ensures SentThrice(r[i].wire, r[j + 1].wire, k, x)
  {
    NoShortCut(r, acts, i, j, k);
    var m;
    x, m := FirstAnnouncement(r, acts, i, j, k);
  }

  lemma NoShortCut(r: seq<Server>, acts: seq<Action>, i: nat, j: nat, k: PcbIndex)
    requires forall m | i <= m <= j :: !SkipsAt(r, acts, m, k)
    ensures forall m | i <= m :: !ShortCut(r, acts, m, j, k)
  {
  }

  /** A named server whose PCB 0 is `pcb`, with queue `q`; the other PCBs are off. */
  function Lone(pcb: Pcb, q: seq<Packet>, n: nat): Server {
    Server([pcb] + seq(PCBS - 1, i => Pcb(Off, [], false, false, 0, false, NO_PROBE)), q, n, true, 0, n, [])
  }

  lemma LoneSet(pcb: Pcb, q: seq<Packet>, n: nat, x: Pcb)
    ensures SetPcb(Lone(pcb, q, n), 0, x) == Lone(x, q, n)
  {
    assert ([pcb] + seq(PCBS - 1, i => Pcb(Off, [], false, false, 0, false, NO_PROBE)))[0 := x] ==
           [x] + seq(PCBS - 1, i => Pcb(Off, [], false, false, 0, false, NO_PROBE));
  }

  /** The stages of the run below. */
  function Stage(i: nat): Server
    requires i <= 4
  {
    var probe := Packet(0, Probe, 0, 120, false, 0);
    if i == 0 then Lone(Pcb(Off, [], false, false, 0, false, NO_PROBE), [], 0)
    else if i == 1 then Lone(Pcb(Off, [], false, false, 0, true, NO_PROBE), [], 0)
    else if i == 2 then Lone(Pcb(Probe1, [7], false, true, 0, true, Latest(0, 0, 120)), [probe], 1)
    else Lone(Pcb(Running, [], false, false, 0, true, Latest(0, 0, 120)), if i == 3 then [probe] else [], 1)
  }

  lemma StageOpens()
    ensures Apply(Stage(0), Open(0, true)) == Stage(1)
  {
    LoneSet(Stage(0).pcbs[0], [], 0, Stage(1).pcbs[0]);
  }

  lemma StageFails()
    ensures Apply(Stage(1), StartProbe(0, [], true, PacketFail, 0)) == Stage(1)
  {
    var s := Stage(1);
    assert Cleared(s, 0) == s;
    LoneSet(s.pcbs[0], [], 0, s.pcbs[0]);
    assert ProbeAlso(s, 0, [], true, PacketFail, 0) == s;
  }

  lemma StageProbes()
    ensures Apply(Stage(1), StartProbe(0, [7], false, Built, 0)) == Stage(2)
  {
    var s := Stage(1);
    assert Cleared(s, 0) == s;
    var scheduled := Schedule(s.(nextId := 1), Packet(0, Probe, 0, 0, false, 0), 120);
    assert scheduled == Lone(s.pcbs[0], Stage(2).queue, 1);
    LoneSet(s.pcbs[0], Stage(2).queue, 1, Stage(2).pcbs[0]);
    assert ProbeAlso(s, 0, [7], false, Built, 0) == Stage(2);
  }

  lemma StageRemoves()
    ensures Apply(Stage(2), RemoveService(0, 7, false)) == Stage(3)
  {
    LoneSet(Stage(2).pcbs[0], Stage(2).queue, 1, Stage(3).pcbs[0]);
  }

  lemma StageDetaches()
    ensures Apply(Stage(3), Detach(0)) == Stage(4)
  {
    assert Stage(3).queue[..0] + Stage(3).queue[1..] == [];
  }

  lemma StageAnnounces(t: Server)
    requires t == Apply(Stage(4), Announce(0, [], true, Built, 0))
    ensures t.pcbs[0].state == Announce1 && t.wire == []
  {
  }

  /** A run goes on with any enabled action. */
  lemma RunSnoc(r: seq<Server>, acts: seq<Action>, a: Action, t: Server)
    requires Run(r, acts) && Enabled(r[|acts|], a) && t == Apply(r[|acts|], a)
    ensures Run(r + [t], acts + [a])
  {
    var r', acts' := r + [t], acts + [a];
    forall i | 0 <= i < |acts'|
      ensures Enabled(r'[i], acts'[i]) && r'[i + 1] == Apply(r'[i], acts'[i])
    {
      if i < |acts| {
        assert r'[i] == r[i] && r'[i + 1] == r[i + 1] && acts'[i] == acts[i];
      }
    }
  }

  /** Opened, its first probe not built for want of memory, then probing service 7. */
  lemma StagesProbing() returns (r: seq<Server>, acts: seq<Action>)
    ensures Run(r, acts) && |acts| == 3 && r[3] == Stage(2)
  {
    StageOpens();
    StageFails();
    StageProbes();
    r, acts := RunGoesOn([Stage(0)], [], Open(0, true), Stage(1));
    r, acts := RunGoesOn(r, acts, StartProbe(0, [], true, PacketFail, 0), Stage(1));
    r, acts := RunGoesOn(r, acts, StartProbe(0, [7], false, Built, 0), Stage(2));
  }

  lemma RunGoesOn(r: seq<Server>, acts: seq<Action>, a: Action, t: Server)
    returns (r': seq<Server>, acts': seq<Action>)
    requires Run(r, acts) && Enabled(r[|acts|], a) && t == Apply(r[|acts|], a)
    ensures Run(r', acts') && r' == r + [t] && acts' == acts + [a] && r'[|acts'|] == t
  {
    r', acts' := r + [t], acts + [a];
    RunSnoc(r, acts, a, t);
  }

  /** The service is removed with its packet, and an address event announces. */
  lemma StagesAnnouncing(r: seq<Server>, acts: seq<Action>)
    returns (r': seq<Server>, acts': seq<Action>)
    requires Run(r, acts) && |acts| == 3 && r[3] == Stage(2)
    ensures Run(r', acts') && |acts'| == 6 && r'[3] == Stage(2) && r'[4] == Stage(3)
    ensures acts'[3] == RemoveService(0, 7, false)
    ensures r'[6] == Apply(Stage(4), Announce(0, [], true, Built, 0))
  {
    StageRemoves();
    StageDetaches();
    r', acts' := RunGoesOn(r, acts, RemoveService(0, 7, false), Stage(3));
    r', acts' := RunGoesOn(r', acts', Detach(0), Stage(4));
    r', acts' := RunGoesOn(r', acts', Announce(0, [], true, Built, 0), Apply(Stage(4), Announce(0, [], true, Built, 0)));
  }

  lemma StageStates()
    ensures Stage(2).pcbs[0].state == Probe1 && Stage(3).pcbs[0].state == Running
    ensures Enabled(Stage(2), RemoveService(0, 7, false)) && SkipsAnnouncement(Stage(2), RemoveService(0, 7, false), 0)
  {
  }

  /**
   With a short cut the claim is false. An interface comes up but its first probe cannot be allocated;
   a service is added and probed, and removed before its probe was sent: the PCB drops to Running. The
   next event that announces, such as a new address or a TXT change, takes it to Announce1. Nothing at
   all was sent by then.
   */
  lemma AnnouncedWithoutProbing() returns (r: seq<Server>, acts: seq<Action>)
    ensures Run(r, acts) && |acts| == 6
    ensures r[3].pcbs[0].state == Probe1 && r[4].pcbs[0].state == Running && r[6].pcbs[0].state == Announce1
    ensures SkipsAt(r, acts, 3, 0) && r[6].wire == []
  {
    r, acts := StagesProbing();
    r, acts := StagesAnnouncing(r, acts);
    StageStates();
    StageAnnounces(r[6]);
  }

  // ----- The imperative responder -----

  /** `t` follows from `s` by the actions `acts`. */
  ghost predicate Chain(s: Server, acts: seq<Action>, t: Server)
    decreases |acts|
  {
    if acts == [] then s == t else Enabled(s, acts[0]) && Chain(Apply(s, acts[0]), acts[1..], t)
  }

  lemma {:induction false} ChainSnoc(s: Server, acts: seq<Action>, t: Server, a: Action)
    requires Chain(s, acts, t) && Enabled(t, a)
    ensures Chain(s, acts + [a], Apply(t, a))
    decreases |acts|
  {
    if acts == [] {
      assert [a][1..] == [];
    } else {
      ChainSnoc(Apply(s, acts[0]), acts[1..], t, a);
      assert (acts + [a])[1..] == acts[1..] + [a];
    }
  }

  /** The inner loop. */
  method Contains(ns: seq<nat>, x: nat) returns (found: bool)
    ensures found <==> x in ns
  {
    var i := 0;
    while i < |ns|
      invariant i <= |ns|
      invariant x !in ns[..i]
    {
      if ns[i] == x {
        return true;
      }
      i := i + 1;
    }
    return false;
  }

  lemma FreshFrom(services: seq<nat>, j: nat, probing: seq<nat>)
    requires j < |services|
    ensures Fresh(services[j..], probing) ==
            (if services[j] in probing then [] else [services[j]]) + Fresh(services[j + 1..], probing)
  {
    assert services[j..][1..] == services[j + 1..];
  }

  /** The elements of `services` that `pcb` is not probing yet, found by the two nested loops of the source. */
  method FreshServices(services: seq<nat>, probing: seq<nat>) returns (added: seq<nat>)
    ensures added == Fresh(services, probing)
  {
    added := [];
    var j := 0;
    while j < |services|
      invariant j <= |services|
      invariant added + Fresh(services[j..], probing) == Fresh(services, probing)
    {
      var found := Contains(probing, services[j]);
      FreshFrom(services, j, probing);
      if !found {
        added := added + [services[j]];
      }
      j := j + 1;
    }
  }

  predicate NoRepeats(a: seq<nat>) {
    forall i, j | 0 <= i < j < |a| :: a[i] != a[j]
  }

  /** What was being probed still is, at the end of the list, and what is new of `services` in front of it, in order. */
  ghost predicate ProbesAlso(was: Pcb, services: seq<nat>, probeIp: bool, pcb: Pcb) {
    var before := if CountsAsProbing(was.state) then was.services else [];
    && pcb.state == Probe1 && pcb.probeRunning && pcb.probeIp == (was.probeIp || probeIp)
    && pcb.failedProbes == was.failedProbes && pcb.ready == was.ready
    && (forall x :: x in pcb.services <==> x in services || x in before)
    && |before| <= |pcb.services| && pcb.services[|pcb.services| - |before|..] == before
    && (before == [] ==> pcb.services == services)
    && (NoRepeats(services) && NoRepeats(before) ==> NoRepeats(pcb.services))
  }

  /** The only packet of the PCB is the new probe, due after the delay: 120 ms, or a second after many failures, and some more. */
  predicate SendsOneProbe(q: seq<Packet>, k: PcbIndex, pcb: Pcb, now: nat, jitter: nat) {
    var mine := Of(q, k);
    && |mine| == 1 && mine[0].kind == Probe && mine[0].id == pcb.probe.id && !mine[0].queued
    && mine[0].sendAt == (now + (if pcb.failedProbes > 5 then 1000 else 120) + jitter) % 0x1_0000_0000
  }

  lemma {:induction false} FreshMembers(a: seq<nat>, b: seq<nat>)
    ensures forall x :: x in Fresh(a, b) <==> x in a && x !in b
  {
    if a == [] {
    } else {
      FreshMembers(a[1..], b);
    }
  }

  lemma {:induction false} FreshOfNothing(a: seq<nat>)
    ensures Fresh(a, []) == a
  {
    if a == [] {
    } else {
      FreshOfNothing(a[1..]);
    }
  }

  lemma {:induction false} FreshNoRepeats(a: seq<nat>, b: seq<nat>)
    requires NoRepeats(a)
    ensures NoRepeats(Fresh(a, b))
  {
    if a == [] {
    } else {
      assert forall i, j | 0 <= i < j < |a[1..]| :: a[1..][i] == a[i + 1] && a[1..][j] == a[j + 1];
      FreshNoRepeats(a[1..], b);
      FreshMembers(a[1..], b);
    }
  }

  /** The list probed after a start. */
  lemma MergedList(services: seq<nat>, before: seq<nat>)
    ensures var merged := Fresh(services, before) + before;
      && (forall x :: x in merged <==> x in services || x in before)
      && merged[|merged| - |before|..] == before && (before == [] ==> merged == services)
      && (NoRepeats(services) && NoRepeats(before) ==> NoRepeats(merged))
  {
    FreshMembers(services, before);
    if before == [] {
      FreshOfNothing(services);
      assert services + [] == services;
    }
    if NoRepeats(services) && NoRepeats(before) {
      FreshNoRepeats(services, before);
      NoRepeatsTogether(Fresh(services, before), before);
    }
  }

  lemma NoRepeatsTogether(a: seq<nat>, b: seq<nat>)
    requires NoRepeats(a) && NoRepeats(b) && forall x | x in a :: x !in b
    ensures NoRepeats(a + b)
  {
    var c := a + b;
    forall i, j | 0 <= i < j < |c|
      ensures c[i] != c[j]
    {
      if i < |a| <= j {
        assert c[i] in a && c[j] in b;
      }
    }
  }

  lemma ProbeMerges(s: Server, k: PcbIndex, services: seq<nat>, probeIp: bool, jitter: nat)
    requires s.named
    ensures ProbesAlso(s.pcbs[k], services, probeIp, Probed(s, k, services, probeIp, Built, jitter).pcbs[k])
  {
    var pcb := s.pcbs[k];
    var before := if CountsAsProbing(pcb.state) then pcb.services else [];
    MergedList(services, before);
    FreshOfNothing(services);
    assert services + [] == services;
    assert Probed(s, k, services, probeIp, Built, jitter).pcbs[k].services == Fresh(services, before) + before;
  }

  /** The probe packet as it stands in the queue. */
  function ProbePacket(s: Server, k: PcbIndex, jitter: nat): Packet {
    Packet(s.nextId, Probe, k, (s.now + ProbeDelay(s.pcbs[k], jitter)) % UINT32, false, s.stamps)
  }

  lemma ProbeQueued(s: Server, k: PcbIndex, services: seq<nat>, probeIp: bool, outcome: Outcome, jitter: nat)
    ensures Probed(s, k, services, probeIp, outcome, jitter).queue ==
            if s.named && outcome.Built? then Insert(Without(s.queue, k), ProbePacket(s, k, jitter)) else Without(s.queue, k)
  {
  }

  lemma ProbeNoted(s: Server, k: PcbIndex, services: seq<nat>, probeIp: bool, jitter: nat)
    requires s.named
    ensures var t := Probed(s, k, services, probeIp, Built, jitter);
      t.pcbs[k].probe.id == s.nextId && t.pcbs[k].failedProbes == s.pcbs[k].failedProbes
  {
  }

  lemma ProbeSends(s: Server, k: PcbIndex, services: seq<nat>, probeIp: bool, jitter: nat)
    requires s.named
    ensures var t := Probed(s, k, services, probeIp, Built, jitter); SendsOneProbe(t.queue, k, t.pcbs[k], s.now, jitter)
  {
    ProbeQueued(s, k, services, probeIp, Built, jitter);
    ProbeNoted(s, k, services, probeIp, jitter);
    WithoutOthers(s.queue, k, k);
    OfInsert(Without(s.queue, k), ProbePacket(s, k, jitter), k);
  }

  lemma ProbeLeavesOthers(s: Server, k: PcbIndex, services: seq<nat>, probeIp: bool, outcome: Outcome, jitter: nat,
                          j: PcbIndex)
    requires j != k
    ensures var t := Probed(s, k, services, probeIp, outcome, jitter);
      t.pcbs[j] == s.pcbs[j] && Of(t.queue, j) == Of(s.queue, j)
  {
    ProbePcbElsewhere(s, k, services, probeIp, outcome, jitter, j);
    ProbeQueued(s, k, services, probeIp, outcome, jitter);
    WithoutOthers(s.queue, k, j);
    OfInsert(Without(s.queue, k), ProbePacket(s, k, jitter), j);
  }

  lemma ProbePcbElsewhere(s: Server, k: PcbIndex, services: seq<nat>, probeIp: bool, outcome: Outcome, jitter: nat,
                          j: PcbIndex)
    requires j != k
    ensures Probed(s, k, services, probeIp, outcome, jitter).pcbs[j] == s.pcbs[j]
  {
  }

  /** A probe start, by what it leaves. */
  lemma ProbeStarts(s: Server, k: PcbIndex, services: seq<nat>, probeIp: bool, outcome: Outcome, jitter: nat)
    ensures var t := Probed(s, k, services, probeIp, outcome, jitter);
      && t.named == s.named
      && (!s.named ==> t.pcbs[k] == s.pcbs[k].(state := Running) && Of(t.queue, k) == [])
      && (s.named && outcome.Built? ==> ProbesAlso(s.pcbs[k], services, probeIp, t.pcbs[k]))
      && (s.named && outcome.Built? ==> SendsOneProbe(t.queue, k, t.pcbs[k], s.now, jitter))
      && (s.named && outcome.PacketFail? ==>
            t.pcbs[k] == s.pcbs[k].(probeIp := false, services := [], probeRunning := false))
      && (s.named && outcome.ServicesFail? ==> t.pcbs[k] == s.pcbs[k])
      && forall j: PcbIndex | j != k :: t.pcbs[j] == s.pcbs[j] && Of(t.queue, j) == Of(s.queue, j)
  {
    WithoutOthers(s.queue, k, k);
    ProbeQueued(s, k, services, probeIp, outcome, jitter);
    if s.named && outcome.Built? {
      ProbeMerges(s, k, services, probeIp, jitter);
      ProbeSends(s, k, services, probeIp, jitter);
    }
    forall j: PcbIndex | j != k
      ensures var t := Probed(s, k, services, probeIp, outcome, jitter);
        t.pcbs[j] == s.pcbs[j] && Of(t.queue, j) == Of(s.queue, j)
    {
      ProbeLeavesOthers(s, k, services, probeIp, outcome, jitter, j);
    }
  }

  /**
   An announcement: while probing it is a probe start; a PCB still announcing starts over if a packet of its
   own is waiting; a running one announces, at once if memory allows.
   */
  lemma AnnounceTells(s: Server, k: PcbIndex, services: seq<nat>, includeIp: bool, outcome: Outcome, jitter: nat)
    ensures var t := Announced(s, k, services, includeIp, outcome, jitter); var pcb := s.pcbs[k];
      && (!pcb.ready ==> t == s)
      && (pcb.ready && CountsAsProbing(pcb.state) ==> t == Probed(s, k, services, includeIp, outcome, jitter))
      && (pcb.ready && IsAnnouncing(pcb.state) ==>
            t.queue == s.queue && t.pcbs[k].state == if Of(s.queue, k) != [] then Announce1 else pcb.state)
      && (pcb.ready && pcb.state == Running && s.named ==>
            && t.pcbs[k].state == Announce1
            && multiset(t.queue) == multiset(s.queue) + (if outcome.Built? then multiset{
                 Packet(s.nextId, Announcement, k, s.now % 0x1_0000_0000, false, s.stamps)} else multiset{}))
      && (pcb.state == Running && !s.named ==> t == s)
  {
    if s.pcbs[k].ready && s.pcbs[k].state == Running && s.named {
      AnnouncesRunning(s, k, services, includeIp, outcome, jitter);
      InsertAddsOne(s.queue, Packet(s.nextId, Announcement, k, s.now % 0x1_0000_0000, false, s.stamps));
    }
  }

  lemma AnnouncesRunning(s: Server, k: PcbIndex, services: seq<nat>, includeIp: bool, outcome: Outcome, jitter: nat)
    requires s.pcbs[k].ready && s.pcbs[k].state == Running && s.named
    ensures var t := Announced(s, k, services, includeIp, outcome, jitter);
      && t.pcbs[k].state == Announce1
      && t.queue == (if outcome.Built? then
                       Insert(s.queue, Packet(s.nextId, Announcement, k, s.now % 0x1_0000_0000, false, s.stamps))
                     else s.queue)
  {
  }

  lemma {:induction false} RemoveFirstMembers(a: seq<nat>, x: nat)
    requires NoRepeats(a)
    ensures forall y :: y in RemoveFirst(a, x) <==> y in a && y != x
    ensures NoRepeats(RemoveFirst(a, x)) && |RemoveFirst(a, x)| == |a| - (if x in a then 1 else 0)
  {
    if a == [] {
    } else {
      assert forall i, j | 0 <= i < j < |a[1..]| :: a[1..][i] == a[i + 1] && a[1..][j] == a[j + 1];
      RemoveFirstMembers(a[1..], x);
      assert a[0] !in a[1..];
      assert forall y :: y in a <==> y == a[0] || y in a[1..];
    }
  }

  /** Removing a service takes it, and nothing else, out of what is probed; the probing ends with the last of it. */
  lemma RemovalTells(pcb: Pcb, service: nat, answersGone: bool)
    requires pcb.ready && CountsAsProbing(pcb.state) && NoRepeats(pcb.services)
    ensures var t := ServiceRemoved(pcb, service, answersGone);
      && (forall x :: x in t.services <==> x in pcb.services && x != service)
      && (pcb.services == [service] && !pcb.probeIp ==> t.state == Running && !t.probeRunning)
      && (!(pcb.services == [service] && !pcb.probeIp) ==> t == pcb.(services := t.services))
  {
    RemoveFirstMembers(pcb.services, service);
  }

  /** The state a PCB goes to when its packet is sent. */
  function NextState(st: State, allocOk: bool): State {
    match st
    case Probe1 => Probe2
    case Probe2 => Probe3
    case Probe3 => if allocOk then Announce1 else Probe3
    case Announce1 => Announce2
    case Announce2 => Announce3
    case Announce3 => Running
    case _ => st
  }

  /** How many milliseconds later a packet follows, if one does: the same again, or the first announcement. */
  function FollowsAfter(st: State): nat {
    match st
    case Probe1 => 250
    case Probe2 => 250
    case Probe3 => 250
    case Announce1 => 1000
    case Announce2 => 1000
    case _ => 0
  }

  /** The packet that follows the head: a fresh announcement in place of the third probe, and else the head itself. */
  function Following(s: Server, allocOk: bool): Packet
    requires s.queue != []
  {
    var p := s.queue[0];
    var at := (s.now + FollowsAfter(s.pcbs[p.pcb].state)) % 0x1_0000_0000;
    if s.pcbs[p.pcb].state == Probe3 && allocOk then Packet(s.nextId, Announcement, p.pcb, at, false, s.stamps)
    else p.(queued := false, sendAt := at, stamp := s.stamps)
  }

  /** The head of the queue has been dealt with: dropped if its PCB is off, and else sent, and its PCB moved on. */
  ghost predicate HandledAs(s: Server, allocOk: bool, t: Server)
    requires s.queue != []
  {
    var p := s.queue[0];
    var st := s.pcbs[p.pcb].state;
    && t.wire == (if st == Off then s.wire else s.wire + [Sent(p.id, p.pcb, s.now)])
    && multiset(t.queue) == multiset(s.queue[1..]) +
                            (if FollowsAfter(st) > 0 then multiset{Following(s, allocOk)} else multiset{})
    && t.pcbs == s.pcbs[p.pcb := t.pcbs[p.pcb]] && t.now == s.now && t.named == s.named
    && MovesOn(s.pcbs[p.pcb], allocOk, t.pcbs[p.pcb])
  }

  /** A PCB whose packet was sent: its probing is over with the announcement, and else only its state changes. */
  predicate MovesOn(was: Pcb, allocOk: bool, pcb: Pcb) {
    && pcb.state == NextState(was.state, allocOk)
    && (if was.state == Probe3 && allocOk then
          pcb.services == [] && !pcb.probeIp && !pcb.probeRunning && pcb.failedProbes == 0 && pcb.ready == was.ready
        else pcb == was.(state := pcb.state))
  }

  lemma HandledQueue(s: Server, allocOk: bool)
    requires s.queue != []
    ensures Handled(s, allocOk).queue ==
            if FollowsAfter(s.pcbs[s.queue[0].pcb].state) > 0 then Insert(s.queue[1..], Following(s, allocOk)) else s.queue[1..]
  {
  }

  lemma AfterMovesOn(was: Pcb, allocOk: bool)
    ensures MovesOn(was, allocOk, PcbAfter(was, allocOk))
  {
  }

  lemma HandledWire(s: Server, allocOk: bool)
    requires s.queue != []
    ensures var t := Handled(s, allocOk); var p := s.queue[0];
      && t.wire == (if s.pcbs[p.pcb].state == Off then s.wire else s.wire + [Sent(p.id, p.pcb, s.now)])
      && t.now == s.now && t.named == s.named
  {
  }

  lemma HandlesHead(s: Server, allocOk: bool)
    requires s.queue != []
    ensures HandledAs(s, allocOk, Handled(s, allocOk))
  {
    HandledQueue(s, allocOk);
    HandledPcbs(s, allocOk);
    AfterMovesOn(s.pcbs[s.queue[0].pcb], allocOk);
    HandledWire(s, allocOk);
    InsertAddsOne(s.queue[1..], Following(s, allocOk));
  }

  class Responder {
    var pcbs: Pcbs
    const queue: Queue
    var named: bool
    var now: nat
    var nextId: nat
    ghost var wire: seq<Sent>

    ghost function View(): Server
      reads this, queue
    {
      Server(pcbs, queue.packets, queue.stamps, named, now, nextId, wire)
    }

    ghost predicate Valid()
      reads this, queue
    {
      queue.Valid()
    }

    constructor ()
      ensures Valid() && fresh(queue) && Start(View())
    {
      pcbs := seq(PCBS, i => Pcb(Off, [], false, false, 0, false, NO_PROBE));
      queue := new Queue();
      named, now, nextId := false, 0, 0;
      wire := [];
    }

    /** _mdns_init_pcb_probe_new_service. */
    method InitProbeNewService(k: PcbIndex, services: seq<nat>, probeIp: bool, outcome: Outcome, jitter: nat)
      requires Valid()
      modifies this, queue
      ensures Valid() && View() == ProbeAlso(old(View()), k, services, probeIp, outcome, jitter)
    {
      if outcome.ServicesFail? {
        return;
      }
      var pcb := pcbs[k];
      var merged := if CountsAsProbing(pcb.state) then services + pcb.services else services;
      var ip := pcb.probeIp || probeIp;
      pcb := pcb.(probeIp := false, services := [], probeRunning := false);
      if outcome.PacketFail? {
        pcbs := pcbs[k := pcb];
        return;
      }
      pcb := pcb.(probeIp := ip, services := merged, probeRunning := true, state := Probe1);
      SendProbe(k, pcb, ProbeDelay(pcb, jitter));
    }

    /** The probe packet is scheduled and noted in the PCB. */
    method SendProbe(k: PcbIndex, pcb: Pcb, delay: nat)
      requires Valid()
      modifies this`pcbs, this`nextId, queue
      ensures Valid()
      ensures View() == SetPcb(Schedule(old(View()).(nextId := old(nextId) + 1), Packet(old(nextId), Probe, k, 0, false, 0), delay),
                               k, pcb.(probe := Latest(old(nextId), now, now + delay)))
    {
      queue.Schedule(Packet(nextId, Probe, k, 0, false, 0), now, delay);
      pcbs := pcbs[k := pcb.(probe := Latest(nextId, now, now + delay))];
      nextId := nextId + 1;
    }

    /** _mdns_init_pcb_probe. */
    method InitProbe(k: PcbIndex, services: seq<nat>, probeIp: bool, outcome: Outcome, jitter: nat)
      requires Valid() && jitter < 128
      modifies this, queue
      ensures Valid() && View() == Probed(old(View()), k, services, probeIp, outcome, jitter)
      ensures !named ==> pcbs[k] == old(pcbs[k]).(state := Running) && Of(queue.packets, k) == []
      ensures named && outcome.Built? ==> ProbesAlso(old(pcbs[k]), services, probeIp, pcbs[k])
      ensures named && outcome.Built? ==> SendsOneProbe(queue.packets, k, pcbs[k], old(now), jitter)
      ensures named && outcome.PacketFail? ==>
                pcbs[k] == old(pcbs[k]).(probeIp := false, services := [], probeRunning := false)
      ensures named && outcome.ServicesFail? ==> pcbs[k] == old(pcbs[k])
      ensures forall j: PcbIndex | j != k :: pcbs[j] == old(pcbs[j]) && Of(queue.packets, j) == Of(old(queue.packets), j)
    {
      ProbeStarts(View(), k, services, probeIp, outcome, jitter);
      queue.ClearPcb(k);
      if !named {
        pcbs := pcbs[k := pcbs[k].(state := Running)];
      } else if CountsAsProbing(pcbs[k].state) {
        var added := FreshServices(services, pcbs[k].services);
        InitProbeNewService(k, added, probeIp, outcome, jitter);
      } else {
        InitProbeNewService(k, services, probeIp, outcome, jitter);
      }
    }

    /** Schedule `p` again and step its PCB to `st`. */
    method ScheduleAgain(p: Packet, ms: nat, st: State)
      requires Valid()
      modifies this`pcbs, queue
      ensures Valid() && View() == Repeat(old(View()), p, ms, st)
    {
      queue.Schedule(p, now, ms);
      pcbs := pcbs[p.pcb := pcbs[p.pcb].(state := st)];
    }

    /** The announcement made from a probe takes over. */
    method AnnounceFromProbe(k: PcbIndex)
      requires Valid()
      modifies this, queue
      ensures Valid() && View() == Promote(old(View()), k)
    {
      pcbs := pcbs[k := pcbs[k].(probeRunning := false, probeIp := false, services := [], failedProbes := 0)];
      var p := Packet(nextId, Announcement, k, 0, false, 0);
      nextId := nextId + 1;
      queue.Schedule(p, now, 250);
      pcbs := pcbs[k := pcbs[k].(state := Announce1)];
    }

    /** ACTION_TX_HANDLE with _mdns_tx_handle_packet for the head of the queue. */
    method TxHandlePacket(allocOk: bool)
      requires Valid() && Enabled(View(), HandleHead(allocOk))
      modifies this, queue
      ensures Valid() && View() == Handled(old(View()), allocOk)
      ensures HandledAs(old(View()), allocOk, View())
    {
      HandlesHead(View(), allocOk);
      var p := queue.PopHead();
      p := p.(queued := false);
      var k := p.pcb;
      if pcbs[k].state == Off {
        return;
      }
      wire := wire + [Sent(p.id, k, now)];
      match pcbs[k].state
      case Probe1 => ScheduleAgain(p, 250, Probe2);
      case Probe2 => ScheduleAgain(p, 250, Probe3);
      case Probe3 =>
        if allocOk {
          AnnounceFromProbe(k);
        } else {
          ScheduleAgain(p, 250, Probe3);
        }
      case Announce1 => ScheduleAgain(p, 1000, Announce2);
      case Announce2 => ScheduleAgain(p, 1000, Announce3);
      case Announce3 => pcbs := pcbs[k := pcbs[k].(state := Running)];
      case _ =>
    }

    /**
     _mdns_scheduler_run: packets `first` to `last` are marked, or unmarked when the action queue refuses
     them. `first` is the first unmarked packet; the run ends at the first packet that is not due, or when
     memory runs out after `budget` marks. The clock is read for each packet i, `elapsed[i]` after the
     reading before.
     */
    method SchedulerRun(elapsed: seq<nat>, pushed: seq<bool>, budget: nat) returns (first: nat, last: nat)
      requires Valid() && |elapsed| == |pushed| == |queue.packets|
      modifies this`now, queue
      ensures Valid() && first <= last <= |old(queue.packets)| && last - first <= budget
      ensures forall i | 0 <= i < first :: old(queue.packets)[i].queued
      ensures first < |old(queue.packets)| ==> !old(queue.packets)[first].queued
      ensures AllDue(old(queue.packets), elapsed, old(now), first, last)
      ensures last < |old(queue.packets)| && last - first < budget ==> !Due(old(queue.packets)[last].sendAt, now)
      ensures View() == Scheduled(old(View()), elapsed, pushed, first, last)
    {
      first := 0;
      while first < |queue.packets| && queue.packets[first].queued
        invariant first <= |queue.packets|
        invariant forall i | 0 <= i < first :: queue.packets[i].queued
      {
        first := first + 1;
      }
      last := first;
      while last < |queue.packets|
        invariant first <= last <= |queue.packets| == |old(queue.packets)| && last - first <= budget && queue.Valid()
        invariant queue.packets == Marked(old(queue.packets), pushed, first, last)
        invariant queue.stamps == old(queue.stamps)
        invariant now == ClockAt(old(now), elapsed, first, last)
        invariant AllDue(old(queue.packets), elapsed, old(now), first, last)
        decreases |queue.packets| - last
      {
        MarkedAt(old(queue.packets), pushed, first, last, last);
        now := now + elapsed[last];
        if !Due(queue.packets[last].sendAt, now) || last - first >= budget {
          break;
        }
        queue.SetQueued(last, pushed[last]);
        last := last + 1;
      }
    }
  }

  /** The clock from `start` on, after the readings `first` to `n`. */
  function ClockAt(start: nat, elapsed: seq<nat>, first: nat, n: nat): nat
    requires n <= |elapsed|
  {
    if n <= first then start else ClockAt(start, elapsed, first, n - 1) + elapsed[n - 1]
  }

  /** Packets `first` to `n` marked as far as the action queue takes them. */
  function Marked(q: seq<Packet>, pushed: seq<bool>, first: nat, n: nat): (t: seq<Packet>)
    requires n <= |q| == |pushed|
    ensures |t| == |q|
  {
    if n <= first then q
    else
      var t := Marked(q, pushed, first, n - 1);
      t[n - 1 := t[n - 1].(queued := pushed[n - 1])]
  }

  lemma {:induction false} MarkedAt(q: seq<Packet>, pushed: seq<bool>, first: nat, n: nat, i: nat)
    requires n <= |q| == |pushed| && i < |q|
    ensures Marked(q, pushed, first, n)[i] == q[i].(queued := if first <= i < n then pushed[i] else q[i].queued)
  {
    if n <= first {
    } else {
      MarkedAt(q, pushed, first, n - 1, i);
    }
  }

  /** Each of them was due when its turn came. */
  predicate AllDue(q: seq<Packet>, elapsed: seq<nat>, start: nat, first: nat, n: nat)
    requires n <= |q| == |elapsed|
  {
    forall i | first <= i < n :: Due(q[i].sendAt, ClockAt(start, elapsed, first, i + 1))
  }

  /** What a timer run leaves; the clock is also read for the packet that ends it. */
  function Scheduled(s: Server, elapsed: seq<nat>, pushed: seq<bool>, first: nat, last: nat): Server
    requires last <= |s.queue| == |elapsed| == |pushed|
  {
    s.(now := ClockAt(s.now, elapsed, first, Min(last + 1, |s.queue|)), queue := Marked(s.queue, pushed, first, last))
  }

  function Turned(s: Server, elapsed: seq<nat>, pushed: seq<bool>, first: nat, n: nat): Server
    requires n <= |s.queue| == |elapsed| == |pushed|
  {
    s.(now := ClockAt(s.now, elapsed, first, n), queue := Marked(s.queue, pushed, first, n))
  }

  lemma {:induction false} TurnsAreChain(s: Server, elapsed: seq<nat>, pushed: seq<bool>, first: nat, n: nat)
    returns (acts: seq<Action>)
    requires n <= |s.queue| == |elapsed| == |pushed| && AllDue(s.queue, elapsed, s.now, first, n)
    ensures Chain(s, acts, Turned(s, elapsed, pushed, first, n))
  {
    if n <= first {
      acts := [];
    } else {
      acts := TurnsAreChain(s, elapsed, pushed, first, n - 1);
      var t := Turned(s, elapsed, pushed, first, n - 1);
      MarkedAt(s.queue, pushed, first, n - 1, n - 1);
      ChainSnoc(s, acts, t, Tick(elapsed[n - 1]));
      ChainSnoc(s, acts + [Tick(elapsed[n - 1])], Apply(t, Tick(elapsed[n - 1])), MarkQueued(n - 1, pushed[n - 1]));
      acts := acts + [Tick(elapsed[n - 1])] + [MarkQueued(n - 1, pushed[n - 1])];
    }
  }

  /** A timer run is a chain of the protocol's steps. */
  lemma SchedulerRunIsChain(s: Server, elapsed: seq<nat>, pushed: seq<bool>, first: nat, last: nat)
    returns (acts: seq<Action>)
    requires first <= last <= |s.queue| == |elapsed| == |pushed| && AllDue(s.queue, elapsed, s.now, first, last)
    ensures Chain(s, acts, Scheduled(s, elapsed, pushed, first, last))
  {
    acts := TurnsAreChain(s, elapsed, pushed, first, last);
    if last < |s.queue| {
      ChainSnoc(s, acts, Turned(s, elapsed, pushed, first, last), Tick(elapsed[last]));
      acts := acts + [Tick(elapsed[last])];
    }
  }
}
