/** Load classification at the end of a supervisor pass (main/ntrip_runtime.c). */
module Qos {
  import opened Numbers

  const LWIP_MAX_SOCKETS: nat := 10
  const HEAP_DEGRADED: nat := 96 * 1024
  const HEAP_CRITICAL: nat := 64 * 1024
  const HEAP_SAFE: nat := 48 * 1024
  const RING_DEGRADED: nat := 2048 * 3 / 4
  const RING_CRITICAL: nat := 2048 * 9 / 10
  const DROP_WINDOW_US: int := 15_000_000

  datatype Level = Normal | Degraded | Critical

  /** What the supervisor remembers between passes. */
  datatype Monitor = Monitor(level: Level, droppedSeen: nat, lastDropUs: int, rawConsole: bool, fakeStop: bool)

  function InitMonitor(): Monitor { Monitor(Normal, 0, 0, true, false) }

  predicate SafeMode(heap: nat) { heap < HEAP_SAFE }

  predicate IsCritical(heap: nat, sockets: nat, used: nat, high: nat, recentDrop: bool) {
    SafeMode(heap) || heap < HEAP_CRITICAL || sockets >= LWIP_MAX_SOCKETS - 1
    || used >= RING_CRITICAL || high >= RING_CRITICAL || recentDrop
  }

  predicate IsDegraded(heap: nat, sockets: nat, used: nat, high: nat) {
    heap < HEAP_DEGRADED || sockets >= LWIP_MAX_SOCKETS - 2 || used >= RING_DEGRADED || high >= RING_DEGRADED
  }

  function Classify(heap: nat, sockets: nat, used: nat, high: nat, recentDrop: bool): Level {
    if IsCritical(heap, sockets, used, high, recentDrop) then Critical
    else if IsDegraded(heap, sockets, used, high) then Degraded
    else Normal
  }

  /** The end of a pass. */
  function Update(m: Monitor, heap: nat, sockets: nat, used: nat, high: nat, dropped: nat, now: int): Monitor {
    var seen := Max(dropped, m.droppedSeen);
    var last := if dropped > m.droppedSeen then now else m.lastDropUs;
    var recent := last > 0 && now - last <= DROP_WINDOW_US;
    var level := Classify(heap, sockets, used, high, recent);
    Monitor(level, seen, last, level != Critical, m.fakeStop || level == Critical)
  }

  /** The thresholds, one by one. */
  lemma ClassifyIs(heap: nat, sockets: nat, used: nat, high: nat, recentDrop: bool)
    ensures Classify(heap, sockets, used, high, recentDrop) == Critical <==>
            heap < 65536 || sockets >= 9 || used >= 1843 || high >= 1843 || recentDrop
    ensures Classify(heap, sockets, used, high, recentDrop) == Normal <==>
            heap >= 98304 && sockets < 8 && used < 1536 && high < 1536 && !recentDrop
  {
  }

  /** What one pass sampled, and when. */
  datatype Sample = Sample(heap: nat, sockets: nat, used: nat, high: nat, dropped: nat, now: int)

  function After(samples: seq<Sample>): Monitor {
    if samples == [] then InitMonitor()
    else
      var x := samples[|samples| - 1];
      Update(After(samples[..|samples| - 1]), x.heap, x.sockets, x.used, x.high, x.dropped, x.now)
  }

  /** Pass `k` saw more drops than every pass before it, and more than none. */
  predicate SeesDrop(samples: seq<Sample>, k: nat) {
    k < |samples| && samples[k].dropped > 0 && forall j | 0 <= j < k :: samples[j].dropped < samples[k].dropped
  }

  /** Time goes on from pass to pass, and starts after zero. */
  predicate Timed(samples: seq<Sample>) {
    forall j, k | 0 <= j <= k < |samples| :: 0 < samples[j].now <= samples[k].now
  }

  /** Some pass no more than 15 s ago saw a new drop. */
  ghost predicate DropWithin15s(samples: seq<Sample>) {
    exists k: nat :: SeesDrop(samples, k) && samples[|samples| - 1].now - samples[k].now <= 15_000_000
  }

  /** The monitor remembers the most drops seen, and when they were first seen. */
  ghost predicate Remembers(samples: seq<Sample>, m: Monitor) {
    && (forall j | 0 <= j < |samples| :: samples[j].dropped <= m.droppedSeen)
    && (if m.droppedSeen == 0 then m.lastDropUs == 0
        else exists k: nat :: SeesDrop(samples, k) && samples[k].dropped == m.droppedSeen && samples[k].now == m.lastDropUs)
  }

  lemma SeesDropBefore(samples: seq<Sample>, k: nat)
    requires samples != [] && k < |samples| - 1
    ensures SeesDrop(samples, k) <==> SeesDrop(samples[..|samples| - 1], k)
  {
    var front := samples[..|samples| - 1];
    assert forall j | 0 <= j <= k :: front[j] == samples[j];
  }

  lemma {:induction false} MonitorRemembers(samples: seq<Sample>)
    ensures Remembers(samples, After(samples))
  {
    if samples == [] {
    } else {
      var n := |samples| - 1;
      var front, m := samples[..n], After(samples[..n]);
      MonitorRemembers(front);
      assert forall j | 0 <= j < n :: front[j] == samples[j];
      if samples[n].dropped > m.droppedSeen {
        assert SeesDrop(samples, n);
      } else if m.droppedSeen > 0 {
        var k: nat :| SeesDrop(front, k) && front[k].dropped == m.droppedSeen && front[k].now == m.lastDropUs;
        SeesDropBefore(samples, k);
        assert SeesDrop(samples, k) && samples[k].dropped == m.droppedSeen;
      }
    }
  }

  /** A pass that sees a new drop is the last to do so once its total is the most seen. */
  lemma LatestDrop(samples: seq<Sample>, m: Monitor, k: nat)
    requires Remembers(samples, m) && Timed(samples) && SeesDrop(samples, k)
    ensures m.droppedSeen > 0 && samples[k].now <= m.lastDropUs
  {
    var top: nat :| SeesDrop(samples, top) && samples[top].dropped == m.droppedSeen && samples[top].now == m.lastDropUs;
    assert k <= top;
  }

  /**
   Over any sequence of passes: the last one ends CRITICAL if and only if memory, sockets or buffers are, or
   some pass of the last 15 s saw more drops than ever before; the raw console is on if and only if it did
   not.
   */
  lemma PassVerdict(samples: seq<Sample>)
    requires samples != [] && Timed(samples)
    ensures var x := samples[|samples| - 1]; var m := After(samples);
      && (m.level == Critical <==>
            x.heap < 65536 || x.sockets >= 9 || x.used >= 1843 || x.high >= 1843 || DropWithin15s(samples))
      && (m.rawConsole <==> m.level != Critical)
  {
    var n := |samples| - 1;
    var x, m := samples[n], After(samples);
    MonitorRemembers(samples);
    var recent := m.lastDropUs > 0 && x.now - m.lastDropUs <= DROP_WINDOW_US;
    ClassifyIs(x.heap, x.sockets, x.used, x.high, recent);
    RecentIff(samples, m);
  }

  lemma RecentIff(samples: seq<Sample>, m: Monitor)
    requires samples != [] && Timed(samples) && Remembers(samples, m)
    ensures m.lastDropUs > 0 && samples[|samples| - 1].now - m.lastDropUs <= 15_000_000 <==> DropWithin15s(samples)
  {
    var now := samples[|samples| - 1].now;
    if DropWithin15s(samples) {
      var k: nat :| SeesDrop(samples, k) && now - samples[k].now <= 15_000_000;
      LatestDrop(samples, m, k);
    }
    if m.lastDropUs > 0 && now - m.lastDropUs <= 15_000_000 {
      var top: nat :| SeesDrop(samples, top) && samples[top].dropped == m.droppedSeen && samples[top].now == m.lastDropUs;
    }
  }

  /** As far as the passes go, the fake source has been told to stop if and only if one of them ended CRITICAL. */
  lemma {:induction false} FakeStopsIff(samples: seq<Sample>)
    ensures After(samples).fakeStop <==> EndedCritical(samples)
  {
    if samples == [] {
    } else {
      var n := |samples|;
      var front := samples[..n - 1];
      FakeStopsIff(front);
      assert samples[..n] == samples;
      assert forall k | 0 < k <= n - 1 :: front[..k] == samples[..k];
      if EndedCritical(front) {
        var k :| 0 < k <= |front| && After(front[..k]).level == Critical;
        assert After(samples[..k]).level == Critical;
      }
      if EndedCritical(samples) {
        var k :| 0 < k <= n && After(samples[..k]).level == Critical;
        assert k < n ==> After(front[..k]).level == Critical;
      }
    }
  }

  /** Some pass ended CRITICAL. */
  ghost predicate EndedCritical(samples: seq<Sample>) {
    exists k :: 0 < k <= |samples| && After(samples[..k]).level == Critical
  }

  function Rank(l: Level): nat {
    match l case Normal => 0 case Degraded => 1 case Critical => 2
  }

  /** Less heap, more sockets, fuller buffers or a recent drop never improve the level. */
  lemma ClassifyMonotone(heap: nat, sockets: nat, used: nat, high: nat, drop: bool,
                         heap': nat, sockets': nat, used': nat, high': nat, drop': bool)
    requires heap' <= heap && sockets' >= sockets && used' >= used && high' >= high && (drop ==> drop')
    ensures Rank(Classify(heap, sockets, used, high, drop)) <= Rank(Classify(heap', sockets', used', high', drop'))
  {
  }
}
