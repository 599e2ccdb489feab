/**
 The mDNS transmit queue of managed_components/espressif__mdns/mdns.c: packets in a list sorted by
 a 32-bit send time, inserted behind equal times, and cleared per interface and protocol.
 */
module TxQueue {
  const UINT32: nat := 0x1_0000_0000

  datatype Kind = Probe | Announcement | Answer

  /** Three interfaces with two IP protocols each; `2 * interface + protocol` names a PCB. */
  const PCBS: nat := 6
  type PcbIndex = k: nat | k < PCBS

  /** A scheduled packet; `stamp` numbers schedulings. */
  datatype Packet = Packet(id: nat, kind: Kind, pcb: PcbIndex, sendAt: nat, queued: bool, stamp: nat)

  /** `a` leaves the queue before `b`: earlier send time or, at equal times, scheduled earlier. */
  predicate Before(a: Packet, b: Packet) {
    a.sendAt < b.sendAt || (a.sendAt == b.sendAt && a.stamp < b.stamp)
  }

  /** Sorted by send time, and among equal times by order of scheduling. */
  ghost predicate Ordered(q: seq<Packet>) {
    forall i, j | 0 <= i < j < |q| :: Before(q[i], q[j])
  }

  /** Every stamp in the queue is below `n`. */
  ghost predicate Stamped(q: seq<Packet>, n: nat) {
    forall i | 0 <= i < |q| :: q[i].stamp < n
  }

  /** Insertion before the first packet that is due later. */
  function Insert(q: seq<Packet>, p: Packet): (r: seq<Packet>)
    ensures |r| == |q| + 1
  {
    if q == [] || q[0].sendAt > p.sendAt then [p] + q else [q[0]] + Insert(q[1..], p)
  }

  /** Where `Insert` puts the packet: the rest of the queue keeps its order around it. */
  lemma {:induction false} InsertSplits(q: seq<Packet>, p: Packet) returns (k: nat)
    ensures k <= |q| && Insert(q, p) == q[..k] + [p] + q[k..]
    ensures forall i | 0 <= i < k :: q[i].sendAt <= p.sendAt
    ensures k < |q| ==> q[k].sendAt > p.sendAt
  {
    if q == [] || q[0].sendAt > p.sendAt {
      k := 0;
    } else {
      var j := InsertSplits(q[1..], p);
      k := j + 1;
      assert q[..k] == [q[0]] + q[1..][..j] && q[k..] == q[1..][j..];
    }
  }

  /** A packet stamped later than everything queued lands behind all equal times; the order survives. */
  lemma InsertKeepsOrder(q: seq<Packet>, p: Packet)
    requires Ordered(q) && Stamped(q, p.stamp)
    ensures Ordered(Insert(q, p)) && Stamped(Insert(q, p), p.stamp + 1)
  {
    var k := InsertSplits(q, p);
    var r := q[..k] + [p] + q[k..];
    forall i | 0 <= i < |r|
      ensures r[i] == (if i < k then q[i] else if i == k then p else q[i - 1])
    {
    }
    forall j | k <= j < |q|
      ensures Before(p, q[j])
    {
      assert j == k || Before(q[k], q[j]);
    }
  }

  /** Scheduling adds the one packet and loses none. */
  lemma InsertAddsOne(q: seq<Packet>, p: Packet)
    ensures multiset(Insert(q, p)) == multiset(q) + multiset{p}
  {
    var k := InsertSplits(q, p);
    assert q == q[..k] + q[k..];
    OneBetween(q[..k], p, q[k..]);
  }

  lemma OneBetween(a: seq<Packet>, p: Packet, b: seq<Packet>)
    ensures multiset(a + [p] + b) == multiset(a + b) + multiset{p}
  {
  }

  /** The packets of other interfaces and protocols, in order. */
  function Without(q: seq<Packet>, pcb: PcbIndex): seq<Packet> {
    if q == [] then [] else (if q[0].pcb == pcb then [] else [q[0]]) + Without(q[1..], pcb)
  }

  function Of(q: seq<Packet>, pcb: PcbIndex): seq<Packet> {
    if q == [] then [] else (if q[0].pcb == pcb then [q[0]] else []) + Of(q[1..], pcb)
  }

  /** Clearing loses exactly the packets of that interface and protocol. */
  lemma {:induction false} WithoutMember(q: seq<Packet>, pcb: PcbIndex, p: Packet)
    ensures p in Without(q, pcb) <==> p in q && p.pcb != pcb
  {
    if q == [] {
    } else {
      WithoutMember(q[1..], pcb, p);
      assert q == [q[0]] + q[1..];
    }
  }

  /** What is lost and what is kept make up the queue. */
  lemma {:induction false} WithoutSplits(q: seq<Packet>, pcb: PcbIndex)
    ensures multiset(Without(q, pcb)) + multiset(Of(q, pcb)) == multiset(q)
  {
    if q == [] {
    } else {
      WithoutSplits(q[1..], pcb);
      assert q == [q[0]] + q[1..];
    }
  }

  /** Nothing of the cleared interface and protocol stays, and every other one keeps its packets in order. */
  lemma {:induction false} WithoutOthers(q: seq<Packet>, pcb: PcbIndex, other: PcbIndex)
    ensures Of(Without(q, pcb), other) == if other == pcb then [] else Of(q, other)
  {
    if q == [] {
    } else {
      WithoutOthers(q[1..], pcb, other);
      var w := Without(q[1..], pcb);
      if q[0].pcb == pcb {
        assert Without(q, pcb) == w;
        assert other != pcb ==> Of(q, other) == Of(q[1..], other);
      } else {
        assert Without(q, pcb)[1..] == w;
      }
    }
  }

  /** Clearing keeps the order. */
  lemma {:induction false} WithoutKeepsOrder(q: seq<Packet>, pcb: PcbIndex, n: nat)
    requires Ordered(q) && Stamped(q, n)
    ensures Ordered(Without(q, pcb)) && Stamped(Without(q, pcb), n)
  {
    if q == [] {
    } else {
      WithoutKeepsOrder(q[1..], pcb, n);
      if q[0].pcb != pcb {
        PrependKeepsOrder(q, Without(q[1..], pcb), pcb, n);
      }
    }
  }

  lemma PrependKeepsOrder(q: seq<Packet>, w: seq<Packet>, pcb: PcbIndex, n: nat)
    requires q != [] && Ordered(q) && Stamped(q, n)
    requires w == Without(q[1..], pcb) && Ordered(w) && Stamped(w, n)
    ensures Ordered([q[0]] + w) && Stamped([q[0]] + w, n)
  {
    forall j | 0 <= j < |w|
      ensures Before(q[0], w[j])
    {
      WithoutMember(q[1..], pcb, w[j]);
      var k :| 0 <= k < |q[1..]| && q[1..][k] == w[j];
      assert Before(q[0], q[k + 1]);
    }
  }

  lemma {:induction false} OfAppend(a: seq<Packet>, b: seq<Packet>, pcb: PcbIndex)
    ensures Of(a + b, pcb) == Of(a, pcb) + Of(b, pcb)
  {
    if a == [] {
      assert a + b == b;
    } else {
      var rest := a[1..];
      assert (a + b)[1..] == rest + b && (a + b)[0] == a[0];
      OfAppend(rest, b, pcb);
      if a[0].pcb == pcb {
        assert [a[0]] + (Of(rest, pcb) + Of(b, pcb)) == [a[0]] + Of(rest, pcb) + Of(b, pcb);
      }
    }
  }

  /** The packets of one PCB around position `i`. */
  lemma OfAround(q: seq<Packet>, i: nat, x: seq<Packet>, pcb: PcbIndex)
    requires i < |q|
    ensures Of(q, pcb) == Of(q[..i], pcb) + Of([q[i]], pcb) + Of(q[i + 1..], pcb)
    ensures Of(q[..i] + x + q[i + 1..], pcb) == Of(q[..i], pcb) + Of(x, pcb) + Of(q[i + 1..], pcb)
  {
    assert q == q[..i] + [q[i]] + q[i + 1..];
    OfAppend(q[..i] + [q[i]], q[i + 1..], pcb);
    OfAppend(q[..i], [q[i]], pcb);
    OfAppend(q[..i] + x, q[i + 1..], pcb);
    OfAppend(q[..i], x, pcb);
  }

  lemma OfInsert(q: seq<Packet>, p: Packet, pcb: PcbIndex)
    ensures p.pcb != pcb ==> Of(Insert(q, p), pcb) == Of(q, pcb)
    ensures p.pcb == pcb && Of(q, pcb) == [] ==> Of(Insert(q, p), pcb) == [p]
  {
    var k := InsertSplits(q, p);
    assert q == q[..k] + q[k..];
    OfAppend(q[..k], q[k..], pcb);
    OfAppend(q[..k] + [p], q[k..], pcb);
    OfAppend(q[..k], [p], pcb);
  }

  /** Rewriting a packet in place touches its own PCB only. */
  lemma OfUpdate(q: seq<Packet>, i: nat, p: Packet, pcb: PcbIndex)
    requires i < |q| && p.pcb == q[i].pcb
    ensures p.pcb != pcb ==> Of(q[i := p], pcb) == Of(q, pcb)
    ensures p.pcb == pcb && |Of(q, pcb)| <= 1 ==> Of(q, pcb) == [q[i]] && Of(q[i := p], pcb) == [p]
  {
    OfAround(q, i, [p], pcb);
    assert q[i := p] == q[..i] + [p] + q[i + 1..];
  }

  /** Unlinking a packet touches its own PCB only. */
  lemma OfRemove(q: seq<Packet>, i: nat, pcb: PcbIndex)
    requires i < |q|
    ensures q[i].pcb != pcb ==> Of(q[..i] + q[i + 1..], pcb) == Of(q, pcb)
    ensures q[i].pcb == pcb && |Of(q, pcb)| <= 1 ==> Of(q, pcb) == [q[i]] && Of(q[..i] + q[i + 1..], pcb) == []
  {
    OfAround(q, i, [], pcb);
    assert q[..i] + [] + q[i + 1..] == q[..i] + q[i + 1..];
  }

  /** Removing one packet, wherever it is, keeps the order. */
  lemma RemoveKeepsOrder(q: seq<Packet>, k: nat, n: nat)
    requires Ordered(q) && Stamped(q, n) && k < |q|
    ensures Ordered(q[..k] + q[k + 1..]) && Stamped(q[..k] + q[k + 1..], n)
  {
    var r := q[..k] + q[k + 1..];
    forall i | 0 <= i < |r|
      ensures r[i] == (if i < k then q[i] else q[i + 1])
    {
    }
  }

  /** One step of the walk to the insertion point. */
  lemma WalkOn(q: seq<Packet>, p: Packet, k: nat)
    requires k + 1 < |q| && q[k].sendAt <= p.sendAt
    ensures q[..k] + Insert(q[k..], p) == q[..k + 1] + Insert(q[k + 1..], p)
  {
    var t := q[k..];
    assert t[1..] == q[k + 1..] && t[0] == q[k];
    assert Insert(t, p) == [t[0]] + Insert(t[1..], p);
    assert q[..k + 1] == q[..k] + [q[k]];
  }

  /** In front of a packet due later, or of nothing, the packet comes first. */
  lemma InsertFirst(t: seq<Packet>, p: Packet)
    requires t != [] ==> t[0].sendAt > p.sendAt
    ensures Insert(t, p) == [p] + t
  {
  }

  lemma InsertSecond(x: Packet, t: seq<Packet>, p: Packet)
    requires x.sendAt <= p.sendAt && (t != [] ==> t[0].sendAt > p.sendAt)
    ensures Insert([x] + t, p) == [x] + ([p] + t)
  {
    assert ([x] + t)[1..] == t;
    InsertFirst(t, p);
  }

  /** The walk stops behind position `k`: the packet is linked in there. */
  lemma WalkStops(q: seq<Packet>, p: Packet, k: nat)
    requires k < |q| && q[k].sendAt <= p.sendAt
    requires k + 1 < |q| ==> q[k + 1].sendAt > p.sendAt
    ensures q[..k] + Insert(q[k..], p) == q[..k + 1] + [p] + q[k + 1..]
  {
    assert q[k..] == [q[k]] + q[k + 1..];
    InsertSecond(q[k], q[k + 1..], p);
    LinkBehind(q, k, p);
  }

  lemma LinkBehind(q: seq<Packet>, k: nat, p: Packet)
    requires k < |q|
    ensures q[..k] + ([q[k]] + ([p] + q[k + 1..])) == q[..k + 1] + [p] + q[k + 1..]
  {
  }

  /** Filtering a queue whose first `k` packets are already done. */
  lemma ClearOn(q: seq<Packet>, k: nat, pcb: PcbIndex)
    requires k < |q|
    ensures q[k].pcb == pcb ==> q[..k] + Without(q[k..], pcb) == q[..k] + Without(q[k + 1..], pcb)
    ensures q[k].pcb != pcb ==> q[..k] + Without(q[k..], pcb) == q[..k + 1] + Without(q[k + 1..], pcb)
  {
    assert q[k..][1..] == q[k + 1..];
    assert q[..k + 1] == q[..k] + [q[k]];
  }

  /** Unlinking the packet at `k`. */
  lemma Unlink(q: seq<Packet>, k: nat)
    requires k < |q|
    ensures (q[..k] + q[k + 1..])[..k] == q[..k] && (q[..k] + q[k + 1..])[k..] == q[k + 1..]
  {
  }

  /** The list walk of _mdns_schedule_tx_packet: link `p` in behind the last packet due no later. */
  method InsertWalk(packets: seq<Packet>, p: Packet) returns (r: seq<Packet>)
    ensures r == Insert(packets, p)
  {
    if packets == [] || packets[0].sendAt > p.sendAt {
      return [p] + packets;
    }
    var q := 0;
    while q + 1 < |packets| && packets[q + 1].sendAt <= p.sendAt
      invariant q < |packets| && packets[q].sendAt <= p.sendAt
      invariant Insert(packets, p) == packets[..q] + Insert(packets[q..], p)
    {
      WalkOn(packets, p, q);
      q := q + 1;
    }
    WalkStops(packets, p, q);
    return packets[..q + 1] + [p] + packets[q + 1..];
  }

  /** The two list walks of _mdns_clear_pcb_tx_queue_head. */
  method ClearWalk(packets: seq<Packet>, pcb: PcbIndex) returns (r: seq<Packet>)
    ensures r == Without(packets, pcb)
  {
    r := packets;
    while r != [] && r[0].pcb == pcb
      invariant Without(r, pcb) == Without(packets, pcb)
      decreases |r|
    {
      r := r[1..];
    }
    if r != [] {
      var q := 0;
      ClearOn(r, 0, pcb);
      while q + 1 < |r|
        invariant q < |r|
        invariant r[..q + 1] + Without(r[q + 1..], pcb) == Without(packets, pcb)
        decreases |r| - q
      {
        ClearOn(r, q + 1, pcb);
        if r[q + 1].pcb == pcb {
          Unlink(r, q + 1);
          r := r[..q + 1] + r[q + 2..];
        } else {
          q := q + 1;
        }
      }
    }
  }

  /** The queue head of the server and the number of schedulings so far. */
  class Queue {
    var packets: seq<Packet>
    var stamps: nat

    ghost predicate Valid()
      reads this
    {
      Ordered(packets) && Stamped(packets, stamps)
    }

    constructor ()
      ensures Valid() && packets == [] && stamps == 0
    {
      packets, stamps := [], 0;
    }

    /** _mdns_schedule_tx_packet at tick `now`. */
    method Schedule(packet: Packet, now: nat, msAfter: nat)
      requires Valid()
      modifies this
      ensures Valid() && stamps == old(stamps) + 1
      ensures packets == Insert(old(packets), packet.(sendAt := (now + msAfter) % UINT32, stamp := old(stamps)))
    {
      var p := packet.(sendAt := (now + msAfter) % UINT32, stamp := stamps);
      InsertKeepsOrder(packets, p);
      stamps := stamps + 1;
      packets := InsertWalk(packets, p);
    }

    /** _mdns_clear_pcb_tx_queue_head. */
    method ClearPcb(pcb: PcbIndex)
      requires Valid()
      modifies this
      ensures Valid() && stamps == old(stamps)
      ensures packets == Without(old(packets), pcb)
    {
      WithoutKeepsOrder(packets, pcb, stamps);
      packets := ClearWalk(packets, pcb);
    }

    /** _mdns_clear_tx_queue_head. */
    method ClearAll()
      requires Valid()
      modifies this
      ensures Valid() && packets == [] && stamps == old(stamps)
    {
      while packets != []
        invariant Ordered(packets) && Stamped(packets, stamps) && stamps == old(stamps)
        decreases |packets|
      {
        packets := packets[1..];
      }
    }

    /** The timer marks a packet as handed to the action queue, or takes the mark back. */
    method SetQueued(i: nat, queued: bool)
      requires Valid() && i < |packets|
      modifies this
      ensures Valid() && stamps == old(stamps)
      ensures packets == old(packets)[i := old(packets)[i].(queued := queued)]
    {
      packets := packets[i := packets[i].(queued := queued)];
    }

    /** Taking the head for transmission. */
    method PopHead() returns (p: Packet)
      requires Valid() && packets != []
      modifies this
      ensures Valid() && p == old(packets)[0] && packets == old(packets)[1..] && stamps == old(stamps)
    {
      p := packets[0];
      packets := packets[1..];
    }
  }
}
