/**
 Simultaneous probe tie-breaking of managed_components/espressif__mdns/mdns.c: both SRV records are
 laid out as wire data, the longer one wins, and equally long ones are compared byte by byte.
 */
module SrvTieBreak {
  import opened Bytes
  import Fqdn

  type U16Value = n: nat | n < 65536

  datatype Srv = Srv(priority: U16Value, weight: U16Value, port: U16Value, host: seq<byte>)

  function Sign(n: int): int {
    if n < 0 then -1 else if n > 0 then 1 else 0
  }

  function BigEndian(n: U16Value): seq<byte> {
    [(n / 256) as byte, (n % 256) as byte]
  }

  /** One length-prefixed label. */
  function Labelled(t: seq<byte>): seq<byte> {
    [(|t| % 256) as byte] + t
  }

  function Ports(r: Srv): seq<byte> {
    BigEndian(r.priority) + (BigEndian(r.weight) + BigEndian(r.port))
  }

  /** The data a record is compared by. */
  function Data(r: Srv, domain: seq<byte>): seq<byte> {
    Ports(r) + (Labelled(r.host) + (Labelled(domain) + [0]))
  }

  /** The sign memcmp returns. */
  function MemCmp(a: seq<byte>, b: seq<byte>): int
    requires |a| == |b|
  {
    if a == [] then 0 else if a[0] != b[0] then Sign(a[0] as int - b[0] as int) else MemCmp(a[1..], b[1..])
  }

  /** 1 when their record wins, -1 when ours does, 0 when there is nothing to decide. */
  function Collision(ours: Srv, theirs: Srv, domain: seq<byte>): int {
    if ours.host == [] then 0
    else
      var a := Data(ours, Fqdn.LOCAL);
      var b := Data(theirs, domain);
      if |b| > |a| then 1 else if |b| < |a| then -1 else -MemCmp(a, b)
  }

  /** memcmp. */
  method Compare(a: array<byte>, b: array<byte>) returns (ret: int)
    requires a.Length == b.Length
    ensures ret == MemCmp(a[..], b[..])
  {
    var i := 0;
    while i < a.Length
      invariant i <= a.Length && MemCmp(a[..], b[..]) == MemCmp(a[i..], b[i..])
    {
      if a[i] != b[i] {
        return Sign(a[i] as int - b[i] as int);
      }
      i := i + 1;
    }
    return 0;
  }

  /** One record laid out in a buffer of its exact length. */
  method LayOut(r: Srv, domain: seq<byte>) returns (data: array<byte>)
    ensures fresh(data) && data[..] == Data(r, domain)
  {
    data := new byte[9 + |r.host| + |domain|];
    var index := 0;
    index := Append(data, index, BigEndian(r.priority));
    index := Append(data, index, BigEndian(r.weight));
    index := Append(data, index, BigEndian(r.port));
    assert data[..index] == Ports(r);
    index := Append(data, index, Labelled(r.host));
    index := Append(data, index, Labelled(domain));
    index := Append(data, index, [0]);
    assert data[..index] == data[..];
  }

  /** _mdns_check_srv_collision; `host` of our record is the server's host name. */
  method CheckSrvCollision(ours: Srv, theirs: Srv, domain: seq<byte>) returns (col: int)
    ensures col == Collision(ours, theirs, domain)
  {
    if ours.host == [] {
      return 0;
    }
    var ourLen := 14 + |ours.host|;
    var theirLen := 9 + |theirs.host| + |domain|;
    if theirLen > ourLen {
      return 1;
    } else if theirLen < ourLen {
      return -1;
    }
    var a := LayOut(ours, Fqdn.LOCAL);
    var b := LayOut(theirs, domain);
    assert |a[..]| == ourLen && |b[..]| == theirLen;
    var ret := Compare(a, b);
    MemCmpSwap(a[..], b[..]);
    return if ret > 0 then -1 else if ret < 0 then 1 else 0;
  }

  // ----- The order behind it -----

  lemma {:induction false} MemCmpAppend(a: seq<byte>, b: seq<byte>, c: seq<byte>, d: seq<byte>)
    requires |a| == |b| && |c| == |d|
    ensures MemCmp(a + c, b + d) == if MemCmp(a, b) != 0 then MemCmp(a, b) else MemCmp(c, d)
  {
    if a == [] {
      assert a + c == c && b + d == d;
    } else if a[0] == b[0] {
      MemCmpAppend(a[1..], b[1..], c, d);
      assert (a + c)[1..] == a[1..] + c && (b + d)[1..] == b[1..] + d;
    }
  }

  /** Big-endian bytes compare like the numbers. */
  lemma MemCmpNumber(x: U16Value, y: U16Value)
    ensures MemCmp(BigEndian(x), BigEndian(y)) == Sign(x - y)
  {
    var a, b := BigEndian(x), BigEndian(y);
    assert a[1..] == [a[1]] && b[1..] == [b[1]];
    assert MemCmp(a[1..], b[1..]) == Sign(a[1] as int - b[1] as int);
  }

  lemma {:induction false} MemCmpSwap(a: seq<byte>, b: seq<byte>)
    requires |a| == |b|
    ensures MemCmp(b, a) == -MemCmp(a, b) && -1 <= MemCmp(a, b) <= 1
  {
    if a == [] {
    } else {
      MemCmpSwap(a[1..], b[1..]);
    }
  }

  lemma {:induction false} MemCmpZero(a: seq<byte>, b: seq<byte>)
    requires |a| == |b|
    ensures MemCmp(a, b) == 0 <==> a == b
  {
    if a == [] {
    } else {
      MemCmpZero(a[1..], b[1..]);
      assert a == [a[0]] + a[1..] && b == [b[0]] + b[1..];
    }
  }

  lemma {:induction false} MemCmpTrans(a: seq<byte>, b: seq<byte>, c: seq<byte>)
    requires |a| == |b| == |c|
    ensures MemCmp(a, b) >= 0 && MemCmp(b, c) > 0 ==> MemCmp(a, c) > 0
    ensures MemCmp(a, b) > 0 && MemCmp(b, c) >= 0 ==> MemCmp(a, c) > 0
  {
    if a == [] {
    } else {
      MemCmpTrans(a[1..], b[1..], c[1..]);
    }
  }

  /** First of the two that is not zero. */
  function Then(x: int, y: int): int {
    if x != 0 then x else y
  }

  /** Records by host length, then priority, weight, port and host. */
  function Order(a: Srv, b: Srv): int {
    if |a.host| != |b.host| then Sign(|a.host| - |b.host|)
    else Then(Sign(a.priority - b.priority), Then(Sign(a.weight - b.weight), Then(Sign(a.port - b.port), MemCmp(a.host, b.host))))
  }

  lemma MemCmpPorts(a: Srv, b: Srv)
    ensures MemCmp(Ports(a), Ports(b)) ==
            Then(Sign(a.priority - b.priority), Then(Sign(a.weight - b.weight), Sign(a.port - b.port)))
  {
    MemCmpNumber(a.priority, b.priority);
    MemCmpNumber(a.weight, b.weight);
    MemCmpNumber(a.port, b.port);
    MemCmpAppend(BigEndian(a.weight), BigEndian(b.weight), BigEndian(a.port), BigEndian(b.port));
    MemCmpAppend(BigEndian(a.priority), BigEndian(b.priority), BigEndian(a.weight) + BigEndian(a.port),
                 BigEndian(b.weight) + BigEndian(b.port));
  }

  lemma MemCmpHosts(a: seq<byte>, b: seq<byte>, tail: seq<byte>)
    requires |a| == |b|
    ensures MemCmp(Labelled(a) + tail, Labelled(b) + tail) == MemCmp(a, b)
  {
    MemCmpZero(tail, tail);
    MemCmpAppend(Labelled(a), Labelled(b), tail, tail);
    assert Labelled(a)[1..] == a && Labelled(b)[1..] == b;
  }

  /** What the byte comparison decides, as an order on the records themselves. */
  lemma CollisionIsOrder(a: Srv, b: Srv)
    requires a.host != []
    ensures Collision(a, b, Fqdn.LOCAL) == -Order(a, b)
  {
    if |a.host| == |b.host| {
      var tail := Labelled(Fqdn.LOCAL) + [0];
      MemCmpPorts(a, b);
      MemCmpHosts(a.host, b.host, tail);
      MemCmpAppend(Ports(a), Ports(b), Labelled(a.host) + tail, Labelled(b.host) + tail);
    }
  }

  lemma OrderSwap(a: Srv, b: Srv)
    ensures Order(b, a) == -Order(a, b) && -1 <= Order(a, b) <= 1
  {
    if |a.host| == |b.host| {
      MemCmpSwap(a.host, b.host);
    }
  }

  lemma OrderTrans(a: Srv, b: Srv, c: Srv)
    requires Order(a, b) > 0 && Order(b, c) > 0
    ensures Order(a, c) > 0
  {
    if |a.host| == |b.host| == |c.host| {
      MemCmpTrans(a.host, b.host, c.host);
    }
  }

  /** Section 8.2 of RFC 6762: both hosts reach opposite verdicts. */
  lemma VerdictsAreOpposite(a: Srv, b: Srv)
    requires a.host != [] && b.host != []
    ensures Collision(b, a, Fqdn.LOCAL) == -Collision(a, b, Fqdn.LOCAL)
  {
    CollisionIsOrder(a, b);
    CollisionIsOrder(b, a);
    OrderSwap(a, b);
  }

  /** There is a tie exactly between identical records. */
  lemma TieIffIdentical(a: Srv, b: Srv)
    requires a.host != []
    ensures Collision(a, b, Fqdn.LOCAL) == 0 <==> a == b
  {
    CollisionIsOrder(a, b);
    if |a.host| == |b.host| {
      MemCmpZero(a.host, b.host);
    }
  }

  /** `a` as our record wins against `b`. */
  predicate Wins(a: Srv, b: Srv) {
    Collision(a, b, Fqdn.LOCAL) == -1
  }

  lemma WinsIsTransitive(a: Srv, b: Srv, c: Srv)
    requires a.host != [] && b.host != []
    requires Wins(a, b) && Wins(b, c)
    ensures Wins(a, c)
  {
    CollisionIsOrder(a, b);
    CollisionIsOrder(b, c);
    CollisionIsOrder(a, c);
    OrderTrans(a, b, c);
    OrderSwap(a, c);
  }

  lemma OneWins(a: Srv, b: Srv)
    requires a.host != [] && b.host != [] && a != b
    ensures Wins(a, b) || Wins(b, a)
    ensures !(Wins(a, b) && Wins(b, a))
  {
    VerdictsAreOpposite(a, b);
    TieIffIdentical(a, b);
    CollisionIsOrder(a, b);
    OrderSwap(a, b);
  }

  /** `w` wins against every other contender. */
  ghost predicate Champion(w: Srv, all: set<Srv>) {
    w in all && forall o | o in all && o != w :: Wins(w, o)
  }

  /** Any set of distinct contenders has a winner ... */
  lemma {:induction false} SomeoneWins(all: set<Srv>) returns (w: Srv)
    requires all != {} && forall r | r in all :: r.host != []
    ensures Champion(w, all)
    decreases all
  {
    var x :| x in all;
    var rest := all - {x};
    if rest == {} {
      w := x;
      assert all == {x};
    } else {
      var v := SomeoneWins(rest);
      OneWins(x, v);
      if Wins(v, x) {
        w := v;
      } else {
        w := x;
        forall o | o in all && o != x
          ensures Wins(x, o)
        {
          if o != v {
            WinsIsTransitive(x, v, o);
          }
        }
      }
    }
  }

  /** ... and only one. */
  lemma OnlyOneWins(all: set<Srv>, v: Srv, w: Srv)
    requires forall r | r in all :: r.host != []
    requires Champion(v, all) && Champion(w, all)
    ensures v == w
  {
    if v != w {
      OneWins(v, w);
    }
  }
}
