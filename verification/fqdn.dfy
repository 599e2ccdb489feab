/**
 Name expansion of managed_components/espressif__mdns/mdns.c: a recursive reader that follows
 compression pointers (section 4.1.4 of RFC 1035) and sorts the labels into host, service,
 protocol and domain.
 */
module Fqdn {
  import opened Wrappers
  import opened Bytes

  /** MDNS_NAME_BUF_LEN: a field holds at most this many bytes with its NUL. */
  const NAME_BUF_LEN: nat := 65

  const UNDERSCORE: byte := 95
  const DOT: byte := 46
  const LOCAL: seq<byte> := [108, 111, 99, 97, 108]
  const ARPA: seq<byte> := [97, 114, 112, 97]
  const IP6: seq<byte> := [105, 112, 54]
  const IN_ADDR: seq<byte> := [105, 110, 45, 97, 100, 100, 114]
  const SUB: seq<byte> := [95, 115, 117, 98]

  type Text = seq<byte>

  function Lower(b: byte): byte {
    if 65 <= b <= 90 then b + 32 else b
  }

  /** strcasecmp is zero. */
  predicate SameText(a: Text, b: Text) {
    if a == [] || b == [] then a == b else Lower(a[0]) == Lower(b[0]) && SameText(a[1..], b[1..])
  }

  predicate OneOf(a: Text, words: seq<Text>) {
    words != [] && (SameText(a, words[0]) || OneOf(a, words[1..]))
  }

  /** The labels that never continue a host name. */
  const HOST_ENDS: seq<Text> := [LOCAL, ARPA, IP6, IN_ADDR]

  predicate ExtendsHost(octets: seq<byte>) {
    !(octets != [] && octets[0] == UNDERSCORE) && !OneOf(CStr(octets), HOST_ENDS)
  }

  /** strlcat into a field. */
  function Cat(a: Text, b: Text): (r: Text)
    ensures r <= a + b
  {
    if |a| + |b| < NAME_BUF_LEN then a + b else if |a| >= NAME_BUF_LEN then a else (a + b)[..NAME_BUF_LEN - 1]
  }

  /** mdns_name_t, each buffer as the C string in it. */
  datatype NameView =
    NameView(host: Text, service: Text, proto: Text, domain: Text, parts: nat, sub: bool, invalid: bool)

  const EMPTY_NAME := NameView([], [], [], [], 0, false, false)

  // ----- What the reader visits -----

  /** One iteration of the reader's loop. */
  datatype Event = Label(bytes: seq<byte>) | Hop | Stop

  /** `next` is the returned address; `inside` says that no read went past the packet's end. */
  datatype Visited = Visited(events: seq<Event>, next: Option<nat>, inside: bool)

  function Pointer(hi: byte, lo: byte): nat
    requires hi >= 0xC0
  {
    (hi as nat - 0xC0) * 256 + lo as nat
  }

  /** Section 4.1.4 of RFC 1035: the 14 bits behind two ones are an offset. */
  lemma PointerRoundTrip(offset: nat)
    requires offset < 0x4000
    ensures Pointer((0xC0 + offset / 256) as byte, (offset % 256) as byte) == offset
  {
  }

  /**
   The walk from `off` in the fragment that starts at `frag`, over `len` bytes with one byte of
   padding behind them for the unchecked second byte of a pointer.
   */
  function Visit(data: seq<byte>, len: nat, frag: nat, off: nat): Visited
    requires |data| == len + 1 && frag <= off
    decreases frag, len - off
  {
    if off >= len || data[off] == 0 then Visited([], Some(off + 1), off < len)
    else
      var n := data[off] as nat;
      if n < 0xC0 then
        if n > 63 || off + 1 + n > len then Visited([Stop], None, false)
        else
          var r := Visit(data, len, frag, off + 1 + n);
          Visited([Label(data[off + 1..off + 1 + n])] + r.events, r.next, r.inside)
      else
        var address := Pointer(data[off], data[off + 1]);
        if address >= frag then Visited([Stop], None, false)
        else
          var r := Visit(data, len, address, address);
          Visited([Hop] + r.events, if r.next.Some? then Some(off + 2) else None, r.inside && off + 1 < len)
  }

  /** What one iteration does to the name. */
  function Absorb(v: NameView, e: Event): (r: NameView)
    requires v.parts <= 4
    ensures r.parts <= 4
  {
    var v1 := if v.parts == 4 then v.(invalid := true) else v;
    if !e.Label? then v1
    else
      var text := CStr(e.bytes);
      if v1.parts == 1 && ExtendsHost(e.bytes) then v1.(host := Cat(Cat(v1.host, [DOT]), text))
      else if SameText(text, SUB) then v1.(sub := true)
      else if v1.invalid then v1
      else SetPart(v1, text)
  }

  /** The next free one of host, service, proto and domain. */
  function SetPart(v: NameView, text: Text): (r: NameView)
    requires v.parts < 4
    ensures r.parts == v.parts + 1
  {
    var v1 := v.(parts := v.parts + 1);
    match v.parts
    case 0 => v1.(host := text)
    case 1 => v1.(service := text)
    case 2 => v1.(proto := text)
    case _ => v1.(domain := text)
  }

  function AbsorbAll(v: NameView, es: seq<Event>): (r: NameView)
    requires v.parts <= 4
    ensures r.parts <= 4
    decreases |es|
  {
    if es == [] then v else AbsorbAll(Absorb(v, es[0]), es[1..])
  }

  lemma AbsorbCons(v: NameView, e: Event, es: seq<Event>)
    requires v.parts <= 4
    ensures AbsorbAll(v, [e] + es) == AbsorbAll(Absorb(v, e), es)
  {
    assert ([e] + es)[1..] == es;
  }

  /** The reader's whole effect from `off` on: the name it leaves and the address it returns. */
  function Expand(v: NameView, data: seq<byte>, len: nat, frag: nat, off: nat): (NameView, Option<nat>)
    requires |data| == len + 1 && frag <= off && v.parts <= 4
    decreases frag, len - off, 1
  {
    if off >= len || data[off] == 0 then (v, Some(off + 1))
    else if data[off] < 0xC0 then ExpandLabel(v, data, len, frag, off)
    else ExpandPointer(v, data, len, frag, off)
  }

  function ExpandLabel(v: NameView, data: seq<byte>, len: nat, frag: nat, off: nat): (NameView, Option<nat>)
    requires |data| == len + 1 && frag <= off < len && v.parts <= 4 && 0 < data[off] < 0xC0
    decreases frag, len - off, 0
  {
    var next := off + 1 + data[off] as nat;
    if data[off] > 63 || next > len then (Absorb(v, Stop), None)
    else Expand(Absorb(v, Label(data[off + 1..next])), data, len, frag, next)
  }

  function ExpandPointer(v: NameView, data: seq<byte>, len: nat, frag: nat, off: nat): (NameView, Option<nat>)
    requires |data| == len + 1 && frag <= off < len && v.parts <= 4 && data[off] >= 0xC0
    decreases frag, len - off, 0
  {
    var address := Pointer(data[off], data[off + 1]);
    if address >= frag then (Absorb(v, Stop), None)
    else
      var inner := Expand(Absorb(v, Hop), data, len, address, address);
      (inner.0, if inner.1.Some? then Some(off + 2) else None)
  }

  /** From `off` on it is the visited events absorbed one after the other. */
  predicate Folds(v: NameView, data: seq<byte>, len: nat, frag: nat, off: nat)
    requires |data| == len + 1 && frag <= off && v.parts <= 4
  {
    var w := Visit(data, len, frag, off);
    Expand(v, data, len, frag, off) == (AbsorbAll(v, w.events), w.next)
  }

  predicate LabelAt(data: seq<byte>, len: nat, off: nat)
    requires |data| == len + 1
  {
    off < len && 0 < data[off] <= 63 && off + 1 + data[off] as nat <= len
  }

  lemma FoldsLabel(v: NameView, data: seq<byte>, len: nat, frag: nat, off: nat)
    requires |data| == len + 1 && frag <= off && v.parts <= 4 && LabelAt(data, len, off)
    requires var next := off + 1 + data[off] as nat; Folds(Absorb(v, Label(data[off + 1..next])), data, len, frag, next)
    ensures Folds(v, data, len, frag, off)
  {
    var next := off + 1 + data[off] as nat;
    AbsorbCons(v, Label(data[off + 1..next]), Visit(data, len, frag, next).events);
  }

  lemma FoldsPointer(v: NameView, data: seq<byte>, len: nat, frag: nat, off: nat)
    requires |data| == len + 1 && frag <= off < len && v.parts <= 4 && data[off] >= 0xC0
    requires var address := Pointer(data[off], data[off + 1]);
      address < frag && Folds(Absorb(v, Hop), data, len, address, address)
    ensures Folds(v, data, len, frag, off)
  {
    var address := Pointer(data[off], data[off + 1]);
    AbsorbCons(v, Hop, Visit(data, len, address, address).events);
  }

  lemma FoldsStop(v: NameView, data: seq<byte>, len: nat, frag: nat, off: nat)
    requires |data| == len + 1 && frag <= off < len && v.parts <= 4 && data[off] != 0 && !LabelAt(data, len, off)
    requires data[off] >= 0xC0 ==> Pointer(data[off], data[off + 1]) >= frag
    ensures Folds(v, data, len, frag, off)
  {
    AbsorbCons(v, Stop, []);
    assert [Stop] + [] == [Stop];
  }

  lemma {:induction false} ExpandIs(v: NameView, data: seq<byte>, len: nat, frag: nat, off: nat)
    requires |data| == len + 1 && frag <= off && v.parts <= 4
    ensures Folds(v, data, len, frag, off)
    decreases frag, len - off
  {
    if off >= len || data[off] == 0 {
    } else {
      if LabelAt(data, len, off) {
        var next := off + 1 + data[off] as nat;
        ExpandIs(Absorb(v, Label(data[off + 1..next])), data, len, frag, next);
        FoldsLabel(v, data, len, frag, off);
      } else if data[off] >= 0xC0 && Pointer(data[off], data[off + 1]) < frag {
        var address := Pointer(data[off], data[off + 1]);
        ExpandIs(Absorb(v, Hop), data, len, address, address);
        FoldsPointer(v, data, len, frag, off);
      } else {
        FoldsStop(v, data, len, frag, off);
      }
    }
  }

  /** The last moves of _mdns_parse_fqdn: short names fill the fields from the domain upwards. */
  function Settled(v: NameView): NameView {
    if v.parts == 0 || v.invalid then v
    else
      var w := if v.parts == 3 then v.(host := [], service := v.host, proto := v.service, domain := v.proto)
               else if v.parts == 2 then v.(service := [], proto := [], domain := v.service)
               else v;
      if SameText(w.domain, LOCAL) || SameText(w.domain, ARPA) then w else w.(invalid := true)
  }

  function Parsed(v: Visited): NameView {
    var name := AbsorbAll(EMPTY_NAME, v.events);
    if v.next.None? then name else Settled(name)
  }

  // ----- The recursive reader -----

  class Name {
    var host: Text
    var service: Text
    var proto: Text
    var domain: Text
    var parts: nat
    var sub: bool
    var invalid: bool

    ghost function View(): NameView
      reads this
    {
      NameView(host, service, proto, domain, parts, sub, invalid)
    }

    constructor ()
      ensures View() == EMPTY_NAME
    {
      host, service, proto, domain, parts, sub, invalid := [], [], [], [], 0, false, false;
    }

    /** The body of the reader's loop for one label. */
    method TakeLabel(octets: seq<byte>)
      requires octets != [] && parts <= 4 && (parts == 4 ==> invalid)
      modifies this
      ensures View() == Absorb(old(View()), Label(octets))
    {
      var text := CStr(octets);
      if parts == 1 && ExtendsHost(octets) {
        host := Cat(host, [DOT]);
        host := Cat(host, text);
      } else if SameText(text, SUB) {
        sub := true;
      } else if !invalid {
        match parts {
          case 0 => host := text;
          case 1 => service := text;
          case 2 => proto := text;
          case _ => domain := text;
        }
        parts := parts + 1;
      }
    }

    /** _mdns_read_fqdn. Each recursive call reads a fragment that starts strictly lower. */
    method ReadFqdn(packet: seq<byte>, len: nat, start: nat) returns (next: Option<nat>)
      requires |packet| == len + 1 && parts <= 4
      modifies this
      ensures (View(), next) == Expand(old(View()), packet, len, start, start)
      decreases start, 2
    {
      var index := 0;
      ghost var goal := Expand(View(), packet, len, start, start);
      while start + index < len && packet[start + index] != 0
        invariant parts <= 4 && goal == Expand(View(), packet, len, start, start + index)
        decreases len - index
      {
        var more;
        more, next := Turn(packet, len, start, start + index);
        if !more {
          return;
        }
        index := index + 1 + packet[start + index] as nat;
      }
      return Some(start + index + 1);
    }

    /** One turn of its loop: a label, or a pointer, which ends it. */
    method Turn(packet: seq<byte>, len: nat, start: nat, at: nat) returns (more: bool, next: Option<nat>)
      requires |packet| == len + 1 && parts <= 4 && start <= at < len && packet[at] != 0
      modifies this
      ensures more ==> parts <= 4 && LabelAt(packet, len, at)
      ensures Expand(old(View()), packet, len, start, at) ==
              if more then Expand(View(), packet, len, start, at + 1 + packet[at] as nat) else (View(), next)
      decreases start, 1
    {
      if packet[at] < 0xC0 {
        more := LabelStep(packet, len, start, at);
        return more, None;
      }
      next := PointerStep(packet, len, start, at);
      return false, next;
    }

    /** One label at `at`: false when it is too long or cut off by the packet's end. */
    method LabelStep(packet: seq<byte>, len: nat, ghost start: nat, at: nat) returns (ok: bool)
      requires |packet| == len + 1 && parts <= 4 && start <= at < len && 0 < packet[at] < 0xC0
      modifies this
      ensures parts <= 4 && (ok <==> LabelAt(packet, len, at))
      ensures Expand(old(View()), packet, len, start, at) ==
              if ok then Expand(View(), packet, len, start, at + 1 + packet[at] as nat) else (View(), None)
    {
      if parts == 4 {
        invalid := true;
      }
      var n := packet[at] as nat;
      if n > 63 {
        return false;
      }
      var octets := ReadLabel(packet, len, at + 1, n);
      if octets.None? {
        return false;
      }
      TakeLabel(octets.value);
      return true;
    }

    /** A pointer at `at` in the fragment that starts at `start`. */
    method PointerStep(packet: seq<byte>, len: nat, start: nat, at: nat) returns (next: Option<nat>)
      requires |packet| == len + 1 && parts <= 4 && start <= at < len && packet[at] >= 0xC0
      modifies this
      ensures (View(), next) == Expand(old(View()), packet, len, start, at)
      decreases start, 0
    {
      if parts == 4 {
        invalid := true;
      }
      var address := Pointer(packet[at], packet[at + 1]);
      if address >= start {
        return None;
      }
      var inner := ReadFqdn(packet, len, address);
      return if inner.Some? then Some(at + 2) else None;
    }

    /** _mdns_parse_fqdn. */
    method ParseFqdn(packet: seq<byte>, len: nat, start: nat) returns (next: Option<nat>)
      requires |packet| == len + 1
      modifies this
      ensures var v := Visit(packet, len, start, start); next == v.next && View() == Parsed(v)
    {
      host, service, proto, domain, parts, sub, invalid := [], [], [], [], 0, false, false;
      ExpandIs(View(), packet, len, start, start);
      next := ReadFqdn(packet, len, start);
      if next.None? || parts == 0 || invalid {
        return;
      }
      if parts == 3 {
        host, service, proto, domain := [], host, service, proto;
      } else if parts == 2 {
        service, proto, domain := [], [], service;
      }
      if !SameText(domain, LOCAL) && !SameText(domain, ARPA) {
        invalid := true;
      }
    }
  }

  /** Copying a label into the temporary buffer, stopping at the packet's end. */
  method ReadLabel(packet: seq<byte>, len: nat, from: nat, n: nat) returns (octets: Option<seq<byte>>)
    requires |packet| == len + 1 && from <= len
    ensures octets == if from + n > len then None else Some(packet[from..from + n])
  {
    var buf: seq<byte> := [];
    var i := 0;
    while i < n
      invariant i <= n && from + i <= len && buf == packet[from..from + i]
    {
      if from + i >= len {
        return None;
      }
      buf := buf + [packet[from + i]];
      i := i + 1;
    }
    return Some(buf);
  }

  // ----- The expansion of RFC 1035 -----

  function Labels(es: seq<Event>): seq<seq<byte>> {
    if es == [] then [] else (if es[0].Label? then [es[0].bytes] else []) + Labels(es[1..])
  }

  /**
   Section 4.1.4 of RFC 1035: the name at `off` is a sequence of labels ended by a zero octet, or by a
   pointer to the rest of the name elsewhere. `steps` counts labels and pointers.
   */
  ghost predicate Expands(data: seq<byte>, len: nat, off: nat, names: seq<seq<byte>>, steps: nat)
    requires |data| == len + 1
    decreases steps
  {
    off < len && steps > 0 &&
    var n := data[off] as nat;
    if n == 0 then names == []
    else if n <= 63 then
      off + 1 + n <= len && names != [] && names[0] == data[off + 1..off + 1 + n] &&
      Expands(data, len, off + 1 + n, names[1..], steps - 1)
    else
      n >= 0xC0 && off + 1 < len && Expands(data, len, Pointer(data[off], data[off + 1]), names, steps - 1)
  }

  /** The same with every pointer leading strictly below the start of the fragment it stands in. */
  ghost predicate ExpandsBack(data: seq<byte>, len: nat, frag: nat, off: nat, names: seq<seq<byte>>, steps: nat)
    requires |data| == len + 1
    decreases steps
  {
    off < len && steps > 0 &&
    var n := data[off] as nat;
    if n == 0 then names == []
    else if n <= 63 then
      off + 1 + n <= len && names != [] && names[0] == data[off + 1..off + 1 + n] &&
      ExpandsBack(data, len, frag, off + 1 + n, names[1..], steps - 1)
    else
      n >= 0xC0 && off + 1 < len && Pointer(data[off], data[off + 1]) < frag &&
      var address := Pointer(data[off], data[off + 1]);
      ExpandsBack(data, len, address, address, names, steps - 1)
  }

  lemma {:induction false} BackExpands(data: seq<byte>, len: nat, frag: nat, off: nat, names: seq<seq<byte>>,
      steps: nat)
    requires |data| == len + 1 && ExpandsBack(data, len, frag, off, names, steps)
    ensures Expands(data, len, off, names, steps)
    decreases steps
  {
    var n := data[off] as nat;
    if 0 < n <= 63 {
      BackExpands(data, len, frag, off + 1 + n, names[1..], steps - 1);
    } else if n >= 0xC0 {
      var address := Pointer(data[off], data[off + 1]);
      BackExpands(data, len, address, address, names, steps - 1);
    }
  }

  /** A name has at most one expansion. */
  lemma {:induction false} ExpandsOnce(data: seq<byte>, len: nat, off: nat, a: seq<seq<byte>>, m: nat,
      b: seq<seq<byte>>, n: nat)
    requires |data| == len + 1 && Expands(data, len, off, a, m) && Expands(data, len, off, b, n)
    ensures a == b
    decreases m
  {
    var k := data[off] as nat;
    if 0 < k <= 63 {
      ExpandsOnce(data, len, off + 1 + k, a[1..], m - 1, b[1..], n - 1);
      assert a == [a[0]] + a[1..] && b == [b[0]] + b[1..];
    } else if k >= 0xC0 {
      ExpandsOnce(data, len, Pointer(data[off], data[off + 1]), a, m - 1, b, n - 1);
    }
  }

  lemma {:induction false} VisitedIsExpansion(data: seq<byte>, len: nat, frag: nat, off: nat) returns (steps: nat)
    requires |data| == len + 1 && frag <= off
    requires Visit(data, len, frag, off).next.Some? && Visit(data, len, frag, off).inside
    ensures ExpandsBack(data, len, frag, off, Labels(Visit(data, len, frag, off).events), steps)
    decreases frag, len - off
  {
    var v := Visit(data, len, frag, off);
    var n := data[off] as nat;
    if n == 0 {
      steps := 1;
    } else {
      var m: nat;
      if n < 0xC0 {
        m := VisitedIsExpansion(data, len, frag, off + 1 + n);
        assert Labels(v.events)[1..] == Labels(v.events[1..]);
      } else {
        var address := Pointer(data[off], data[off + 1]);
        m := VisitedIsExpansion(data, len, address, address);
        assert Labels(v.events) == Labels(v.events[1..]);
      }
      steps := m + 1;
    }
  }

  lemma {:induction false} ExpansionIsVisited(data: seq<byte>, len: nat, frag: nat, off: nat, names: seq<seq<byte>>,
      steps: nat)
    requires |data| == len + 1 && frag <= off && ExpandsBack(data, len, frag, off, names, steps)
    ensures var v := Visit(data, len, frag, off); v.next.Some? && v.inside && Labels(v.events) == names
    decreases steps
  {
    var v := Visit(data, len, frag, off);
    var n := data[off] as nat;
    if 0 < n <= 63 {
      ExpansionIsVisited(data, len, frag, off + 1 + n, names[1..], steps - 1);
      assert Labels(v.events)[1..] == names[1..];
    } else if n >= 0xC0 {
      var address := Pointer(data[off], data[off + 1]);
      ExpansionIsVisited(data, len, address, address, names, steps - 1);
      assert Labels(v.events) == Labels(v.events[1..]);
    }
  }

  ghost predicate HasExpansion(data: seq<byte>, len: nat, start: nat, names: seq<seq<byte>>)
    requires |data| == len + 1
  {
    exists steps: nat :: ExpandsBack(data, len, start, start, names, steps)
  }

  /**
   The reader accepts a name inside the packet exactly when it expands with backward pointers only,
   and then visits exactly the labels of that expansion.
   */
  lemma ReaderVisitsExpansion(data: seq<byte>, len: nat, start: nat, names: seq<seq<byte>>)
    requires |data| == len + 1
    ensures var v := Visit(data, len, start, start);
      (v.next.Some? && v.inside && Labels(v.events) == names) <==> HasExpansion(data, len, start, names)
  {
    var v := Visit(data, len, start, start);
    if HasExpansion(data, len, start, names) {
      var steps: nat :| ExpandsBack(data, len, start, start, names, steps);
      ExpansionIsVisited(data, len, start, start, names, steps);
    }
    if v.next.Some? && v.inside && Labels(v.events) == names {
      var steps := VisitedIsExpansion(data, len, start, start);
      assert ExpandsBack(data, len, start, start, names, steps);
    }
  }

  /** What it visits is the only expansion RFC 1035 gives the name, whatever the pointers. */
  lemma ReaderVisitsTheExpansion(data: seq<byte>, len: nat, start: nat, names: seq<seq<byte>>, steps: nat)
    requires |data| == len + 1 && Expands(data, len, start, names, steps)
    ensures var v := Visit(data, len, start, start); v.next.Some? && v.inside ==> Labels(v.events) == names
  {
    var v := Visit(data, len, start, start);
    if v.next.Some? && v.inside {
      var m := VisitedIsExpansion(data, len, start, start);
      BackExpands(data, len, start, start, Labels(v.events), m);
      ExpandsOnce(data, len, start, names, steps, Labels(v.events), m);
    }
  }

  /** The reader always moves on, and never further than one byte past the packet. */
  lemma {:induction false} ReaderMovesOn(data: seq<byte>, len: nat, frag: nat, off: nat)
    requires |data| == len + 1 && frag <= off
    ensures var v := Visit(data, len, frag, off);
      v.next.Some? ==> off < v.next.value && (off <= len ==> v.next.value <= len + 1) && (v.inside ==> v.next.value <= len)
    decreases frag, len - off
  {
    if off >= len || data[off] == 0 {
    } else {
      if data[off] < 0xC0 {
        if off + 1 + data[off] as nat <= len {
          ReaderMovesOn(data, len, frag, off + 1 + data[off] as nat);
        }
      } else if Pointer(data[off], data[off + 1]) < frag {
        ReaderMovesOn(data, len, Pointer(data[off], data[off + 1]), Pointer(data[off], data[off + 1]));
      }
    }
  }

  /** Behind the name in its own fragment: after its zero octet or its first pointer. */
  function NameEnd(data: seq<byte>, len: nat, off: nat): nat
    requires |data| == len + 1
    decreases len - off
  {
    if off >= len || data[off] == 0 then off + 1
    else if data[off] >= 0xC0 then off + 2
    else NameEnd(data, len, off + 1 + data[off] as nat)
  }

  /** However deep the pointers lead, the reader goes on right behind the name. */
  lemma {:induction false} ReaderReturnsNameEnd(data: seq<byte>, len: nat, frag: nat, off: nat)
    requires |data| == len + 1 && frag <= off
    ensures Visit(data, len, frag, off).next.Some? ==> Visit(data, len, frag, off).next.value == NameEnd(data, len, off)
    decreases len - off
  {
    if off < len && 0 < data[off] < 0xC0 && off + 1 + data[off] as nat <= len {
      ReaderReturnsNameEnd(data, len, frag, off + 1 + data[off] as nat);
    }
  }

  // ----- What the labels become -----

  /** A label as it fills a field of its own. */
  predicate Plain(octets: seq<byte>) {
    !SameText(CStr(octets), SUB)
  }

  predicate Tagged(octets: seq<byte>) {
    octets != [] && octets[0] == UNDERSCORE && Plain(octets)
  }

  lemma LocalText()
    ensures CStr(LOCAL) == LOCAL && SameText(LOCAL, LOCAL) && !ExtendsHost(LOCAL) && Plain(LOCAL)
  {
    CStrNoNul(LOCAL);
    SameRefl(LOCAL);
    assert Lower(LOCAL[0]) != Lower(SUB[0]);
  }

  lemma {:induction false} SameRefl(a: Text)
    ensures SameText(a, a)
  {
    if a == [] {
    } else {
      SameRefl(a[1..]);
    }
  }

  lemma AbsorbPlain(v: NameView, octets: seq<byte>)
    requires v.parts < 4 && !v.invalid && Plain(octets) && (v.parts == 1 ==> !ExtendsHost(octets))
    ensures Absorb(v, Label(octets)) == SetPart(v, CStr(octets))
  {
  }

  lemma AbsorbHost(v: NameView, octets: seq<byte>)
    requires v.parts == 1 && ExtendsHost(octets)
    ensures Absorb(v, Label(octets)) == v.(host := Cat(Cat(v.host, [DOT]), CStr(octets)))
  {
  }

  predicate Short(names: seq<seq<byte>>) {
    names == [] || (|names[0]| <= 63 && Short(names[1..]))
  }

  /** A reader that returns an address was never stopped, and read no label longer than 63 bytes. */
  lemma {:induction false} AcceptedRunsOn(data: seq<byte>, len: nat, frag: nat, off: nat)
    requires |data| == len + 1 && frag <= off && Visit(data, len, frag, off).next.Some?
    ensures Stop !in Visit(data, len, frag, off).events && Short(Labels(Visit(data, len, frag, off).events))
    decreases frag, len - off
  {
    if off >= len || data[off] == 0 {
    } else {
      var events := Visit(data, len, frag, off).events;
      if data[off] < 0xC0 {
        AcceptedRunsOn(data, len, frag, off + 1 + data[off] as nat);
        assert Labels(events)[1..] == Labels(events[1..]);
      } else {
        var address := Pointer(data[off], data[off + 1]);
        AcceptedRunsOn(data, len, address, address);
        assert Labels(events) == Labels(events[1..]);
      }
      assert events == [events[0]] + events[1..];
    }
  }

  /** The last label is followed by a pointer, which then leads to a zero octet. */
  predicate EndsInHop(es: seq<Event>) {
    es != [] && es[|es| - 1].Hop?
  }

  /** While a field is free, pointers change nothing: the name goes on with the next label. */
  lemma {:induction false} AbsorbNext(v: NameView, es: seq<Event>) returns (rest: seq<Event>)
    requires v.parts < 4 && Stop !in es && Labels(es) != []
    ensures Stop !in rest && Labels(rest) == Labels(es)[1..] && (EndsInHop(rest) <==> EndsInHop(es))
    ensures AbsorbAll(v, es) == AbsorbAll(Absorb(v, Label(Labels(es)[0])), rest)
    decreases |es|
  {
    if es[0].Label? {
      rest := es[1..];
      assert Labels(es)[1..] == Labels(rest);
    } else {
      assert es[0] in es;
      assert Labels(es) == Labels(es[1..]);
      rest := AbsorbNext(v, es[1..]);
    }
  }

  /** Behind the last label they make a full name invalid. */
  lemma {:induction false} AbsorbEnd(v: NameView, es: seq<Event>)
    requires v.parts <= 4 && Stop !in es && Labels(es) == []
    ensures EndsInHop(es) <==> es != []
    ensures AbsorbAll(v, es) == if v.parts == 4 && EndsInHop(es) then v.(invalid := true) else v
    decreases |es|
  {
    if es == [] {
    } else {
      assert es[0] in es;
      assert Labels(es) == Labels(es[1..]);
      AbsorbEnd(Absorb(v, es[0]), es[1..]);
    }
  }

  /** The next label fills the next field. */
  lemma PlainNext(v: NameView, es: seq<Event>, names: seq<seq<byte>>) returns (rest: seq<Event>)
    requires v.parts < 4 && !v.invalid && Stop !in es && Labels(es) == names && names != []
    requires Plain(names[0]) && (v.parts == 1 ==> !ExtendsHost(names[0]))
    ensures Stop !in rest && Labels(rest) == names[1..] && (EndsInHop(rest) <==> EndsInHop(es))
    ensures AbsorbAll(v, es) == AbsorbAll(SetPart(v, CStr(names[0])), rest)
  {
    AbsorbPlain(v, names[0]);
    rest := AbsorbNext(v, es);
  }

  /** The domains the responder answers for. */
  predicate OurDomain(octets: seq<byte>) {
    SameText(CStr(octets), LOCAL) || SameText(CStr(octets), ARPA)
  }

  /**
   A service instance name, however compressed: instance, service, protocol and domain end up in their
   four fields. It is valid iff the domain is "local" or "arpa" and no pointer follows it.
   */
  lemma ServiceInstanceName(data: seq<byte>, len: nat, start: nat, instance: seq<byte>, service: seq<byte>,
                            proto: seq<byte>, domain: seq<byte>)
    requires |data| == len + 1 && Plain(instance) && Tagged(service) && Tagged(proto) && Plain(domain)
    requires var v := Visit(data, len, start, start);
      v.next.Some? && Labels(v.events) == [instance, service, proto, domain]
    ensures var v := Visit(data, len, start, start);
      Parsed(v) == NameView(CStr(instance), CStr(service), CStr(proto), CStr(domain), 4, false,
                            EndsInHop(v.events) || !OurDomain(domain))
  {
    AcceptedRunsOn(data, len, start, start);
    FillsFour(Visit(data, len, start, start).events, instance, service, proto, domain);
  }

  lemma FillsFour(es: seq<Event>, instance: seq<byte>, service: seq<byte>, proto: seq<byte>, domain: seq<byte>)
    requires Stop !in es && Labels(es) == [instance, service, proto, domain]
    requires Plain(instance) && Tagged(service) && Tagged(proto) && Plain(domain)
    ensures AbsorbAll(EMPTY_NAME, es) ==
            NameView(CStr(instance), CStr(service), CStr(proto), CStr(domain), 4, false, EndsInHop(es))
  {
    assert [instance, service, proto, domain] == [instance] + [service, proto, domain];
    var rest := PlainFirst(EMPTY_NAME, es, instance, [service, proto, domain]);
    FillsLastThree(SetPart(EMPTY_NAME, CStr(instance)), rest, service, proto, domain);
  }

  lemma FillsLastTwo(v: NameView, es: seq<Event>, proto: seq<byte>, domain: seq<byte>)
    requires v.parts == 2 && !v.invalid && Stop !in es && Labels(es) == [proto, domain] && Plain(proto) && Plain(domain)
    ensures AbsorbAll(v, es) == v.(proto := CStr(proto), domain := CStr(domain), parts := 4, invalid := EndsInHop(es))
  {
    var v1 := SetPart(v, CStr(proto));
    var rest := PlainNext(v, es, [proto, domain]);
    rest := PlainNext(v1, rest, [domain]);
    AbsorbEnd(SetPart(v1, CStr(domain)), rest);
  }

  /**
   A service type name, as a browser asks for it: service, protocol and domain end up in theirs, whatever
   the pointers, and it is valid iff the domain is "local" or "arpa".
   */
  lemma ServiceTypeName(data: seq<byte>, len: nat, start: nat, service: seq<byte>, proto: seq<byte>, domain: seq<byte>)
    requires |data| == len + 1 && Tagged(service) && Tagged(proto) && Plain(domain)
    requires var v := Visit(data, len, start, start); v.next.Some? && Labels(v.events) == [service, proto, domain]
    ensures Parsed(Visit(data, len, start, start)) ==
            NameView([], CStr(service), CStr(proto), CStr(domain), 3, false, !OurDomain(domain))
  {
    AcceptedRunsOn(data, len, start, start);
    FillsThree(EMPTY_NAME, Visit(data, len, start, start).events, service, proto, domain);
  }

  lemma FillsThree(v: NameView, es: seq<Event>, service: seq<byte>, proto: seq<byte>, domain: seq<byte>)
    requires v == EMPTY_NAME.(sub := v.sub) && Stop !in es && Labels(es) == [service, proto, domain]
    requires Tagged(service) && Tagged(proto) && Plain(domain)
    ensures AbsorbAll(v, es) == NameView(CStr(service), CStr(proto), CStr(domain), [], 3, v.sub, false)
  {
    var v1 := SetPart(v, CStr(service));
    var v2 := SetPart(v1, CStr(proto));
    var rest := PlainNext(v, es, [service, proto, domain]);
    rest := PlainNext(v1, rest, [proto, domain]);
    rest := PlainNext(v2, rest, [domain]);
    AbsorbEnd(SetPart(v2, CStr(domain)), rest);
  }

  /** A subtype name: the subtype's own label ends up as the host, "_sub" is noted, and the rest is as above. */
  lemma SubtypeName(data: seq<byte>, len: nat, start: nat, subtype: seq<byte>, service: seq<byte>, proto: seq<byte>,
                    domain: seq<byte>)
    requires |data| == len + 1 && Plain(subtype) && Tagged(service) && Tagged(proto) && Plain(domain)
    requires var v := Visit(data, len, start, start);
      v.next.Some? && Labels(v.events) == [subtype, SUB, service, proto, domain]
    ensures var v := Visit(data, len, start, start);
      Parsed(v) == NameView(CStr(subtype), CStr(service), CStr(proto), CStr(domain), 4, true,
                            EndsInHop(v.events) || !OurDomain(domain))
  {
    AcceptedRunsOn(data, len, start, start);
    assert [subtype, SUB, service, proto, domain] == [subtype] + ([SUB] + [service, proto, domain]);
    FillsSubtype(Visit(data, len, start, start).events, subtype, [service, proto, domain], service, proto, domain);
  }

  lemma FillsSubtype(es: seq<Event>, subtype: seq<byte>, tail: seq<seq<byte>>, service: seq<byte>, proto: seq<byte>,
                     domain: seq<byte>)
    requires Stop !in es && Labels(es) == [subtype] + ([SUB] + tail) && tail == [service, proto, domain]
    requires Plain(subtype) && Tagged(service) && Plain(proto) && Plain(domain)
    ensures AbsorbAll(EMPTY_NAME, es) ==
            NameView(CStr(subtype), CStr(service), CStr(proto), CStr(domain), 4, true, EndsInHop(es))
  {
    var v1 := SetPart(EMPTY_NAME, CStr(subtype));
    var rest := PlainFirst(EMPTY_NAME, es, subtype, [SUB] + tail);
    rest := NotesSub(v1, rest, tail);
    FillsLastThree(v1.(sub := true), rest, service, proto, domain);
  }

  lemma PlainFirst(v: NameView, es: seq<Event>, name: seq<byte>, names: seq<seq<byte>>) returns (rest: seq<Event>)
    requires v.parts < 4 && !v.invalid && Stop !in es && Labels(es) == [name] + names
    requires Plain(name) && (v.parts == 1 ==> !ExtendsHost(name))
    ensures Stop !in rest && Labels(rest) == names && (EndsInHop(rest) <==> EndsInHop(es))
    ensures AbsorbAll(v, es) == AbsorbAll(SetPart(v, CStr(name)), rest)
  {
    rest := PlainNext(v, es, [name] + names);
    assert ([name] + names)[1..] == names;
  }

  lemma FillsLastThree(v: NameView, es: seq<Event>, service: seq<byte>, proto: seq<byte>, domain: seq<byte>)
    requires v.parts == 1 && !v.invalid && Stop !in es && Labels(es) == [service, proto, domain]
    requires Tagged(service) && Plain(proto) && Plain(domain)
    ensures AbsorbAll(v, es) ==
            v.(service := CStr(service), proto := CStr(proto), domain := CStr(domain), parts := 4, invalid := EndsInHop(es))
  {
    var rest := PlainNext(v, es, [service, proto, domain]);
    FillsLastTwo(SetPart(v, CStr(service)), rest, proto, domain);
  }

  lemma NotesSub(v: NameView, es: seq<Event>, names: seq<seq<byte>>) returns (rest: seq<Event>)
    requires v.parts == 1 && !v.invalid && Stop !in es && Labels(es) == [SUB] + names
    ensures Stop !in rest && Labels(rest) == names && (EndsInHop(rest) <==> EndsInHop(es))
    ensures AbsorbAll(v, es) == AbsorbAll(v.(sub := true), rest)
  {
    CStrNoNul(SUB);
    SameRefl(SUB);
    rest := AbsorbNext(v, es);
    assert ([SUB] + names)[1..] == names;
  }

  /** No accepted name of at least one part is valid under any other domain. */
  lemma OtherDomainsInvalid(data: seq<byte>, len: nat, start: nat)
    requires |data| == len + 1 && Visit(data, len, start, start).next.Some?
    ensures var name := Parsed(Visit(data, len, start, start));
      name.parts > 0 && !name.invalid ==> SameText(name.domain, LOCAL) || SameText(name.domain, ARPA)
  {
  }

  /** The labels stand uncompressed from `off` up to `at`. */
  predicate LaidOut(data: seq<byte>, off: nat, names: seq<seq<byte>>, at: nat)
    decreases |names|
  {
    if names == [] then off == at
    else
      var next := off + 1 + |names[0]|;
      0 < |names[0]| <= 63 && next <= at < |data| && data[off] as nat == |names[0]| && data[off + 1..next] == names[0] &&
      LaidOut(data, next, names[1..], at)
  }

  /** From `off` on the reader finds these labels, then a last pointer in front of `next`. */
  predicate Reads(data: seq<byte>, len: nat, frag: nat, off: nat, names: seq<seq<byte>>, next: nat)
    requires |data| == len + 1 && frag <= off
  {
    var v := Visit(data, len, frag, off);
    v.next == Some(next) && v.inside && EndsInHop(v.events) && Labels(v.events) == names
  }

  lemma ReadsLabel(data: seq<byte>, len: nat, frag: nat, off: nat, names: seq<seq<byte>>, next: nat)
    requires |data| == len + 1 && frag <= off && names != []
    requires LabelAt(data, len, off) && data[off + 1..off + 1 + data[off] as nat] == names[0]
    requires Reads(data, len, frag, off + 1 + |names[0]|, names[1..], next)
    ensures Reads(data, len, frag, off, names, next)
  {
    var v, w := Visit(data, len, frag, off), Visit(data, len, frag, off + 1 + |names[0]|);
    assert v.events[1..] == w.events;
    assert Labels(v.events) == [names[0]] + names[1..] == names;
  }

  lemma {:induction false} ReadsAll(data: seq<byte>, len: nat, frag: nat, off: nat, names: seq<seq<byte>>, at: nat,
      next: nat)
    requires |data| == len + 1 && frag <= off && LaidOut(data, off, names, at) && frag <= at
    requires Reads(data, len, frag, at, [], next)
    ensures Reads(data, len, frag, off, names, next)
    decreases |names|
  {
    if names == [] {
    } else {
      ReadsAll(data, len, frag, off + 1 + |names[0]|, names[1..], at, next);
      ReadsLabel(data, len, frag, off, names, next);
    }
  }

  lemma ReadsRootPointer(data: seq<byte>, len: nat, frag: nat, off: nat)
    requires |data| == len + 1 && 1 <= frag <= off && off + 2 <= len && data[0] == 0 && data[off] == 0xC0 &&
             data[off + 1] == 0
    ensures Reads(data, len, frag, off, [], off + 2)
  {
    assert Visit(data, len, 0, 0) == Visited([], Some(1), true);
    assert Visit(data, len, frag, off).events == [Hop];
  }

  /** A pointer to a zero octet in front of it may end a name just as well; the reader takes it and calls it invalid. */
  lemma RootPointerInvalidates(data: seq<byte>, len: nat, start: nat, at: nat, instance: seq<byte>,
      service: seq<byte>, proto: seq<byte>)
    requires |data| == len + 1 && 1 <= start <= at && at + 2 <= len && data[0] == 0 && data[at] == 0xC0 &&
             data[at + 1] == 0
    requires LaidOut(data, start, [instance, service, proto, LOCAL], at)
    requires Plain(instance) && Tagged(service) && Tagged(proto)
    ensures var v := Visit(data, len, start, start);
      v.next.Some? && v.inside && Labels(v.events) == [instance, service, proto, LOCAL] && Parsed(v).invalid
  {
    ReadsRootPointer(data, len, start, at);
    ReadsAll(data, len, start, start, [instance, service, proto, LOCAL], at, at + 2);
    LocalText();
    ServiceInstanceName(data, len, start, instance, service, proto, LOCAL);
  }

  /** A host name in dotted form. */
  function Dotted(first: Text, more: seq<seq<byte>>): Text
    decreases |more|
  {
    if more == [] then first else Dotted(first + [DOT] + CStr(more[0]), more[1..])
  }

  function Cut(t: Text): Text {
    if |t| < NAME_BUF_LEN then t else t[..NAME_BUF_LEN - 1]
  }

  lemma CatOfCut(a: Text, b: Text)
    ensures Cat(Cut(a), b) == Cut(a + b)
  {
  }

  /** The labels of a host name go to the host field one after the other; the rest of the name is left. */
  lemma {:induction false} AbsorbHostLabels(v: NameView, first: Text, more: seq<seq<byte>>, names: seq<seq<byte>>,
                                            es: seq<Event>) returns (rest: seq<Event>)
    requires v.parts == 1 && !v.invalid && v.host == Cut(first)
    requires Stop !in es && Labels(es) == more + names && forall m | m in more :: ExtendsHost(m)
    ensures Stop !in rest && Labels(rest) == names && (EndsInHop(rest) <==> EndsInHop(es))
    ensures AbsorbAll(v, es) == AbsorbAll(v.(host := Cut(Dotted(first, more))), rest)
    decreases |more|
  {
    if more == [] {
      assert more + names == names;
      assert v.(host := Cut(first)) == v;
      rest := es;
    } else {
      var next := first + [DOT] + CStr(more[0]);
      CatOfCut(first, [DOT]);
      CatOfCut(first + [DOT], CStr(more[0]));
      AbsorbHost(v, more[0]);
      rest := AbsorbNext(v, es);
      assert (more + names)[1..] == more[1..] + names;
      rest := AbsorbHostLabels(v.(host := Cut(next)), next, more[1..], names, rest);
    }
  }

  /** A host name of any number of labels under "local", however compressed: its dotted form, cut to the field. */
  lemma HostName(data: seq<byte>, len: nat, start: nat, first: seq<byte>, more: seq<seq<byte>>)
    requires |data| == len + 1 && Plain(first) && forall m | m in more :: ExtendsHost(m)
    requires var v := Visit(data, len, start, start); v.next.Some? && Labels(v.events) == [first] + (more + [LOCAL])
    ensures Parsed(Visit(data, len, start, start)) ==
            NameView(Cut(Dotted(CStr(first), more)), [], [], LOCAL, 2, false, false)
  {
    LocalText();
    AcceptedRunsOn(data, len, start, start);
    var v := FillsHost(Visit(data, len, start, start).events, first, more, [LOCAL]);
    var rest := PlainNext(v.0, v.1, [LOCAL]);
    AbsorbEnd(SetPart(v.0, LOCAL), rest);
  }

  lemma FillsHost(es: seq<Event>, first: seq<byte>, more: seq<seq<byte>>, names: seq<seq<byte>>)
    returns (v: (NameView, seq<Event>))
    requires Stop !in es && Labels(es) == [first] + (more + names) && Short(Labels(es))
    requires Plain(first) && forall m | m in more :: ExtendsHost(m)
    ensures v.0 == EMPTY_NAME.(host := Cut(Dotted(CStr(first), more)), parts := 1)
    ensures Stop !in v.1 && Labels(v.1) == names && (EndsInHop(v.1) <==> EndsInHop(es))
    ensures AbsorbAll(EMPTY_NAME, es) == AbsorbAll(v.0, v.1)
  {
    CStrIsPrefix(first);
    var rest := PlainFirst(EMPTY_NAME, es, first, more + names);
    rest := AbsorbHostLabels(SetPart(EMPTY_NAME, CStr(first)), CStr(first), more, names, rest);
    v := (EMPTY_NAME.(host := Cut(Dotted(CStr(first), more)), parts := 1), rest);
  }

  lemma {:induction false} OneOfAt(a: Text, words: seq<Text>, i: nat)
    requires i < |words| && SameText(a, words[i])
    ensures OneOf(a, words)
  {
    if i == 0 {
    } else {
      OneOfAt(a, words[1..], i - 1);
    }
  }

  lemma ReverseText(zone: seq<byte>)
    requires zone == [105, 110, 45, 97, 100, 100, 114] || zone == [105, 112, 54]
    ensures Plain(zone) && !ExtendsHost(zone) && CStr(zone) == zone
    ensures Plain(ARPA) && CStr(ARPA) == ARPA && SameText(ARPA, ARPA)
  {
    CStrNoNul(zone);
    SameRefl(zone);
    CStrNoNul(ARPA);
    SameRefl(ARPA);
    assert Lower(zone[0]) != Lower(SUB[0]) && Lower(ARPA[0]) != Lower(SUB[0]);
    OneOfAt(zone, HOST_ENDS, if zone == IN_ADDR then 3 else 2);
  }

  /** The name of a reverse lookup: the dotted address, "in-addr" or "ip6", and "arpa", as service, protocol and domain. */
  lemma ReverseName(data: seq<byte>, len: nat, start: nat, first: seq<byte>, more: seq<seq<byte>>, zone: seq<byte>)
    requires |data| == len + 1 && Plain(first) && forall m | m in more :: ExtendsHost(m)
    requires zone == [105, 110, 45, 97, 100, 100, 114] || zone == [105, 112, 54]
    requires var v := Visit(data, len, start, start);
      v.next.Some? && Labels(v.events) == [first] + (more + [zone, ARPA])
    ensures Parsed(Visit(data, len, start, start)) ==
            NameView([], Cut(Dotted(CStr(first), more)), zone, ARPA, 3, false, false)
  {
    ReverseText(zone);
    AcceptedRunsOn(data, len, start, start);
    var v := FillsHost(Visit(data, len, start, start).events, first, more, [zone, ARPA]);
    FillsReverse(v.0, v.1, zone);
  }

  lemma FillsReverse(v: NameView, es: seq<Event>, zone: seq<byte>)
    requires v.parts == 1 && !v.invalid && Stop !in es && Labels(es) == [zone, ARPA]
    requires Plain(zone) && !ExtendsHost(zone) && CStr(zone) == zone && Plain(ARPA) && CStr(ARPA) == ARPA
    ensures AbsorbAll(v, es) == v.(service := zone, proto := ARPA, parts := 3)
  {
    var rest := PlainNext(v, es, [zone, ARPA]);
    rest := PlainNext(SetPart(v, zone), rest, [ARPA]);
    AbsorbEnd(SetPart(SetPart(v, zone), ARPA), rest);
  }
}
