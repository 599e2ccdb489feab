/**
 TXT record data of managed_components/espressif__mdns/mdns.c: the encoder writes into a packet
 buffer behind an advancing index, the decoder walks the received data.
 */
module TxtRecord {
  import opened Bytes

  const MDNS_MAX_PACKET_SIZE: nat := 1460
  const EQUALS: byte := 61

  datatype Value = Absent | Present(bytes: seq<byte>)

  /** mdns_txt_linked_item_t on the way out, mdns_txt_item_t on the way in. */
  datatype Entry = Entry(key: seq<byte>, value: Value)

  // ----- Encoding -----

  function Text(e: Entry): seq<byte> {
    e.key + (if e.value.Present? then [EQUALS] + e.value.bytes else [])
  }

  /** The length byte keeps the low eight bits of the length. */
  function Encoded(e: Entry): seq<byte> {
    [(|Text(e)| % 256) as byte] + Text(e)
  }

  function EncodedAll(es: seq<Entry>): seq<byte> {
    if es == [] then [] else Encoded(es[0]) + EncodedAll(es[1..])
  }

  /** The data of a TXT record: without any entry it is a single zero byte. */
  function RecordData(es: seq<Entry>): seq<byte> {
    if es == [] then [0] else EncodedAll(es)
  }

  /** Section 6.3 of RFC 6763: a length byte, the key, and for a value an '=' and the value. */
  lemma WireFormat(key: seq<byte>, value: seq<byte>)
    requires |key| + 1 + |value| <= 255
    ensures Encoded(Entry(key, Present(value))) == [(|key| + 1 + |value|) as byte] + key + [61] + value
    ensures Encoded(Entry(key, Absent)) == [|key| as byte] + key
  {
    assert key + ([61] + value) == key + [61] + value;
    assert key + [] == key;
  }

  lemma {:induction false} EncodedAppend(es: seq<Entry>, e: Entry)
    ensures EncodedAll(es + [e]) == EncodedAll(es) + Encoded(e)
  {
    if es == [] {
      assert es + [e] == [e] && [e][1..] == [];
    } else {
      EncodedAppend(es[1..], e);
      assert (es + [e])[1..] == es[1..] + [e];
      var first, rest := Encoded(es[0]), EncodedAll(es[1..]);
      assert first + (rest + Encoded(e)) == first + rest + Encoded(e);
    }
  }

  lemma {:induction false} EncodedPrefix(es: seq<Entry>, n: nat)
    requires n <= |es|
    ensures |EncodedAll(es[..n])| <= |EncodedAll(es)|
    ensures n > 0 ==> |EncodedAll(es[..n])| > 0
    decreases |es| - n
  {
    if n < |es| {
      EncodedPrefix(es, n + 1);
      EncodedAppend(es[..n], es[n]);
      assert es[..n + 1] == es[..n] + [es[n]];
    } else {
      assert es[..n] == es;
    }
  }

  /** append_one_txt_record_entry: nothing changes when the entry does not fit. */
  method AppendEntry(packet: array<byte>, index: nat, e: Entry) returns (l: nat, next: nat)
    requires index <= packet.Length == MDNS_MAX_PACKET_SIZE
    modifies packet
    ensures l == 0 <==> index + |Encoded(e)| >= MDNS_MAX_PACKET_SIZE
    ensures l == 0 ==> next == index && packet[..] == old(packet[..])
    ensures l > 0 ==> l == |Encoded(e)| && next == index + l <= packet.Length
    ensures l > 0 ==> packet[..next] == old(packet[..index]) + Encoded(e)
  {
    var len := |e.key| + (if e.value.Present? then |e.value.bytes| + 1 else 0);
    if index + len + 1 >= MDNS_MAX_PACKET_SIZE {
      return 0, index;
    }
    ghost var before := packet[..index];
    next := Append(packet, index, [(len % 256) as byte]);
    next := Append(packet, next, e.key);
    assert packet[..next] == before + ([(len % 256) as byte] + e.key);
    if e.value.Present? {
      next := Append(packet, next, [EQUALS] + e.value.bytes);
      assert packet[..next] == before + ([(len % 256) as byte] + (e.key + ([EQUALS] + e.value.bytes)));
    }
    l := len + 1;
  }

  /** The loop over the entries; `dataLen` adds up what was appended. */
  method AppendEntries(packet: array<byte>, index: nat, es: seq<Entry>) returns (ok: bool, dataLen: nat, next: nat)
    requires index < packet.Length == MDNS_MAX_PACKET_SIZE
    modifies packet
    ensures ok <==> index + |EncodedAll(es)| < MDNS_MAX_PACKET_SIZE
    ensures ok ==> dataLen == |EncodedAll(es)| && next == index + dataLen < packet.Length
    ensures ok ==> packet[..next] == old(packet[..index]) + EncodedAll(es)
  {
    dataLen, next := 0, index;
    var k := 0;
    while k < |es|
      invariant k <= |es| && dataLen == |EncodedAll(es[..k])| && next == index + dataLen < packet.Length
      invariant packet[..next] == old(packet[..index]) + EncodedAll(es[..k])
    {
      EncodedAppend(es[..k], es[k]);
      assert es[..k + 1] == es[..k] + [es[k]];
      EncodedPrefix(es, k + 1);
      var l;
      l, next := AppendEntry(packet, next, es[k]);
      if l == 0 {
        return false, 0, next;
      }
      dataLen := dataLen + l;
      k := k + 1;
    }
    assert es[..k] == es;
    ok := true;
  }

  /** The data part of _mdns_append_txt_record behind a two-byte length field at `index - 2`. */
  method AppendData(packet: array<byte>, index: nat, es: seq<Entry>) returns (dataLen: nat, next: nat)
    requires 2 <= index < packet.Length == MDNS_MAX_PACKET_SIZE
    modifies packet
    ensures dataLen == 0 <==> index + |EncodedAll(es)| >= MDNS_MAX_PACKET_SIZE
    ensures dataLen > 0 ==> dataLen == |RecordData(es)| < 65536 && next == index + dataLen <= packet.Length
    ensures dataLen > 0 ==> packet[..index - 2] == old(packet[..index - 2]) && packet[index..next] == RecordData(es)
    ensures dataLen > 0 ==> U16(packet[index - 1], packet[index - 2]) == dataLen
  {
    var ok;
    ok, dataLen, next := AppendEntries(packet, index, es);
    if !ok {
      return 0, next;
    }
    EncodedPrefix(es, |es|);
    assert es[..|es|] == es;
    assert packet[..index] == packet[..next][..index] == old(packet[..index]);
    assert packet[index..next] == packet[..next][index..] == EncodedAll(es);
    if dataLen == 0 {
      dataLen := 1;
      packet[next] := 0;
      next := next + 1;
    }
    assert packet[index..next] == RecordData(es);
    assert packet[..index - 2] == old(packet[..index])[..index - 2];
    packet[index - 2] := (dataLen / 256) as byte;
    packet[index - 1] := (dataLen % 256) as byte;
  }

  // ----- Decoding -----

  /** Length of the key in one item, or -1 when it starts with '='. */
  function NameLen(item: seq<byte>): (n: int)
    requires item != []
    ensures -1 <= n <= |item|
  {
    if item[0] == EQUALS then -1 else FirstEquals(item, 0)
  }

  function FirstEquals(item: seq<byte>, i: nat): (n: nat)
    requires i <= |item|
    ensures i <= n <= |item|
    decreases |item| - i
  {
    if i == |item| || item[i] == EQUALS then i else FirstEquals(item, i + 1)
  }

  lemma {:induction false} FirstEqualsFacts(item: seq<byte>, i: nat)
    requires i <= |item|
    ensures var n := FirstEquals(item, i);
      (forall j | i <= j < n :: item[j] != EQUALS) && (n < |item| ==> item[n] == EQUALS)
    decreases |item| - i
  {
    if i >= |item| || item[i] == EQUALS {
    } else {
      FirstEqualsFacts(item, i + 1);
    }
  }

  /** The key is everything before the first '='. */
  lemma NameLenIs(item: seq<byte>, n: nat)
    requires 0 < n <= |item| && EQUALS !in item[..n] && (n < |item| ==> item[n] == EQUALS)
    ensures NameLen(item) == n
  {
    FirstEqualsFacts(item, 0);
    assert forall j | 0 <= j < n :: item[j] == item[..n][j];
  }

  datatype Parsed = Bad | Good(items: seq<Entry>)

  function Prepend(e: Entry, p: Parsed): Parsed {
    if p.Bad? then Bad else Good([e] + p.items)
  }

  /** One item and where the walk goes on: one byte further than the item when it has no '='. */
  function ItemAt(item: seq<byte>): (e: Entry)
    requires item != [] && NameLen(item) >= 0
  {
    var n := NameLen(item);
    Entry(item[..n], if |item| - n - 1 > 0 then Present(item[n + 1..]) else Absent)
  }

  function Advance(item: seq<byte>): nat
    requires item != [] && NameLen(item) >= 0
  {
    var n := NameLen(item);
    if |item| - n - 1 > 0 then |item| else n + 1
  }

  /** The second loop of _mdns_result_txt_create from offset `i`. */
  function Walk(data: seq<byte>, i: nat): Parsed
    decreases |data| - i
  {
    if i >= |data| || data[i] == 0 then Good([])
    else
      var part := data[i] as nat;
      if i + 1 + part > |data| then Bad
      else
        var item := data[i + 1..i + 1 + part];
        if NameLen(item) < 0 then Walk(data, i + 1 + part)
        else Prepend(ItemAt(item), Walk(data, i + 1 + Advance(item)))
  }

  /** _mdns_txt_items_count_get from offset `i`; -1 when an item overruns the data. */
  function Count(data: seq<byte>, i: nat): (n: int)
    ensures n >= -1
    decreases |data| - i
  {
    if i >= |data| || data[i] == 0 then 0
    else
      var part := data[i] as nat;
      if i + 1 + part > |data| then -1
      else
        var n := Count(data, i + 1 + part);
        if n < 0 then -1 else n + 1
  }

  /** _mdns_result_txt_create: no items when there are none or anything is malformed. */
  function Decode(data: seq<byte>): seq<Entry> {
    if |data| == 1 || Count(data, 0) <= 0 then []
    else match Walk(data, 0) case Bad => [] case Good(items) => items
  }

  /** _mdns_txt_items_count_get. */
  method ItemsCount(data: seq<byte>) returns (n: int)
    ensures n == if |data| == 1 then 0 else Count(data, 0)
  {
    if |data| == 1 {
      return 0;
    }
    var i := 0;
    n := 0;
    while i < |data|
      invariant n >= 0
      invariant Count(data, 0) == if Count(data, i) < 0 then -1 else n + Count(data, i)
      decreases |data| - i
    {
      var part := data[i] as nat;
      i := i + 1;
      if part == 0 {
        break;
      }
      if i + part > |data| {
        return -1;
      }
      i := i + part;
      n := n + 1;
    }
  }

  /** _mdns_txt_item_name_get_len. */
  method ItemNameLen(item: seq<byte>) returns (n: int)
    requires item != []
    ensures n == NameLen(item)
  {
    if item[0] == EQUALS {
      return -1;
    }
    var i := 0;
    while i < |item|
      invariant i <= |item| && FirstEquals(item, 0) == FirstEquals(item, i)
    {
      if item[i] == EQUALS {
        return i;
      }
      i := i + 1;
    }
    return |item|;
  }

  function Behind(items: seq<Entry>, p: Parsed): Parsed {
    if p.Bad? then Bad else Good(items + p.items)
  }

  lemma SubSlice(data: seq<byte>, i: nat, part: nat, a: nat, b: nat)
    requires i + part <= |data| && a <= b <= part
    ensures data[i..i + part][a..b] == data[i + a..i + b]
  {
    var x, y := data[i..i + part][a..b], data[i + a..i + b];
    assert |x| == |y| && forall k | 0 <= k < |x| :: x[k] == y[k];
  }

  /** One item of the walk behind its length byte: a key and maybe a value, or an item to skip. */
  method TakeItem(data: seq<byte>, i: nat, part: nat) returns (valid: bool, e: Entry, next: nat)
    requires i < |data| && data[i] as nat == part > 0 && i + 1 + part <= |data|
    ensures i < next && Walk(data, i) == if valid then Prepend(e, Walk(data, next)) else Walk(data, next)
  {
    var item := data[i + 1..i + 1 + part];
    var nameLen := ItemNameLen(item);
    e := Entry([], Absent);
    if nameLen < 0 {
      return false, e, i + 1 + part;
    }
    SubSlice(data, i + 1, part, 0, nameLen);
    var key := data[i + 1..i + 1 + nameLen];
    next := i + 1 + nameLen + 1;
    var valueLen := part - nameLen - 1;
    var value := Absent;
    if valueLen > 0 {
      SubSlice(data, i + 1, part, nameLen + 1, part);
      value := Present(data[next..next + valueLen]);
      next := next + valueLen;
    }
    e := Entry(key, value);
    assert e == ItemAt(item) && next == i + 1 + Advance(item);
    valid := true;
  }

  /** _mdns_result_txt_create with memory to spare. */
  method ResultTxtCreate(data: seq<byte>) returns (items: seq<Entry>)
    ensures items == Decode(data)
  {
    var num := ItemsCount(data);
    if num <= 0 {
      return [];
    }
    items := [];
    var i := 0;
    ghost var whole := Walk(data, 0);
    while i < |data|
      invariant whole == Behind(items, Walk(data, i))
      decreases |data| - i
    {
      var part := data[i] as nat;
      if part == 0 {
        break;
      }
      if i + 1 + part > |data| {
        return [];
      }
      var valid, e, next := TakeItem(data, i, part);
      if valid {
        Regroup(items, e, Walk(data, next));
        items := items + [e];
      }
      i := next;
    }
  }

  lemma Regroup(items: seq<Entry>, e: Entry, p: Parsed)
    ensures Behind(items, Prepend(e, p)) == Behind(items + [e], p)
  {
    if p.Good? {
      assert items + ([e] + p.items) == items + [e] + p.items;
    }
  }

  // ----- The round trip -----

  /** Sections 6.1 and 6.4 of RFC 6763: a non-empty C string without '=' as key, at most 255 bytes in all. */
  predicate WellFormed(e: Entry) {
    e.key != [] && EQUALS !in e.key && 0 !in e.key && |Text(e)| <= 255
  }

  /** An empty value comes back as no value. */
  function Norm(e: Entry): Entry {
    if e.value == Present([]) then Entry(e.key, Absent) else e
  }

  function NormAll(es: seq<Entry>): seq<Entry> {
    if es == [] then [] else [Norm(es[0])] + NormAll(es[1..])
  }

  ghost predicate AllWellFormed(es: seq<Entry>) {
    forall e | e in es :: WellFormed(e)
  }

  /** The condition of the round trip: an entry without a value may only come last. */
  ghost predicate ValuesUpToLast(es: seq<Entry>) {
    forall i | 0 <= i < |es| - 1 :: es[i].value.Present?
  }

  lemma ItemOfText(e: Entry)
    requires WellFormed(e)
    ensures Text(e) != [] && NameLen(Text(e)) == |e.key| && ItemAt(Text(e)) == Norm(e)
    ensures Advance(Text(e)) == |Text(e)| + (if e.value.Present? then 0 else 1)
  {
    var t := Text(e);
    var n := |e.key|;
    assert t[..n] == e.key;
    NameLenIs(t, n);
    assert e.value.Present? ==> t[n + 1..] == e.value.bytes;
  }

  /** A length byte and its item somewhere in the data. */
  ghost predicate EntryAt(data: seq<byte>, i: nat, t: seq<byte>) {
    i + 1 + |t| <= |data| && data[i] as nat == |t| && data[i + 1..i + 1 + |t|] == t
  }

  lemma Peel(d: seq<byte>, i: nat, b: byte, t: seq<byte>, tail: seq<byte>)
    requires i <= |d| && d[i..] == ([b] + t) + tail && b as nat == |t|
    ensures EntryAt(d, i, t) && d[i + 1 + |t|..] == tail
  {
    assert d[i] == d[i..][0];
    assert d[i + 1..i + 1 + |t|] == d[i..][1..1 + |t|] == t;
    assert d[i + 1 + |t|..] == d[i..][1 + |t|..] == tail;
  }

  /** Data that goes on with the encoding of `es` has the text of the first entry there. */
  lemma AtEntry(d: seq<byte>, i: nat, es: seq<Entry>)
    requires i <= |d| && d[i..] == EncodedAll(es) && es != [] && WellFormed(es[0])
    ensures EntryAt(d, i, Text(es[0])) && Text(es[0]) != []
    ensures d[i + 1 + |Text(es[0])|..] == EncodedAll(es[1..])
  {
    Peel(d, i, (|Text(es[0])| % 256) as byte, Text(es[0]), EncodedAll(es[1..]));
  }

  /** The data from `i` on is the encoding of `es`, entry by entry. */
  ghost predicate Encodes(d: seq<byte>, i: nat, es: seq<Entry>)
    decreases |es|
  {
    if es == [] then i == |d|
    else EntryAt(d, i, Text(es[0])) && Encodes(d, i + 1 + |Text(es[0])|, es[1..])
  }

  lemma {:induction false} EncodedIs(d: seq<byte>, i: nat, es: seq<Entry>)
    requires AllWellFormed(es) && i <= |d| && d[i..] == EncodedAll(es)
    ensures Encodes(d, i, es)
    decreases |es|
  {
    if es == [] {
    } else {
      AtEntry(d, i, es);
      EncodedIs(d, i + 1 + |Text(es[0])|, es[1..]);
    }
  }

  /** How long the encoding is and what its last byte is. */
  lemma {:induction false} EncodesEnd(d: seq<byte>, i: nat, es: seq<Entry>)
    requires Encodes(d, i, es)
    ensures |d| + Missing(es) == i + Size(NormAll(es))
    ensures es != [] && es[|es| - 1].value == Present([]) ==> d != [] && d[|d| - 1] == EQUALS
    decreases |es|
  {
    if es == [] {
    } else {
      var t := Text(es[0]);
      EncodesEnd(d, i + 1 + |t|, es[1..]);
      assert NormAll(es)[1..] == NormAll(es[1..]);
      if |es| == 1 && es[0].value == Present([]) {
        assert t[|t| - 1] == EQUALS;
        assert d[i + |t|] == d[i + 1..i + 1 + |t|][|t| - 1];
      }
    }
  }

  lemma CountStep(data: seq<byte>, i: nat, t: seq<byte>)
    requires EntryAt(data, i, t) && t != [] && Count(data, i + 1 + |t|) >= 0
    ensures Count(data, i) == Count(data, i + 1 + |t|) + 1
  {
  }

  lemma {:induction false} CountOfEncoded(d: seq<byte>, i: nat, es: seq<Entry>)
    requires AllWellFormed(es) && Encodes(d, i, es)
    ensures Count(d, i) == |es|
    decreases |es|
  {
    if es == [] {
    } else {
      assert WellFormed(es[0]);
      CountOfEncoded(d, i + 1 + |Text(es[0])|, es[1..]);
      CountStep(d, i, Text(es[0]));
    }
  }

  /** One well-formed entry at offset `i`, whatever surrounds it; without a value the walk goes on one byte late. */
  lemma WalkStep(data: seq<byte>, i: nat, e: Entry)
    requires WellFormed(e) && EntryAt(data, i, Text(e))
    ensures Walk(data, i) == Prepend(Norm(e), Walk(data, i + 1 + |Text(e)| + (if e.value.Present? then 0 else 1)))
  {
    ItemOfText(e);
  }

  lemma ValuesTail(es: seq<Entry>)
    requires |es| > 1 && ValuesUpToLast(es)
    ensures es[0].value.Present? && ValuesUpToLast(es[1..])
  {
    forall i | 0 <= i < |es[1..]| - 1
      ensures es[1..][i].value.Present?
    {
      assert es[i + 1].value.Present?;
    }
  }

  /** The walk's result for the first entry and the rest. */
  lemma GoodFirst(es: seq<Entry>, p: Parsed, q: Parsed)
    requires es != [] && p == Prepend(Norm(es[0]), q)
    ensures q == Good(NormAll(es[1..])) <==> p == Good(NormAll(es))
  {
    assert NormAll(es) == [Norm(es[0])] + NormAll(es[1..]);
    if p.Good? {
      assert p.items[1..] == q.items;
      assert NormAll(es)[1..] == NormAll(es[1..]);
    }
  }

  lemma {:induction false} WalkOfEncoded(d: seq<byte>, i: nat, es: seq<Entry>)
    requires AllWellFormed(es) && ValuesUpToLast(es) && Encodes(d, i, es)
    ensures Walk(d, i) == Good(NormAll(es))
    decreases |es|
  {
    if es == [] {
      WalkEnds(d, i);
    } else {
      WalkStep(d, i, es[0]);
      var next := i + 1 + |Text(es[0])|;
      if |es| > 1 {
        ValuesTail(es);
        WalkOfEncoded(d, next, es[1..]);
        GoodFirst(es, Walk(d, i), Walk(d, next));
      } else {
        WalkEnds(d, next);
        WalkEnds(d, next + 1);
        GoodFirst(es, Walk(d, i), Good([]));
      }
    }
  }

  lemma WalkEnds(d: seq<byte>, i: nat)
    requires i >= |d|
    ensures Walk(d, i) == Good([])
  {
  }

  /** Bytes an item takes with its length byte and '=', whether or not it has one. */
  function Size(es: seq<Entry>): nat {
    if es == [] then 0
    else 2 + |es[0].key| + (if es[0].value.Present? then |es[0].value.bytes| else 0) + Size(es[1..])
  }

  function Missing(es: seq<Entry>): nat {
    if es == [] then 0 else (if es[0].value.Present? then 0 else 1) + Missing(es[1..])
  }

  /** An item is charged exactly what the walk advances by. */
  lemma ItemSize(item: seq<byte>, tail: seq<Entry>)
    requires item != [] && NameLen(item) >= 0
    ensures Size([ItemAt(item)] + tail) == 1 + Advance(item) + Size(tail)
    ensures ItemAt(item).key != []
    ensures Advance(item) == |item| + 1 ==> ItemAt(item) == Entry(item, Absent)
  {
    assert ([ItemAt(item)] + tail)[1..] == tail;
    assert item[..|item|] == item;
    FirstEqualsFacts(item, 0);
  }

  /** The data ends with the key of `e`, which has no value. */
  predicate EndsWith(data: seq<byte>, e: Entry) {
    data != [] && e.value == Absent && e.key != [] && e.key[|e.key| - 1] == data[|data| - 1]
  }

  /** Items laid out from `i` on fill at most one byte more than the data; if they do, the last ends it without '='. */
  predicate Pays(data: seq<byte>, i: nat, xs: seq<Entry>) {
    var end := i + Size(xs);
    end <= |data| + 1 && (end == |data| + 1 && xs != [] ==> EndsWith(data, xs[|xs| - 1]))
  }

  /** The decoded items pay for every byte walked over. */
  lemma {:induction false} Paid(data: seq<byte>, i: nat, xs: seq<Entry>)
    requires i <= |data| + 1 && Walk(data, i) == Good(xs)
    ensures Pays(data, i, xs)
    decreases |data| + 1 - i
  {
    if i >= |data| || data[i] == 0 {
    } else {
      var item := data[i + 1..i + 1 + data[i] as nat];
      if NameLen(item) < 0 {
        Paid(data, i + 1 + |item|, xs);
        PaidSkip(data, i, i + 1 + |item|, xs);
      } else {
        var next := i + 1 + Advance(item);
        var tail := Walk(data, next).items;
        Paid(data, next, tail);
        PaidItem(data, i, item, tail);
      }
    }
  }

  lemma PaidSkip(data: seq<byte>, i: nat, next: nat, xs: seq<Entry>)
    requires i < next && Pays(data, next, xs)
    ensures Pays(data, i, xs)
  {
  }

  lemma PaidItem(data: seq<byte>, i: nat, item: seq<byte>, tail: seq<Entry>)
    requires item != [] && NameLen(item) >= 0 && i + 1 + |item| <= |data| && item == data[i + 1..i + 1 + |item|]
    requires Pays(data, i + 1 + Advance(item), tail)
    ensures Pays(data, i, [ItemAt(item)] + tail)
  {
    ItemSize(item, tail);
    if tail == [] && i + 1 + Advance(item) == |data| + 1 {
      assert item[|item| - 1] == data[|data| - 1];
    }
  }

  lemma {:induction false} LastOfNormAll(es: seq<Entry>)
    requires es != []
    ensures |NormAll(es)| == |es| && NormAll(es)[|es| - 1] == Norm(es[|es| - 1])
    ensures Missing(es) == 0 ==> es[|es| - 1].value.Present?
  {
    if |es| > 1 {
      LastOfNormAll(es[1..]);
    } else {
      assert es[1..] == [];
    }
  }

  /** A walk that starts one byte late never gets the entries right. */
  lemma MisalignedFails(d: seq<byte>, i: nat, es: seq<Entry>)
    requires es != [] && AllWellFormed(es) && Encodes(d, i, es)
    ensures Walk(d, i + 1) != Good(NormAll(es))
  {
    LastOfNormAll(es);
    EncodesEnd(d, i, es);
    assert WellFormed(es[|es| - 1]);
    if Walk(d, i + 1) == Good(NormAll(es)) {
      Paid(d, i + 1, NormAll(es));
      assert false;
    }
  }

  lemma ValuesCons(es: seq<Entry>)
    requires es != [] && ValuesUpToLast(es[1..]) && es[0].value.Present?
    ensures ValuesUpToLast(es)
  {
    forall i | 0 <= i < |es| - 1
      ensures es[i].value.Present?
    {
      assert i > 0 ==> es[1..][i - 1] == es[i];
    }
  }

  lemma {:induction false} WalkNeedsValues(d: seq<byte>, i: nat, es: seq<Entry>)
    requires AllWellFormed(es) && Encodes(d, i, es) && Walk(d, i) == Good(NormAll(es))
    ensures ValuesUpToLast(es)
    decreases |es|
  {
    if |es| <= 1 {
    } else {
      WalkStep(d, i, es[0]);
      var next := i + 1 + |Text(es[0])|;
      MisalignedFails(d, next, es[1..]);
      GoodFirst(es, Walk(d, i), Walk(d, next + (if es[0].value.Present? then 0 else 1)));
      WalkNeedsValues(d, next, es[1..]);
      ValuesCons(es);
    }
  }

  /** The decoder's checks before the walk all pass on a non-empty record. */
  lemma DecodeWalks(es: seq<Entry>)
    requires AllWellFormed(es) && es != []
    ensures Encodes(EncodedAll(es), 0, es)
    ensures Decode(EncodedAll(es)) == match Walk(EncodedAll(es), 0) case Bad => [] case Good(items) => items
  {
    var d := EncodedAll(es);
    assert d[0..] == d;
    EncodedIs(d, 0, es);
    CountOfEncoded(d, 0, es);
  }

  /**
   The TXT round trip: decoding the record of any list of well-formed entries gives the same keys and
   values in order (an empty value as no value) if and only if every entry but the last has a value.
   */
  lemma RoundTrip(es: seq<Entry>)
    requires AllWellFormed(es)
    ensures Decode(RecordData(es)) == NormAll(es) <==> ValuesUpToLast(es)
  {
    if es == [] {
      assert Decode([0]) == [];
    } else {
      DecodeWalks(es);
      LastOfNormAll(es);
      if ValuesUpToLast(es) {
        WalkOfEncoded(EncodedAll(es), 0, es);
      }
      if Decode(EncodedAll(es)) == NormAll(es) {
        WalkNeedsValues(EncodedAll(es), 0, es);
      }
    }
  }

  /** The smallest list that does not survive: after the key "a" the walk takes 'b' for a length and drops all. */
  lemma ValuelessKeyBreaksList()
    ensures var es := [Entry([97], Absent), Entry([98], Present([99]))];
      AllWellFormed(es) && RecordData(es) == [1, 97, 3, 98, 61, 99] && Decode(RecordData(es)) != NormAll(es)
  {
    var es := [Entry([97], Absent), Entry([98], Present([99]))];
    assert es[1..] == [Entry([98], Present([99]))] && es[1..][1..] == [];
    assert Text(es[0]) == [97] && Text(es[1]) == [98, 61, 99];
    assert EncodedAll(es) == [1, 97] + ([3, 98, 61, 99] + []);
    RoundTrip(es);
    assert !es[0].value.Present?;
  }

  // ----- The two passes of the decoder -----

  /** No item starts at `n`. */
  predicate Ends(data: seq<byte>, n: nat) {
    n >= |data| || data[n] == 0
  }

  /** A whole item starts at `i`. */
  predicate Fits(data: seq<byte>, i: nat) {
    !Ends(data, i) && i + 1 + data[i] as nat <= |data|
  }

  /** There is an '=' between `lo` and `hi`. */
  predicate EqualsIn(data: seq<byte>, lo: nat, hi: nat)
    requires lo <= hi <= |data|
    decreases hi - lo
  {
    lo < hi && (data[lo] == EQUALS || EqualsIn(data, lo + 1, hi))
  }

  /** Where the counting pass goes on ... */
  function NextItem(data: seq<byte>, i: nat): (n: nat)
    requires Fits(data, i)
    ensures i < n <= |data|
  {
    i + 1 + data[i] as nat
  }

  /** ... and where the storing pass does. */
  function NextRead(data: seq<byte>, i: nat): (n: nat)
    requires Fits(data, i)
    ensures i < n
  {
    NextItem(data, i) + (if EqualsIn(data, i + 1, NextItem(data, i)) then 0 else 1)
  }

  /** Where the counting pass finds length bytes. */
  function CountedAt(data: seq<byte>, i: nat): seq<nat>
    decreases |data| - i
  {
    if Ends(data, i) then [] else [i] + (if Fits(data, i) then CountedAt(data, NextItem(data, i)) else [])
  }

  /** Where the storing pass finds them. */
  function ReadAt(data: seq<byte>, i: nat): seq<nat>
    decreases |data| - i
  {
    if Ends(data, i) then [] else [i] + (if Fits(data, i) then ReadAt(data, NextRead(data, i)) else [])
  }

  /** The items the storing pass writes to the array, even when it fails later on. */
  function Stored(data: seq<byte>, i: nat): nat
    decreases |data| - i
  {
    if !Fits(data, i) then 0 else (if data[i + 1] == EQUALS then 0 else 1) + Stored(data, NextRead(data, i))
  }

  /** Every item but the last has an '=', as the counting pass sees the items. */
  predicate InStep(data: seq<byte>, i: nat)
    decreases |data| - i
  {
    Fits(data, i) ==>
      var next := NextItem(data, i);
      (EqualsIn(data, i + 1, next) || (Ends(data, next) && Ends(data, next + 1))) && InStep(data, next)
  }

  lemma {:induction false} EqualsInIff(data: seq<byte>, lo: nat, hi: nat)
    requires lo <= hi <= |data|
    ensures EqualsIn(data, lo, hi) <==> EQUALS in data[lo..hi]
    decreases hi - lo
  {
    if lo >= hi {
    } else {
      EqualsInIff(data, lo + 1, hi);
      assert data[lo..hi] == [data[lo]] + data[lo + 1..hi];
    }
  }

  /** The storing pass moves as the walk does. */
  lemma WalkGoesOn(data: seq<byte>, i: nat)
    requires Fits(data, i)
    ensures var rest := Walk(data, NextRead(data, i));
      if data[i + 1] == EQUALS then Walk(data, i) == rest
      else Walk(data, i).Bad? == rest.Bad? && (rest.Good? ==> |Walk(data, i).items| == 1 + |rest.items|)
  {
    var item := data[i + 1..NextItem(data, i)];
    EqualsInIff(data, i + 1, NextItem(data, i));
    assert item[0] == data[i + 1];
    NameLenFacts(item);
  }

  /** An item is skipped iff it starts with '=', and else the pass moves by its length, one further without an '='. */
  lemma NameLenFacts(item: seq<byte>)
    requires item != []
    ensures NameLen(item) < 0 <==> item[0] == EQUALS
    ensures NameLen(item) >= 0 ==> Advance(item) == if EQUALS in item then |item| else |item| + 1
  {
    FirstEqualsFacts(item, 0);
    var n := FirstEquals(item, 0);
    assert n < |item| ==> item[n] in item;
  }

  lemma {:induction false} WalkStores(data: seq<byte>, i: nat)
    ensures Walk(data, i).Good? ==> |Walk(data, i).items| == Stored(data, i)
    decreases |data| - i
  {
    if !Fits(data, i) {
    } else {
      WalkStores(data, NextRead(data, i));
      WalkGoesOn(data, i);
    }
  }

  /** Both passes start at the length byte they are given, if there is one. */
  lemma PassHeads(data: seq<byte>, i: nat)
    ensures if Ends(data, i) then ReadAt(data, i) == CountedAt(data, i) == []
            else ReadAt(data, i) != [] && ReadAt(data, i)[0] == i && CountedAt(data, i) != [] && CountedAt(data, i)[0] == i
  {
  }

  /** One byte late, the storing pass agrees with the counting pass only if neither finds anything more. */
  lemma LateAgreesIff(data: seq<byte>, n: nat)
    ensures ReadAt(data, n + 1) == CountedAt(data, n) <==> Ends(data, n) && Ends(data, n + 1)
  {
    PassHeads(data, n);
    PassHeads(data, n + 1);
  }

  /** Both passes agree from `i` on. */
  predicate Agree(data: seq<byte>, i: nat) {
    ReadAt(data, i) == CountedAt(data, i)
  }

  /** How the two passes compare at an item, by what they do behind it. */
  lemma PassStep(data: seq<byte>, i: nat)
    requires Fits(data, i)
    ensures Agree(data, i) <==> ReadAt(data, NextRead(data, i)) == CountedAt(data, NextItem(data, i))
  {
    TailsAgree(i, ReadAt(data, NextRead(data, i)), CountedAt(data, NextItem(data, i)));
  }

  lemma PassAfter(data: seq<byte>, i: nat)
    requires Fits(data, i)
    ensures var next := NextItem(data, i);
      ReadAt(data, NextRead(data, i)) == CountedAt(data, next) <==>
      if EqualsIn(data, i + 1, next) then Agree(data, next) else Ends(data, next) && Ends(data, next + 1)
  {
    if EqualsIn(data, i + 1, NextItem(data, i)) {
      ReadOnTime(data, i);
    } else {
      ReadLate(data, i);
      LateAgreesIff(data, NextItem(data, i));
    }
  }

  lemma ReadOnTime(data: seq<byte>, i: nat)
    requires Fits(data, i) && EqualsIn(data, i + 1, NextItem(data, i))
    ensures NextRead(data, i) == NextItem(data, i)
  {
  }

  lemma ReadLate(data: seq<byte>, i: nat)
    requires Fits(data, i) && !EqualsIn(data, i + 1, NextItem(data, i))
    ensures NextRead(data, i) == NextItem(data, i) + 1
  {
  }

  lemma CountGoesOn(data: seq<byte>, i: nat)
    requires Count(data, i) >= 0 && !Ends(data, i)
    ensures Fits(data, i) && Count(data, NextItem(data, i)) >= 0
  {
  }

  lemma TailsAgree(i: nat, a: seq<nat>, b: seq<nat>)
    ensures [i] + a == [i] + b <==> a == b
  {
    assert ([i] + a)[1..] == a && ([i] + b)[1..] == b;
  }

  lemma EndInStep(data: seq<byte>, i: nat)
    ensures Ends(data, i) ==> InStep(data, i)
  {
  }

  /** The storing pass finds its items where the counting pass found them iff every item but the last has an '='. */
  lemma {:induction false} PassesAgreeIff(data: seq<byte>, i: nat)
    requires Count(data, i) >= 0
    ensures Agree(data, i) <==> InStep(data, i)
    decreases |data| - i
  {
    if Ends(data, i) {
      PassHeads(data, i);
    } else {
      CountGoesOn(data, i);
      PassesAgreeIff(data, NextItem(data, i));
      PassStep(data, i);
      PassAfter(data, i);
      EndInStep(data, NextItem(data, i));
    }
  }

  lemma {:induction false} CountedIs(data: seq<byte>, i: nat)
    requires Count(data, i) >= 0
    ensures |CountedAt(data, i)| == Count(data, i)
    decreases |data| - i
  {
    if Ends(data, i) {
    } else {
      CountedIs(data, NextItem(data, i));
    }
  }

  lemma {:induction false} StoredAtMostRead(data: seq<byte>, i: nat)
    ensures Stored(data, i) <= |ReadAt(data, i)|
    decreases |data| - i
  {
    if !Fits(data, i) {
    } else {
      StoredAtMostRead(data, NextRead(data, i));
    }
  }

  /** Then the array sized by the counting pass holds every item the storing pass writes, and all that are decoded. */
  lemma StoredWithinCount(data: seq<byte>)
    requires Count(data, 0) >= 0 && InStep(data, 0)
    ensures |Decode(data)| <= Stored(data, 0) <= Count(data, 0)
  {
    PassesAgreeIff(data, 0);
    CountedIs(data, 0);
    StoredAtMostRead(data, 0);
    WalkStores(data, 0);
  }

  /** The first item out of step ends here: the counting pass goes on, and the storing pass one byte later. */
  function OutAt(data: seq<byte>, i: nat): (n: nat)
    requires !InStep(data, i)
    ensures i < n
    decreases |data| - i
  {
    var next := NextItem(data, i);
    if EqualsIn(data, i + 1, next) then OutAt(data, next) else next
  }

  /** The items in front of it that start with '=': they are counted and not stored. */
  function Nameless(data: seq<byte>, i: nat): nat
    requires !InStep(data, i)
    decreases |data| - i
  {
    var next := NextItem(data, i);
    if !EqualsIn(data, i + 1, next) then 0 else (if data[i + 1] == EQUALS then 1 else 0) + Nameless(data, next)
  }

  lemma OutGoesOn(data: seq<byte>, i: nat)
    requires !InStep(data, i) && EqualsIn(data, i + 1, NextItem(data, i))
    ensures var next := NextItem(data, i);
      && !InStep(data, next) && OutAt(data, i) == OutAt(data, next) && NextRead(data, i) == next
      && Nameless(data, i) == (if data[i + 1] == EQUALS then 1 else 0) + Nameless(data, next)
  {
  }

  lemma OutHere(data: seq<byte>, i: nat)
    requires !InStep(data, i) && !EqualsIn(data, i + 1, NextItem(data, i))
    ensures var next := NextItem(data, i);
      OutAt(data, i) == next && NextRead(data, i) == next + 1 && Nameless(data, i) == 0 && data[i + 1] != EQUALS
  {
  }

  lemma StoredHere(data: seq<byte>, i: nat)
    requires Fits(data, i) && Count(data, i) >= 0
    ensures Stored(data, i) == (if data[i + 1] == EQUALS then 0 else 1) + Stored(data, NextRead(data, i))
    ensures Count(data, i) == 1 + Count(data, NextItem(data, i)) > 0
  {
  }

  /** Up to there the passes differ by the nameless items alone, so what they do behind it decides. */
  lemma {:induction false} StoredVersusCounted(data: seq<byte>, i: nat)
    requires Count(data, i) >= 0 && !InStep(data, i)
    ensures var n := OutAt(data, i);
      Count(data, n) >= 0 && Stored(data, i) + Nameless(data, i) + Count(data, n) == Count(data, i) + Stored(data, n + 1)
    decreases |data| - i
  {
    StoredHere(data, i);
    if EqualsIn(data, i + 1, NextItem(data, i)) {
      OutGoesOn(data, i);
      StoredVersusCounted(data, NextItem(data, i));
    } else {
      OutHere(data, i);
    }
  }

  /**
   The array is too short iff an item is out of step and the storing pass, one byte late behind it, stores
   more items than the counting pass counts there and the nameless ones in front of it make up for.
   */
  lemma MoreStoredIff(data: seq<byte>)
    requires Count(data, 0) >= 0
    ensures Stored(data, 0) > Count(data, 0) <==>
            !InStep(data, 0) &&
            Stored(data, OutAt(data, 0) + 1) > Count(data, OutAt(data, 0)) + Nameless(data, 0)
  {
    if InStep(data, 0) {
      StoredWithinCount(data);
    } else {
      StoredVersusCounted(data, 0);
    }
  }

  /** Being out of step alone does no harm: two items are counted here and one is stored. */
  lemma OutOfStepWithinCount() returns (data: seq<byte>)
    ensures data == [1, 97, 1, 98] && !InStep(data, 0) && Count(data, 0) == 2 && Stored(data, 0) == 1
  {
    data := [1, 97, 1, 98];
    assert NextItem(data, 0) == 2 && !Ends(data, 2) && !EqualsIn(data, 1, 2);
    assert NextRead(data, 0) == 3 && !Fits(data, 3);
    assert Stored(data, 3) == 0 && Count(data, 4) == 0 && Count(data, 2) == 1;
  }

  /** But it may: two items are counted here and three are stored. */
  lemma MoreStoredThanCounted() returns (data: seq<byte>)
    ensures data == [1, 97, 6, 1, 98, 120, 1, 99, 120] && !InStep(data, 0)
    ensures Count(data, 0) == 2 && Stored(data, 0) == 3 && |Decode(data)| == 3
  {
    data := [1, 97, 6, 1, 98, 120, 1, 99, 120];
    StoredThree(data);
    CountedTwo(data);
    OutOfStep(data);
    WalkStores(data, 0);
  }

  lemma StoresOne(data: seq<byte>, i: nat, next: nat)
    requires Fits(data, i) && NextRead(data, i) == next && data[i + 1] != EQUALS
    ensures Stored(data, i) == 1 + Stored(data, next) && (Walk(data, i).Good? <==> Walk(data, next).Good?)
  {
    WalkGoesOn(data, i);
  }

  lemma StoredThree(data: seq<byte>)
    requires data == [1, 97, 6, 1, 98, 120, 1, 99, 120]
    ensures Stored(data, 0) == 3 && Walk(data, 0).Good?
  {
    assert !EqualsIn(data, 1, 2) && !EqualsIn(data, 4, 6) && !EqualsIn(data, 7, 9);
    StoresOne(data, 6, 9);
    StoresOne(data, 3, 6);
    StoresOne(data, 0, 3);
  }

  lemma CountedTwo(data: seq<byte>)
    requires data == [1, 97, 6, 1, 98, 120, 1, 99, 120]
    ensures Count(data, 0) == 2
  {
    assert Count(data, 9) == 0 && Count(data, 2) == 1;
  }

  lemma OutOfStep(data: seq<byte>)
    requires data == [1, 97, 6, 1, 98, 120, 1, 99, 120]
    ensures !InStep(data, 0)
  {
    assert NextItem(data, 0) == 2 && !Ends(data, 2) && !EqualsIn(data, 1, 2);
  }
}
