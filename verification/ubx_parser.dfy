/**
 The UBX frame parser of main/receiver.c: one byte at a time, nine states, an 8-bit
 Fletcher checksum, and a payload buffer of 1024 bytes.
 `Step`/`Emit` describe one byte; `Scan` is an independent description that looks at the
 whole stream at once; `IncrementalAgreesWithScan` says they are the same parser.
 */
module UbxParser {
  import opened Bytes

  const SYNC_CHAR_1: byte := 0xB5
  const SYNC_CHAR_2: byte := 0x62
  const MAX_PAYLOAD: nat := 1024

  datatype Phase = Sync1 | Sync2 | Class | Id | Len1 | Len2 | Payload | CkA | CkB

  datatype Rejection = FirstChecksum | SecondChecksum | Oversize

  datatype Outcome = Dispatched(cls: byte, id: byte, payload: seq<byte>) | Rejected(why: Rejection)

  /** The two checksum registers. */
  datatype Ck = Ck(a: byte, b: byte)

  /** The parser's fields; `payload` is the part of the payload buffer written so far. */
  datatype State = State(phase: Phase, cls: byte, id: byte, length: nat, offset: nat,
                         ck: Ck, store: bool, payload: seq<byte>)

  function Reset(): State {
    State(Sync1, 0, 0, 0, 0, Ck(0, 0), false, [])
  }

  /** The running checksum absorbs one byte. */
  function Absorb(ck: Ck, b: byte): Ck {
    var a: byte := (ck.a + b) % 256;
    Ck(a, (ck.b + a) % 256)
  }

  function Step(s: State, b: byte): State {
    match s.phase
    case Sync1 => if b == SYNC_CHAR_1 then s.(phase := Sync2) else s
    case Sync2 =>
      if b == SYNC_CHAR_2 then
        s.(phase := Class, ck := Ck(0, 0), length := 0, offset := 0, store := true, payload := [])
      else if b != SYNC_CHAR_1 then s.(phase := Sync1)
      else s
    case Class => s.(ck := Absorb(s.ck, b), cls := b, phase := Id)
    case Id => s.(ck := Absorb(s.ck, b), id := b, phase := Len1)
    case Len1 => s.(ck := Absorb(s.ck, b), length := b, phase := Len2)
    case Len2 =>
      var n := s.length + 256 * (b as int);
      s.(ck := Absorb(s.ck, b), length := n, store := n <= MAX_PAYLOAD, phase := if n == 0 then CkA else Payload)
    case Payload =>
      s.(ck := Absorb(s.ck, b), offset := s.offset + 1,
         payload := if s.store && s.offset < MAX_PAYLOAD then s.payload + [b] else s.payload,
         phase := if s.offset + 1 >= s.length then CkA else Payload)
    case CkA => if b == s.ck.a then s.(phase := CkB) else Reset()
    case CkB => Reset()
  }

  /** What the parser reports on one byte: at most one finished frame. */
  function Emit(s: State, b: byte): seq<Outcome> {
    match s.phase
    case CkA => if b == s.ck.a then [] else [Rejected(FirstChecksum)]
    case CkB =>
      if b != s.ck.b then [Rejected(SecondChecksum)]
      else if s.store then [Dispatched(s.cls, s.id, s.payload)]
      else [Rejected(Oversize)]
    case _ => []
  }

  function After(s: State, bs: seq<byte>): State
    decreases |bs|
  {
    if bs == [] then s else After(Step(s, bs[0]), bs[1..])
  }

  function Emitted(s: State, bs: seq<byte>): seq<Outcome>
    decreases |bs|
  {
    if bs == [] then [] else Emit(s, bs[0]) + Emitted(Step(s, bs[0]), bs[1..])
  }

  lemma {:induction false} ChunkingState(s: State, a: seq<byte>, b: seq<byte>)
    ensures After(s, a + b) == After(After(s, a), b)
    decreases |a|
  {
    if a == [] {
      assert a + b == b;
    } else {
      ChunkingState(Step(s, a[0]), a[1..], b);
      assert (a + b)[1..] == a[1..] + b;
    }
  }

  lemma {:induction false} ChunkingReports(s: State, a: seq<byte>, b: seq<byte>)
    ensures Emitted(s, a + b) == Emitted(s, a) + Emitted(After(s, a), b)
    decreases |a|
  {
    if a == [] {
      assert a + b == b;
    } else {
      ChunkingReports(Step(s, a[0]), a[1..], b);
      assert (a + b)[1..] == a[1..] + b;
    }
  }

  /** However a stream is cut into chunks, the parser ends in the same state with the same reports. */
  lemma Chunking(s: State, a: seq<byte>, b: seq<byte>)
    ensures After(s, a + b) == After(After(s, a), b)
    ensures Emitted(s, a + b) == Emitted(s, a) + Emitted(After(s, a), b)
  {
    ChunkingState(s, a, b);
    ChunkingReports(s, a, b);
  }

  // ---- Checksum theory -------------------------------------------------------------------

  function Sum(p: seq<byte>): nat {
    if p == [] then 0 else p[0] + Sum(p[1..])
  }

  /** The sum of p[i] weighted by |p| - i. */
  function Weighted(p: seq<byte>): nat {
    if p == [] then 0 else |p| * p[0] + Weighted(p[1..])
  }

  lemma {:induction false} SumAppend(p: seq<byte>, q: seq<byte>)
    ensures Sum(p + q) == Sum(p) + Sum(q)
  {
    if p == [] {
      assert p + q == q;
    } else {
      SumAppend(p[1..], q);
      assert (p + q)[1..] == p[1..] + q;
    }
  }

  lemma {:induction false} WeightedSnoc(p: seq<byte>, x: byte)
    ensures Weighted(p + [x]) == Weighted(p) + Sum(p) + x
  {
    if p == [] {
      assert p + [x] == [x];
    } else {
      WeightedSnoc(p[1..], x);
      assert (p + [x])[1..] == p[1..] + [x];
      assert (|p| + 1) * p[0] == |p| * p[0] + p[0];
    }
  }

  /** Behind a common prefix, weighted sums of equally long strings differ as the strings' own do. */
  lemma {:induction false} WeightedPrefix(pre: seq<byte>, q: seq<byte>, r: seq<byte>)
    requires |q| == |r|
    ensures Weighted(pre + q) - Weighted(pre + r) == Weighted(q) - Weighted(r)
  {
    if pre == [] {
      assert pre + q == q && pre + r == r;
    } else {
      WeightedPrefix(pre[1..], q, r);
      assert (pre + q)[1..] == pre[1..] + q && (pre + r)[1..] == pre[1..] + r;
    }
  }

  /** Adding before or after the reduction makes no difference. */
  lemma ModAdd(x: nat, y: nat)
    ensures (x % 256 + y) % 256 == (x + y) % 256
  {
    assert x + y == 256 * (x / 256) + (x % 256 + y);
  }

  /** The registers after the bytes `p`: plain sums, no running state. */
  function Checksum(p: seq<byte>): Ck {
    Ck(Sum(p) % 256, Weighted(p) % 256)
  }

  /** One `Absorb` extends the closed form by one byte. */
  lemma AbsorbClosedForm(seen: seq<byte>, b: byte)
    ensures Absorb(Checksum(seen), b) == Checksum(seen + [b])
  {
    SumAppend(seen, [b]);
    WeightedSnoc(seen, b);
    assert Sum([b]) == b;
    RegistersAdd(Sum(seen), Weighted(seen), b);
    assert Checksum(seen + [b]) == Ck((Sum(seen) + b) % 256, (Weighted(seen) + Sum(seen) + b) % 256);
  }

  /** The two register updates on reduced values. */
  lemma RegistersAdd(sum: nat, weighted: nat, b: byte)
    ensures Absorb(Ck(sum % 256, weighted % 256), b) == Ck((sum + b) % 256, (weighted + sum + b) % 256)
  {
    ModAdd(sum, b);
    ModAdd(weighted, (sum + b) % 256);
    ModAdd(sum + b, weighted);
  }

  function AbsorbAll(ck: Ck, p: seq<byte>): Ck
    decreases |p|
  {
    if p == [] then ck else AbsorbAll(Absorb(ck, p[0]), p[1..])
  }

  lemma {:induction false} AbsorbAllFrom(seen: seq<byte>, p: seq<byte>)
    ensures AbsorbAll(Checksum(seen), p) == Checksum(seen + p)
    decreases |p|
  {
    if p == [] {
      assert seen + p == seen;
    } else {
      AbsorbClosedForm(seen, p[0]);
      AbsorbAllFrom(seen + [p[0]], p[1..]);
      assert seen + p == seen + [p[0]] + p[1..];
    }
  }

  /** After n bytes ck_a is their sum and ck_b their (n-i)-weighted sum, both modulo 256. */
  lemma ChecksumClosedForm(p: seq<byte>)
    ensures AbsorbAll(Ck(0, 0), p) == Checksum(p)
  {
    assert Checksum([]) == Ck(0, 0);
    AbsorbAllFrom([], p);
    assert [] + p == p;
  }

  lemma {:induction false} AbsorbAllSplit(ck: Ck, p: seq<byte>, q: seq<byte>)
    ensures AbsorbAll(ck, p + q) == AbsorbAll(AbsorbAll(ck, p), q)
    decreases |p|
  {
    if p == [] {
      assert p + q == q;
    } else {
      AbsorbAllSplit(Absorb(ck, p[0]), p[1..], q);
      assert (p + q)[1..] == p[1..] + q;
    }
  }

  // ---- The whole-buffer scanner ----------------------------------------------------------

  /** The reference reading of a stream: find the first sync pair and read a frame behind it. */
  function Scan(s: seq<byte>): seq<Outcome>
    decreases |s|, 1
  {
    if |s| < 2 then []
    else if s[0] != SYNC_CHAR_1 || s[1] != SYNC_CHAR_2 then Scan(s[1..])
    else ScanFrame(s[2..])
  }

  /**
   The reference reading of a frame, from its class byte: take the length field, judge the frame
   by sums over its body, and go on behind it. A wrong first check byte costs that byte only.
   */
  function ScanFrame(r: seq<byte>): seq<Outcome>
    decreases |r|, 0
  {
    if |r| < 4 then []
    else
      var n := U16(r[2], r[3]);
      if |r| <= 4 + n then []
      else if r[4 + n] != Sum(r[..4 + n]) % 256 then [Rejected(FirstChecksum)] + Scan(r[5 + n..])
      else if |r| == 5 + n then []
      else [Judge(r[..4 + n], r[5 + n])] + Scan(r[6 + n..])
  }

  /** The verdict on a frame whose first check byte is right; `body` is class, id, length, payload. */
  function Judge(body: seq<byte>, second: byte): Outcome
    requires |body| >= 4
  {
    if second != Weighted(body) % 256 then Rejected(SecondChecksum)
    else if |body| - 4 <= MAX_PAYLOAD then Dispatched(body[0], body[1], body[4..])
    else Rejected(Oversize)
  }

  /** The state on entering a frame body, whatever the last frame left in class and id. */
  predicate AtBody(s: State) {
    s.phase == Class && s.ck == Ck(0, 0) && s.length == 0 && s.offset == 0 && s.store && s.payload == []
  }

  /** Fewer than four header bytes only advance the phase; four fill in the header fields. */
  lemma HeaderRun(s: State, h: seq<byte>)
    requires AtBody(s) && |h| <= 4
    ensures Emitted(s, h) == []
    ensures |h| == 4 ==>
              var n := U16(h[2], h[3]);
              After(s, h) == s.(ck := AbsorbAll(s.ck, h), cls := h[0], id := h[1], length := n,
                                store := n <= MAX_PAYLOAD, phase := if n == 0 then CkA else Payload)
  {
    if |h| >= 1 {
      var s1, h1 := Step(s, h[0]), h[1..];
      assert After(s, h) == After(s1, h1) && Emitted(s, h) == Emitted(s1, h1);
      if |h| >= 2 {
        var s2, h2 := Step(s1, h1[0]), h1[1..];
        assert After(s1, h1) == After(s2, h2) && Emitted(s1, h1) == Emitted(s2, h2);
        if |h| >= 3 {
          var s3, h3 := Step(s2, h2[0]), h2[1..];
          assert After(s2, h2) == After(s3, h3) && Emitted(s2, h2) == Emitted(s3, h3);
          if |h| == 4 {
            var s4 := Step(s3, h3[0]);
            assert h3[1..] == [];
            assert After(s3, h3) == After(s4, []) && Emitted(s3, h3) == [];
            assert AbsorbAll(s.ck, h) == AbsorbAll(s1.ck, h1) == AbsorbAll(s2.ck, h2) == AbsorbAll(s3.ck, h3) == s4.ck;
          }
        }
      }
    }
  }

  lemma {:induction false} PayloadRun(s: State, p: seq<byte>)
    requires s.phase == Payload && s.offset < s.length && s.offset + |p| <= s.length
    requires s.store ==> s.length <= MAX_PAYLOAD
    ensures Emitted(s, p) == []
    ensures After(s, p) == s.(ck := AbsorbAll(s.ck, p), offset := s.offset + |p|,
                              payload := if s.store then s.payload + p else s.payload,
                              phase := if s.offset + |p| == s.length then CkA else Payload)
    decreases |p|
  {
    if p == [] {
      assert s.payload + p == s.payload;
    } else {
      var s1, p1 := Step(s, p[0]), p[1..];
      assert s.payload + p == s.payload + [p[0]] + p1;
      if |p| > 1 {
        PayloadRun(s1, p1);
      } else {
        assert p1 == [];
        assert After(s, p) == s1;
      }
    }
  }

  /** Header and payload together: the parser stands before the first check byte. */
  lemma BodyRun(s: State, body: seq<byte>)
    requires AtBody(s) && |body| >= 4 && |body| <= 4 + U16(body[2], body[3])
    ensures Emitted(s, body) == []
    ensures |body| == 4 + U16(body[2], body[3]) ==>
              var t := After(s, body);
              && t.phase == CkA && t.ck == AbsorbAll(Ck(0, 0), body) && t.cls == body[0] && t.id == body[1]
              && t.store == (|body| - 4 <= MAX_PAYLOAD)
              && (t.store ==> t.payload == body[4..])
  {
    var h, p := body[..4], body[4..];
    assert body == h + p;
    HeaderRun(s, h);
    Chunking(s, h, p);
    AbsorbAllSplit(s.ck, h, p);
    if p != [] {
      PayloadRun(After(s, h), p);
      assert [] + p == p;
    }
  }

  /** Both check bytes, read behind a body whose sums are in the registers. */
  lemma CheckRun(t: State, body: seq<byte>, rest: seq<byte>)
    requires |body| >= 4 && rest != [] && t.phase == CkA && t.ck == Checksum(body)
    requires t.cls == body[0] && t.id == body[1] && t.store == (|body| - 4 <= MAX_PAYLOAD)
    requires t.store ==> t.payload == body[4..]
    ensures rest[0] != Sum(body) % 256 ==> Emitted(t, rest) == [Rejected(FirstChecksum)] + Emitted(Reset(), rest[1..])
    ensures rest[0] == Sum(body) % 256 && |rest| == 1 ==> Emitted(t, rest) == []
    ensures rest[0] == Sum(body) % 256 && |rest| > 1 ==>
              Emitted(t, rest) == [Judge(body, rest[1])] + Emitted(Reset(), rest[2..])
  {
    var u := Step(t, rest[0]);
    if rest[0] == Sum(body) % 256 {
      assert Emitted(t, rest) == Emitted(u, rest[1..]);
      if |rest| > 1 {
        assert Emit(u, rest[1]) == [Judge(body, rest[1])];
        assert rest[1..][1..] == rest[2..];
      }
    }
  }

  /** A whole body and what follows it. */
  lemma BodyThenRest(s: State, body: seq<byte>, rest: seq<byte>)
    requires AtBody(s) && |body| >= 4 && |body| == 4 + U16(body[2], body[3]) && rest != []
    ensures rest[0] != Sum(body) % 256 ==>
              Emitted(s, body + rest) == [Rejected(FirstChecksum)] + Emitted(Reset(), rest[1..])
    ensures rest[0] == Sum(body) % 256 && |rest| == 1 ==> Emitted(s, body + rest) == []
    ensures rest[0] == Sum(body) % 256 && |rest| > 1 ==>
              Emitted(s, body + rest) == [Judge(body, rest[1])] + Emitted(Reset(), rest[2..])
  {
    BodyRun(s, body);
    ChecksumClosedForm(body);
    ChunkingReports(s, body, rest);
    CheckRun(After(s, body), body, rest);
  }

  lemma FrameCutOff(s: State, r: seq<byte>)
    requires AtBody(s) && (|r| < 4 || |r| <= 4 + U16(r[2], r[3]))
    ensures Emitted(s, r) == []
  {
    if |r| < 4 {
      HeaderRun(s, r);
    } else {
      BodyRun(s, r);
    }
  }

  lemma FrameWhole(s: State, r: seq<byte>, n: nat)
    requires AtBody(s) && |r| >= 4 && n == U16(r[2], r[3]) && |r| > 4 + n
    ensures if r[4 + n] != Sum(r[..4 + n]) % 256 then
              Emitted(s, r) == [Rejected(FirstChecksum)] + Emitted(Reset(), r[5 + n..])
            else if |r| == 5 + n then Emitted(s, r) == []
            else Emitted(s, r) == [Judge(r[..4 + n], r[5 + n])] + Emitted(Reset(), r[6 + n..])
  {
    var body, rest := r[..4 + n], r[4 + n..];
    assert r == body + rest;
    BodyThenRest(s, body, rest);
    assert rest[1..] == r[5 + n..];
    assert |rest| > 1 ==> rest[2..] == r[6 + n..];
  }

  /** The bytes from the class byte on, read from inside a frame. */
  lemma FrameRun(s: State, r: seq<byte>)
    requires AtBody(s)
    ensures |r| < 4 ==> Emitted(s, r) == []
    ensures |r| >= 4 ==>
              var n := U16(r[2], r[3]);
              if |r| <= 4 + n then Emitted(s, r) == []
              else if r[4 + n] != Sum(r[..4 + n]) % 256 then
                Emitted(s, r) == [Rejected(FirstChecksum)] + Emitted(Reset(), r[5 + n..])
              else if |r| == 5 + n then Emitted(s, r) == []
              else Emitted(s, r) == [Judge(r[..4 + n], r[5 + n])] + Emitted(Reset(), r[6 + n..])
  {
    if |r| < 4 || |r| <= 4 + U16(r[2], r[3]) {
      FrameCutOff(s, r);
    } else {
      FrameWhole(s, r, U16(r[2], r[3]));
    }
  }

  lemma ScanSkips(s: seq<byte>)
    requires s != [] && !(|s| >= 2 && s[0] == SYNC_CHAR_1 && s[1] == SYNC_CHAR_2)
    ensures Scan(s) == Scan(s[1..])
  {
  }

  /** Agreement from any hunting state; in Sync2 the first sync byte has already been eaten. */
  lemma {:induction false} HuntAgrees(st: State, s: seq<byte>)
    requires st.phase == Sync1 || st.phase == Sync2
    ensures Emitted(st, s) == Scan(if st.phase == Sync1 then s else [SYNC_CHAR_1] + s)
    decreases |s|, 1
  {
    if s == [] {
    } else {
      var next, rest := Step(st, s[0]), s[1..];
      assert Emitted(st, s) == Emitted(next, rest);
      if st.phase == Sync1 {
        HuntAgrees(next, rest);
        if s[0] == SYNC_CHAR_1 {
          assert [SYNC_CHAR_1] + rest == s;
        } else {
          ScanSkips(s);
        }
      } else {
        var whole := [SYNC_CHAR_1] + s;
        assert whole[1..] == s;
        if next.phase == Class {
          FrameAgrees(next, rest);
          assert whole[2..] == rest;
        } else {
          HuntAgrees(next, rest);
          ScanSkips(whole);
          if next.phase == Sync1 {
            ScanSkips(s);
          } else {
            assert [SYNC_CHAR_1] + rest == s;
          }
        }
      }
    }
  }

  lemma {:induction false} FrameAgrees(st: State, r: seq<byte>)
    requires AtBody(st)
    ensures Emitted(st, r) == ScanFrame(r)
    decreases |r|, 0
  {
    FrameRun(st, r);
    if |r| >= 4 {
      var n := U16(r[2], r[3]);
      if |r| > 4 + n {
        HuntAgrees(Reset(), r[5 + n..]);
        if |r| > 5 + n {
          HuntAgrees(Reset(), r[6 + n..]);
        }
      }
    }
  }

  /** On every byte stream the incremental parser reports exactly the frames the scanner finds. */
  lemma IncrementalAgreesWithScan(stream: seq<byte>)
    ensures Emitted(Reset(), stream) == Scan(stream)
  {
    HuntAgrees(Reset(), stream);
  }

  // ---- Frame accounting and resynchronisation ---------------------------------------------

  predicate MidFrame(s: State) {
    s.phase != Sync1 && s.phase != Sync2
  }

  /** Frames started: the times a sync pair completes. */
  function Started(s: State, bs: seq<byte>): nat
    decreases |bs|
  {
    if bs == [] then 0
    else (if s.phase == Sync2 && bs[0] == SYNC_CHAR_2 then 1 else 0) + Started(Step(s, bs[0]), bs[1..])
  }

  /** Frames started = dispatched + rejected + one if the parser is inside a frame. */
  lemma {:induction false} FrameAccounting(s: State, bs: seq<byte>)
    ensures Started(s, bs) + (if MidFrame(s) then 1 else 0)
         == |Emitted(s, bs)| + (if MidFrame(After(s, bs)) then 1 else 0)
    decreases |bs|
  {
    if bs == [] {
    } else {
      FrameAccounting(Step(s, bs[0]), bs[1..]);
    }
  }

  /**
   The fields a reachable state always satisfies: the offset counts up to the declared length, and the
   storage flag says whether that length fits the buffer.
   */
  predicate Reachable(s: State) {
    && s.length < 65536
    && (s.phase == Len2 ==> s.length < 256)
    && (s.phase in {Class, Id, Len1, Len2} ==> s.offset == 0 && s.store && s.payload == [])
    && (s.phase == Payload ==> s.offset < s.length)
    && (s.phase in {CkA, CkB} ==> s.offset == s.length)
    && (s.phase in {Payload, CkA, CkB} ==>
          s.store == (s.length <= MAX_PAYLOAD) && (s.store ==> |s.payload| == s.offset))
  }

  lemma ReachableStep(s: State, b: byte)
    requires Reachable(s)
    ensures Reachable(Step(s, b))
  {
  }

  lemma {:induction false} ReachableAlways(s: State, bs: seq<byte>)
    requires Reachable(s)
    ensures Reachable(After(s, bs))
    decreases |bs|
  {
    if bs == [] {
    } else {
      ReachableStep(s, bs[0]);
      ReachableAlways(Step(s, bs[0]), bs[1..]);
    }
  }

  /** An upper bound on the bytes a frame in progress can still consume. */
  function Budget(s: State): nat
    requires Reachable(s)
  {
    match s.phase
    case Sync1 => 0
    case Sync2 => 0
    case Class => 65541
    case Id => 65540
    case Len1 => 65539
    case Len2 => 65538
    case Payload => s.length - s.offset + 2
    case CkA => 2
    case CkB => 1
  }

  /**
   A parser inside a frame is back in the first sync state after at most 65541 more bytes,
   whatever they are: the length field is believed, so a corrupted one costs no more than this.
   */
  lemma {:induction false} ResyncWithin(s: State, bs: seq<byte>) returns (k: nat)
    requires Reachable(s) && MidFrame(s) && |bs| >= Budget(s)
    ensures 1 <= k <= Budget(s) <= 65541 && After(s, bs[..k]) == Reset()
    decreases Budget(s)
  {
    var t := Step(s, bs[0]);
    if MidFrame(t) {
      var j := ResyncWithin(t, bs[1..]);
      k := j + 1;
      assert bs[..k][1..] == bs[1..][..j];
    } else {
      k := 1;
      assert bs[..1][1..] == [];
    }
  }

  // ---- Error detection ---------------------------------------------------------------------

  /** A frame as a receiver sends it. */
  function Frame(body: seq<byte>): seq<byte> {
    [SYNC_CHAR_1, SYNC_CHAR_2] + body + [Sum(body) % 256, Weighted(body) % 256]
  }

  predicate WellFormedBody(body: seq<byte>) {
    |body| >= 4 && |body| == 4 + U16(body[2], body[3])
  }

  /** Behind a sync pair the parser stands at the class byte and has reported nothing. */
  lemma SyncRun(r: seq<byte>) returns (s: State)
    ensures AtBody(s) && Emitted(Reset(), [SYNC_CHAR_1, SYNC_CHAR_2] + r) == Emitted(s, r)
  {
    var w := [SYNC_CHAR_1, SYNC_CHAR_2] + r;
    var s1 := Step(Reset(), w[0]);
    s := Step(s1, w[1]);
    assert w[1..][1..] == r;
    assert Emitted(Reset(), w) == Emitted(s1, w[1..]) == Emitted(s, r);
  }

  /** What the parser makes of a body followed by two arbitrary check bytes. */
  lemma FrameVerdict(body: seq<byte>, a: byte, b: byte)
    requires WellFormedBody(body)
    ensures var w := [SYNC_CHAR_1, SYNC_CHAR_2] + body + [a, b];
            Emitted(Reset(), w) ==
              (if a != Sum(body) % 256 then [Rejected(FirstChecksum)] else [Judge(body, b)])
  {
    var rest: seq<byte> := [a, b];
    assert [SYNC_CHAR_1, SYNC_CHAR_2] + body + rest == [SYNC_CHAR_1, SYNC_CHAR_2] + (body + rest);
    var s := SyncRun(body + rest);
    BodyRun(s, body);
    ChecksumClosedForm(body);
    Chunking(s, body, rest);
    CheckRun(After(s, body), body, rest);
    assert rest[1..] == [b] && rest[2..] == [];
    LoneByte(b);
  }

  /** A byte on its own is never a frame. */
  lemma LoneByte(b: byte)
    ensures Emitted(Reset(), [b]) == []
  {
    assert [b][1..] == [];
  }

  /** An intact frame of at most 1024 payload bytes is dispatched with exactly its own contents. */
  lemma IntactFrameDispatched(body: seq<byte>)
    requires WellFormedBody(body)
    ensures Emitted(Reset(), Frame(body)) ==
              (if |body| - 4 <= MAX_PAYLOAD then [Dispatched(body[0], body[1], body[4..])] else [Rejected(Oversize)])
  {
    FrameVerdict(body, Sum(body) % 256, Weighted(body) % 256);
  }

  /** The octets of a packet between the sync pair and the check bytes, its length low byte first. */
  function Body(cls: byte, id: byte, payload: seq<byte>): seq<byte>
    requires |payload| < 65536
  {
    [cls, id, |payload| % 256, |payload| / 256] + payload
  }

  /** A packet as the protocol lays it out is dispatched with its class, id and payload, or is too long for the buffer. */
  lemma PacketDispatched(cls: byte, id: byte, payload: seq<byte>)
    requires |payload| < 65536
    ensures var body := Body(cls, id, payload);
      Emitted(Reset(), [0xB5, 0x62] + body + [Sum(body) % 256, Weighted(body) % 256]) ==
        if |payload| <= 1024 then [Dispatched(cls, id, payload)] else [Rejected(Oversize)]
  {
    var body := Body(cls, id, payload);
    assert body[4..] == payload;
    IntactFrameDispatched(body);
  }

  lemma SumUpdate(p: seq<byte>, i: nat, x: byte)
    requires i < |p|
    ensures Sum(p[i := x]) == Sum(p) - p[i] + x
  {
    assert p == p[..i] + ([p[i]] + p[i + 1..]);
    assert p[i := x] == p[..i] + ([x] + p[i + 1..]);
    SumAppend(p[..i], [p[i]] + p[i + 1..]);
    SumAppend(p[..i], [x] + p[i + 1..]);
    assert ([p[i]] + p[i + 1..])[1..] == ([x] + p[i + 1..])[1..];
  }

  /** Two sums that differ by less than 256 differ modulo 256. */
  lemma ModDiffers(sum: nat, was: byte, x: byte)
    requires x != was && was <= sum
    ensures (sum - was + x) % 256 != sum % 256
  {
  }

  lemma SumAtLeast(p: seq<byte>, i: nat)
    requires i < |p|
    ensures p[i] <= Sum(p)
  {
    SumUpdate(p, i, 0);
  }

  /** A byte changed in a framed body is that byte changed in the body. */
  lemma FramedUpdate(body: seq<byte>, i: nat, x: byte, a: byte, b: byte)
    requires i < |body|
    ensures ([SYNC_CHAR_1, SYNC_CHAR_2] + body + [a, b])[i + 2 := x] == [SYNC_CHAR_1, SYNC_CHAR_2] + body[i := x] + [a, b]
  {
  }

  /** Changing one class, id or payload byte of a frame always gets the frame rejected. */
  lemma OneByteErrorRejected(body: seq<byte>, i: nat, x: byte)
    requires WellFormedBody(body) && i < |body| && i != 2 && i != 3 && x != body[i]
    ensures Emitted(Reset(), Frame(body)[i + 2 := x]) == [Rejected(FirstChecksum)]
  {
    var a: byte, b: byte := Sum(body) % 256, Weighted(body) % 256;
    SumUpdate(body, i, x);
    SumAtLeast(body, i);
    ModDiffers(Sum(body), body[i], x);
    FramedUpdate(body, i, x, a, b);
    FrameVerdict(body[i := x], a, b);
  }

  lemma WeightedPair(x: byte, y: byte, post: seq<byte>)
    ensures Weighted([x, y] + post) == (|post| + 2) * x + (|post| + 1) * y + Weighted(post)
  {
    assert ([x, y] + post)[1..] == [y] + post && ([y] + post)[1..] == post;
  }

  lemma SumPair(x: byte, y: byte, post: seq<byte>)
    ensures Sum([x, y] + post) == x + y + Sum(post)
  {
    assert ([x, y] + post)[1..] == [y] + post && ([y] + post)[1..] == post;
  }

  lemma PairWeights(n: nat, x: int, y: int)
    ensures (n + 2) * y + (n + 1) * x == (n + 2) * x + (n + 1) * y - x + y
  {
    assert (n + 2) * x == (n + 1) * x + x && (n + 2) * y == (n + 1) * y + y;
  }

  lemma SwapSums(p: seq<byte>, i: nat)
    requires i + 1 < |p|
    ensures var q := p[i := p[i + 1]][i + 1 := p[i]];
            Sum(q) == Sum(p) && Weighted(q) == Weighted(p) - p[i] + p[i + 1]
  {
    var x, y := p[i], p[i + 1];
    var pre, post := p[..i], p[i + 2..];
    assert p == pre + ([x, y] + post);
    assert p[i := y][i + 1 := x] == pre + ([y, x] + post);
    SumAppend(pre, [x, y] + post);
    SumAppend(pre, [y, x] + post);
    SumPair(x, y, post);
    SumPair(y, x, post);
    WeightedPrefix(pre, [x, y] + post, [y, x] + post);
    WeightedPair(x, y, post);
    WeightedPair(y, x, post);
    PairWeights(|post|, x, y);
  }

  lemma FramedSwap(body: seq<byte>, i: nat, a: byte, b: byte)
    requires i + 1 < |body|
    ensures var f := [SYNC_CHAR_1, SYNC_CHAR_2] + body + [a, b]; var bad := body[i := body[i + 1]][i + 1 := body[i]];
      f[i + 2 := f[i + 3]][i + 3 := f[i + 2]] == [SYNC_CHAR_1, SYNC_CHAR_2] + bad + [a, b]
  {
    var x, y := body[i], body[i + 1];
    FramedUpdate(body, i, y, a, b);
    FramedUpdate(body[i := y], i + 1, x, a, b);
  }

  /** Swapping two unequal neighbours among class and id, or within the payload, is always caught. */
  lemma SwapErrorRejected(body: seq<byte>, i: nat)
    requires WellFormedBody(body) && i + 1 < |body| && (i == 0 || i >= 4) && body[i] != body[i + 1]
    ensures var f := Frame(body);
            Emitted(Reset(), f[i + 2 := f[i + 3]][i + 3 := f[i + 2]]) == [Rejected(SecondChecksum)]
  {
    var bad := body[i := body[i + 1]][i + 1 := body[i]];
    var a: byte, b: byte := Sum(body) % 256, Weighted(body) % 256;
    SwapSums(body, i);
    WeightedAtLeast(body, i);
    ModDiffers(Weighted(body), body[i], body[i + 1]);
    FramedSwap(body, i, a, b);
    FrameVerdict(bad, a, b);
  }

  lemma {:induction false} WeightedAtLeast(p: seq<byte>, i: nat)
    requires i < |p|
    ensures p[i] <= Weighted(p)
  {
    if i > 0 {
      WeightedAtLeast(p[1..], i - 1);
    } else {
      assert |p| * p[0] >= p[0];
    }
  }
}
