/**
 The UART read handler of main/receiver.c: the UBX parser and the line assembler fed in place,
 byte by byte, over fixed buffers. Every chunk handed to it extends one history, and the fields
 always equal what the two specifications say about that history.
 */
module UartReceiver {
  import opened Bytes
  import Ubx = UbxParser
  import Line = LineAssembler

  class Receiver {
    var initialized: bool
    var ubxState: Ubx.Phase
    var ubxClass: byte
    var ubxId: byte
    var ubxLength: nat
    var ubxOffset: nat
    var ubxCkA: byte
    var ubxCkB: byte
    var ubxStorePayload: bool
    const ubxPayload: array<byte>
    const lineBuffer: array<byte>
    var lineLength: nat
    /** Framing rejections and line overflows; errors found inside packets or lines are not counted here. */
    var parserErrors: nat

    /** The packets and lines handed to the message parsers, and all bytes accepted so far. */
    ghost var outcomes: seq<Ubx.Outcome>
    ghost var lines: seq<seq<byte>>
    ghost var overflows: nat
    ghost var history: seq<byte>

    ghost predicate Shape()
      reads this
    {
      && ubxPayload.Length == Ubx.MAX_PAYLOAD && lineBuffer.Length == Line.LINE_BUFFER_SIZE
      && ubxPayload != lineBuffer
      && lineLength < Line.LINE_BUFFER_SIZE
      && (ubxStorePayload ==> ubxOffset <= Ubx.MAX_PAYLOAD)
    }

    /** The parser fields as a value. */
    ghost function UbxNow(): Ubx.State
      requires Shape()
      reads this, ubxPayload
    {
      Ubx.State(ubxState, ubxClass, ubxId, ubxLength, ubxOffset, Ubx.Ck(ubxCkA, ubxCkB), ubxStorePayload,
                if ubxStorePayload then ubxPayload[..ubxOffset] else [])
    }

    ghost function LineNow(): Line.State
      requires Shape()
      reads this, lineBuffer
    {
      Line.State(lineBuffer[..lineLength], lines, overflows)
    }

    /** Fields and histories agree with the specifications of the parser and the assembler. */
    ghost predicate Valid()
      reads this, ubxPayload, lineBuffer
    {
      && Shape()
      && Ubx.Reachable(UbxNow())
      && Explained(UbxNow(), outcomes, LineNow(), parserErrors, history)
      && (!initialized ==> history == [])
    }

    constructor ()
      ensures Valid() && history == [] && !initialized
      ensures fresh(ubxPayload) && fresh(lineBuffer)
    {
      initialized := false;
      ubxState, ubxClass, ubxId, ubxLength, ubxOffset := Ubx.Sync1, 0, 0, 0, 0;
      ubxCkA, ubxCkB, ubxStorePayload := 0, 0, false;
      ubxPayload := new byte[1024](_ => 0);
      lineBuffer := new byte[256](_ => 0);
      lineLength, parserErrors := 0, 0;
      outcomes, lines, overflows, history := [], [], 0, [];
    }

    /** receiver_init: nothing is accepted before it has allocated its mutex and its queue. */
    method ReceiverInit(mutexOk: bool, queueOk: bool, registered: bool) returns (ok: bool)
      requires Valid()
      modifies this
      ensures Valid() && history == old(history)
      ensures initialized == (old(initialized) || (mutexOk && queueOk))
      ensures ok == (old(initialized) || (mutexOk && queueOk && registered))
    {
      if initialized {
        return true;
      }
      if !mutexOk || !queueOk {
        return false;
      }
      parserErrors := 0;
      UbxReset();
      initialized := true;
      return registered;
    }

    method UbxReset()
      modifies this`ubxState, this`ubxClass, this`ubxId, this`ubxLength, this`ubxOffset, this`ubxCkA, this`ubxCkB,
               this`ubxStorePayload
      requires Shape()
      ensures Shape() && UbxNow() == Ubx.Reset()
    {
      ubxState, ubxClass, ubxId, ubxLength, ubxOffset := Ubx.Sync1, 0, 0, 0, 0;
      ubxCkA, ubxCkB, ubxStorePayload := 0, 0, false;
    }

    method UbxChecksumUpdate(b: byte)
      modifies this`ubxCkA, this`ubxCkB
      ensures Ubx.Ck(ubxCkA, ubxCkB) == Ubx.Absorb(Ubx.Ck(old(ubxCkA), old(ubxCkB)), b)
    {
      ubxCkA := (ubxCkA + b) % 256;
      ubxCkB := (ubxCkB + ubxCkA) % 256;
    }

    method UbxPayloadByte(b: byte)
      requires Shape() && Ubx.Reachable(UbxNow()) && ubxState == Ubx.Payload
      modifies this`ubxState, this`ubxOffset, this`ubxCkA, this`ubxCkB, ubxPayload
      ensures Shape() && UbxNow() == Ubx.Step(old(UbxNow()), b)
    {
      if ubxStorePayload && ubxOffset < Ubx.MAX_PAYLOAD {
        ubxPayload[ubxOffset] := b;
      }
      ubxOffset := ubxOffset + 1;
      UbxChecksumUpdate(b);
      if ubxOffset >= ubxLength {
        ubxState := Ubx.CkA;
      }
      assert ubxStorePayload ==> ubxPayload[..ubxOffset] == old(ubxPayload[..ubxOffset]) + [b];
    }

    /** The sync and header phases. */
    method UbxHeaderByte(b: byte)
      requires Shape() && Ubx.Reachable(UbxNow())
      requires ubxState in {Ubx.Class, Ubx.Id, Ubx.Len1, Ubx.Len2}
      modifies this`ubxState, this`ubxClass, this`ubxId, this`ubxLength, this`ubxCkA, this`ubxCkB, this`ubxStorePayload
      ensures Shape() && UbxNow() == Ubx.Step(old(UbxNow()), b)
    {
      match ubxState {
        case Class =>
          ubxClass := b;
          UbxChecksumUpdate(b);
          ubxState := Ubx.Id;
        case Id =>
          ubxId := b;
          UbxChecksumUpdate(b);
          ubxState := Ubx.Len1;
        case Len1 =>
          ubxLength := b;
          UbxChecksumUpdate(b);
          ubxState := Ubx.Len2;
        case Len2 =>
          ubxLength := ubxLength + 256 * (b as int);
          UbxChecksumUpdate(b);
          ubxStorePayload := ubxLength <= Ubx.MAX_PAYLOAD;
          ubxState := if ubxLength == 0 then Ubx.CkA else Ubx.Payload;
      }
    }

    /** The hunting phases. */
    method UbxSyncByte(b: byte)
      requires Shape() && ubxState in {Ubx.Sync1, Ubx.Sync2}
      modifies this`ubxState, this`ubxLength, this`ubxOffset, this`ubxCkA, this`ubxCkB, this`ubxStorePayload
      ensures Shape() && UbxNow() == Ubx.Step(old(UbxNow()), b)
    {
      if ubxState == Ubx.Sync1 {
        if b == Ubx.SYNC_CHAR_1 {
          ubxState := Ubx.Sync2;
        }
      } else if b == Ubx.SYNC_CHAR_2 {
        ubxState := Ubx.Class;
        ubxCkA, ubxCkB, ubxLength, ubxOffset, ubxStorePayload := 0, 0, 0, 0, true;
      } else if b != Ubx.SYNC_CHAR_1 {
        ubxState := Ubx.Sync1;
      }
    }

    /** The two check bytes. A frame that passes both is handed over straight from the fields and the buffer. */
    method UbxCheckByte(b: byte)
      requires Shape() && Ubx.Reachable(UbxNow()) && ubxState in {Ubx.CkA, Ubx.CkB}
      modifies this`ubxState, this`ubxClass, this`ubxId, this`ubxLength, this`ubxOffset, this`ubxCkA, this`ubxCkB,
               this`ubxStorePayload, this`parserErrors, this`outcomes
      ensures Shape() && UbxNow() == Ubx.Step(old(UbxNow()), b)
      ensures outcomes == old(outcomes) + Ubx.Emit(old(UbxNow()), b)
      ensures parserErrors == old(parserErrors) + Rejections(Ubx.Emit(old(UbxNow()), b))
    {
      if ubxState == Ubx.CkA {
        if b == ubxCkA {
          ubxState := Ubx.CkB;
        } else {
          parserErrors := parserErrors + 1;
          outcomes := outcomes + [Ubx.Rejected(Ubx.FirstChecksum)];
          UbxReset();
        }
      } else {
        if b == ubxCkB {
          if ubxStorePayload {
            outcomes := outcomes + [Ubx.Dispatched(ubxClass, ubxId, ubxPayload[..ubxLength])];
          } else {
            parserErrors := parserErrors + 1;
            outcomes := outcomes + [Ubx.Rejected(Ubx.Oversize)];
          }
        } else {
          parserErrors := parserErrors + 1;
          outcomes := outcomes + [Ubx.Rejected(Ubx.SecondChecksum)];
        }
        UbxReset();
      }
    }

    /** One byte through the UBX parser. */
    method UbxFeedByte(b: byte)
      requires Shape() && Ubx.Reachable(UbxNow())
      modifies this`ubxState, this`ubxClass, this`ubxId, this`ubxLength, this`ubxOffset, this`ubxCkA, this`ubxCkB,
               this`ubxStorePayload, this`parserErrors, this`outcomes, ubxPayload
      ensures Shape() && Ubx.Reachable(UbxNow())
      ensures UbxNow() == Ubx.Step(old(UbxNow()), b)
      ensures outcomes == old(outcomes) + Ubx.Emit(old(UbxNow()), b)
      ensures parserErrors == old(parserErrors) + Rejections(Ubx.Emit(old(UbxNow()), b))
    {
      Ubx.ReachableStep(UbxNow(), b);
      if ubxState.Sync1? || ubxState.Sync2? {
        UbxSyncByte(b);
      } else if ubxState.Payload? {
        UbxPayloadByte(b);
      } else if ubxState.CkA? || ubxState.CkB? {
        UbxCheckByte(b);
      } else {
        UbxHeaderByte(b);
      }
    }

    /** One byte through the line assembler. */
    method LineFeedByte(b: byte)
      requires Shape()
      modifies this`lineLength, this`parserErrors, this`lines, this`overflows, lineBuffer
      ensures Shape() && LineNow() == Line.Step(old(LineNow()), b)
      ensures parserErrors - old(parserErrors) == overflows - old(overflows)
    {
      if b == 10 || b == 13 {
        if lineLength > 0 {
          lineBuffer[lineLength] := 0;
          lines := lines + [lineBuffer[..lineLength]];
          lineLength := 0;
        }
        return;
      }
      if !Line.IsPrint(b) {
        return;
      }
      if lineLength + 1 >= lineBuffer.Length {
        parserErrors := parserErrors + 1;
        overflows := overflows + 1;
        lineLength := 0;
        return;
      }
      lineBuffer[lineLength] := b;
      lineLength := lineLength + 1;
    }

    method FeedBoth(b: byte)
      requires Shape() && Ubx.Reachable(UbxNow())
      modifies this, ubxPayload, lineBuffer
      ensures Shape() && Ubx.Reachable(UbxNow()) && initialized == old(initialized) && history == old(history)
      ensures UbxNow() == Ubx.Step(old(UbxNow()), b) && outcomes == old(outcomes) + Ubx.Emit(old(UbxNow()), b)
      ensures LineNow() == Line.Step(old(LineNow()), b)
      ensures parserErrors == old(parserErrors) + Rejections(Ubx.Emit(old(UbxNow()), b)) + (overflows - old(overflows))
    {
      UbxFeedByte(b);
      LineFeedByte(b);
    }

    /** One byte of the handler's loop: both machines see it. */
    method HandleByte(b: byte)
      requires Valid() && initialized
      modifies this, ubxPayload, lineBuffer
      ensures Valid() && history == old(history) + [b] && initialized
    {
      FeedBoth(b);
      ExplainedGrows(old(UbxNow()), old(outcomes), old(LineNow()), old(parserErrors), history, b);
      history := history + [b];
    }

    /** A chunk from the UART: it extends the history, whatever its size, once the receiver is running. */
    method UartHandler(chunk: seq<byte>)
      requires Valid()
      modifies this, ubxPayload, lineBuffer
      ensures Valid() && initialized == old(initialized)
      ensures history == if initialized then old(history) + chunk else old(history)
    {
      if |chunk| <= 0 || !initialized {
        assert history + [] == history;
        return;
      }
      for i := 0 to |chunk|
        invariant Valid() && initialized == old(initialized)
        invariant history == old(history) + chunk[..i]
      {
        HandleByte(chunk[i]);
        assert chunk[..i + 1] == chunk[..i] + [chunk[i]];
      }
      assert chunk[..|chunk|] == chunk;
    }
  }

  /** Parser state, reports, line state and error count are those of the whole history. */
  predicate Explained(u: Ubx.State, os: seq<Ubx.Outcome>, l: Line.State, errors: nat, history: seq<byte>) {
    && u == Ubx.After(Ubx.Reset(), history)
    && os == Ubx.Emitted(Ubx.Reset(), history)
    && l == Line.After(Line.Init(), history)
    && errors == Rejections(os) + l.overflows
  }

  lemma ExplainedGrows(u: Ubx.State, os: seq<Ubx.Outcome>, l: Line.State, errors: nat, history: seq<byte>, b: byte)
    requires Explained(u, os, l, errors, history)
    ensures Line.Step(l, b).overflows >= l.overflows
    ensures Explained(Ubx.Step(u, b), os + Ubx.Emit(u, b), Line.Step(l, b),
                      errors + Rejections(Ubx.Emit(u, b)) + (Line.Step(l, b).overflows - l.overflows), history + [b])
  {
    HistoryGrows(history, b);
    RejectionsAppend(os, Ubx.Emit(u, b));
  }

  function Rejections(os: seq<Ubx.Outcome>): nat {
    if os == [] then 0 else (if os[0].Rejected? then 1 else 0) + Rejections(os[1..])
  }

  lemma {:induction false} RejectionsAppend(a: seq<Ubx.Outcome>, b: seq<Ubx.Outcome>)
    ensures Rejections(a + b) == Rejections(a) + Rejections(b)
  {
    if a == [] {
      assert a + b == b;
    } else {
      RejectionsAppend(a[1..], b);
      assert (a + b)[1..] == a[1..] + b;
    }
  }

  /** Both specifications advance by one step when the history grows by one byte. */
  lemma HistoryGrows(h: seq<byte>, b: byte)
    ensures Ubx.After(Ubx.Reset(), h + [b]) == Ubx.Step(Ubx.After(Ubx.Reset(), h), b)
    ensures Ubx.Emitted(Ubx.Reset(), h + [b]) == Ubx.Emitted(Ubx.Reset(), h) + Ubx.Emit(Ubx.After(Ubx.Reset(), h), b)
    ensures Line.After(Line.Init(), h + [b]) == Line.Step(Line.After(Line.Init(), h), b)
  {
    Ubx.Chunking(Ubx.Reset(), h, [b]);
    Line.Chunking(Line.Init(), h, [b]);
    var u := Ubx.After(Ubx.Reset(), h);
    assert Ubx.After(u, [b]) == Ubx.Step(u, b) && Ubx.Emitted(u, [b]) == Ubx.Emit(u, b);
    var l := Line.After(Line.Init(), h);
    assert Line.After(l, [b]) == Line.Step(l, b);
  }
}
