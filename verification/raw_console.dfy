/**
 The raw console of main/receiver.c: a bounded text buffer that keeps the newest characters of
 everything logged since it was last cleared.
 */
module RawConsole {
  const LINE_SIZE: nat := 192

  /** The last `n` characters of `s`, or all of it. */
  function Tail(s: string, n: nat): string {
    if |s| <= n then s else s[|s| - n..]
  }

  /** Keeping a tail while appending is the same as keeping the tail of everything appended. */
  lemma TailAppend(a: string, b: string, n: nat)
    ensures Tail(Tail(a, n) + b, n) == Tail(a + b, n)
  {
    if |a| > n {
      var d := |a| - n;
      assert a[d..] + b == (a + b)[d..];
      TailOfSuffix(a + b, d, n);
    }
  }

  /** A line that fits leaves room for the end of what came before; a longer one leaves none. */
  lemma TailOfLine(a: string, line: string, n: nat)
    ensures Tail(a + line, n) == if |line| <= n then Tail(a, n - |line|) + line else Tail(line, n)
  {
    var s := a + line;
    if |line| > n {
      assert s[|s| - n..] == line[|line| - n..];
    } else if |s| > n {
      assert s[|s| - n..] == a[|s| - n..] + line;
    }
  }

  lemma TailOfSuffix(s: string, d: nat, n: nat)
    requires d + n <= |s|
    ensures Tail(s[d..], n) == Tail(s, n)
  {
    assert s[d..][|s| - d - n..] == s[|s| - n..];
  }

  /** The record snprintf leaves in a 192-byte line: prefix, text and newline, cut to 191 characters. */
  function Record(prefix: string, text: string): string {
    var full := prefix + text + "\n";
    if |full| >= LINE_SIZE then full[..LINE_SIZE - 1] else full
  }

  lemma RecordIs(prefix: string, text: string)
    ensures Record(prefix, text) == (prefix + text + "\n")[..RecordLength(prefix, text)]
  {
    var full := prefix + text + "\n";
    assert |full| < LINE_SIZE ==> full[..|full|] == full;
  }

  /** How much of prefix, text and newline a record keeps: 191 characters at most. */
  function RecordLength(prefix: string, text: string): (n: nat)
    ensures n <= |prefix + text + "\n"|
  {
    if |prefix| + |text| + 1 <= 191 then |prefix| + |text| + 1 else 191
  }

  class Console {
    const rawBuffer: array<char>
    var rawLength: nat
    var rawBufferUsed: nat
    var rawConsoleEnabled: bool

    /** Everything recorded since the last clear. */
    ghost var total: string

    ghost predicate Shape()
      reads this, rawBuffer
    {
      && rawBufferUsed == rawLength
      && (rawBuffer.Length == 0 ==> rawLength == 0)
      && (rawBuffer.Length > 0 ==> rawLength < rawBuffer.Length && rawBuffer[rawLength] == '\0')
    }

    ghost function Contents(): string
      requires Shape()
      reads this, rawBuffer
    {
      rawBuffer[..rawLength]
    }

    /** The buffer is the last size-1 characters of the log, NUL-terminated, with its length published. */
    ghost predicate Valid()
      reads this, rawBuffer
    {
      Shape() && (if rawBuffer.Length >= 2 then Contents() == Tail(total, rawBuffer.Length - 1) else total == "")
    }

    /** `size` is 0 when no buffer could be allocated. */
    constructor (size: nat)
      ensures Valid() && total == "" && rawConsoleEnabled && fresh(rawBuffer) && rawBuffer.Length == size
    {
      rawBuffer := new char[size](_ => '\0');
      rawLength, rawBufferUsed, rawConsoleEnabled := 0, 0, true;
      total := "";
    }

    /** A record longer than the buffer: keep its end. */
    method Overwrite(line: string)
      requires 2 <= rawBuffer.Length <= |line|
      modifies this`rawLength, this`rawBufferUsed, rawBuffer
      ensures Shape() && Contents() == Tail(line, rawBuffer.Length - 1)
    {
      var n := rawBuffer.Length - 1;
      forall i | 0 <= i < n {
        rawBuffer[i] := line[|line| - rawBuffer.Length + 1 + i];
      }
      rawLength := n;
      rawBuffer[rawLength] := '\0';
      rawBufferUsed := rawLength;
    }

    /** Slide the buffer down by `drop` characters. */
    method Drop(drop: nat)
      requires drop <= rawLength <= rawBuffer.Length
      modifies this`rawLength, rawBuffer
      ensures rawLength == old(rawLength) - drop
      ensures rawBuffer[..rawLength] == old(rawBuffer[..rawLength])[drop..]
    {
      var keep := rawLength - drop;
      forall i | 0 <= i < keep {
        rawBuffer[i] := rawBuffer[drop + i];
      }
      rawLength := keep;
      assert forall i | 0 <= i < keep :: rawBuffer[i] == old(rawBuffer[..rawLength])[drop..][i];
    }

    method Write(line: string)
      requires rawLength + |line| < rawBuffer.Length
      modifies this`rawLength, this`rawBufferUsed, rawBuffer
      ensures Shape() && Contents() == old(rawBuffer[..rawLength]) + line
    {
      forall i | 0 <= i < |line| {
        rawBuffer[rawLength + i] := line[i];
      }
      rawLength := rawLength + |line|;
      rawBuffer[rawLength] := '\0';
      rawBufferUsed := rawLength;
    }

    /** Make room by dropping the oldest characters, then write. */
    method Store(line: string)
      requires Shape() && rawBuffer.Length >= 2
      modifies this`rawLength, this`rawBufferUsed, rawBuffer
      ensures Shape() && Contents() == Tail(old(Contents()) + line, rawBuffer.Length - 1)
    {
      TailOfLine(Contents(), line, rawBuffer.Length - 1);
      if |line| >= rawBuffer.Length {
        Overwrite(line);
        return;
      }
      MakeRoom(|line|);
      Write(line);
    }

    method MakeRoom(n: nat)
      requires Shape() && n < rawBuffer.Length
      modifies this`rawLength, rawBuffer
      ensures rawLength + n < rawBuffer.Length
      ensures rawBuffer[..rawLength] == Tail(old(Contents()), rawBuffer.Length - 1 - n)
    {
      var required := rawLength + n;
      if required >= rawBuffer.Length {
        var drop := required - rawBuffer.Length + 1;
        if drop > rawLength {
          drop := rawLength;
        }
        Drop(drop);
      }
    }

    method AppendRaw(prefix: string, text: string)
      requires Valid()
      modifies this`rawLength, this`rawBufferUsed, this`total, rawBuffer
      ensures Valid()
      ensures total == if rawConsoleEnabled && rawBuffer.Length >= 2 then old(total) + Record(prefix, text) else old(total)
      ensures rawConsoleEnabled && rawBuffer.Length >= 2 ==> total == old(total) + (prefix + text + "\n")[..RecordLength(prefix, text)]
    {
      if !rawConsoleEnabled || rawBuffer.Length < 2 {
        return;
      }
      var line := Format(prefix, text);
      RecordIs(prefix, text);
      StoreLogged(line);
    }

    /** The record goes into the buffer and into the log. */
    method StoreLogged(line: string)
      requires Valid() && rawBuffer.Length >= 2
      modifies this`rawLength, this`rawBufferUsed, this`total, rawBuffer
      ensures Valid() && total == old(total) + line
    {
      TailAppend(total, line, rawBuffer.Length - 1);
      Store(line);
      total := total + line;
    }

    /** Disabling the console clears it. */
    method SetEnabled(enabled: bool)
      requires Valid()
      modifies this, rawBuffer
      ensures Valid() && rawConsoleEnabled == enabled
      ensures total == if enabled then old(total) else ""
      ensures !enabled ==> rawLength == 0
    {
      rawConsoleEnabled := enabled;
      if !enabled {
        if rawBuffer.Length > 0 {
          rawLength := 0;
          rawBuffer[0] := '\0';
          rawBufferUsed := 0;
        }
        total := "";
      }
    }

    /** A reader with a buffer of `size` bytes gets the oldest part that fits. */
    method GetRawOutput(size: nat) returns (text: string)
      requires Valid() && size > 0
      ensures |text| < size && text <= Contents()
      ensures |text| == size - 1 || text == Contents()
    {
      var length := rawLength;
      if rawBuffer.Length == 0 {
        return "";
      }
      if length >= size {
        length := size - 1;
      }
      return rawBuffer[..length];
    }
  }

  /** The line as snprintf leaves it, with the length it returns cut to what fits. */
  method Format(prefix: string, text: string) returns (line: string)
    ensures line == Record(prefix, text)
  {
    var full := prefix + text + "\n";
    var lineLen := if |full| >= LINE_SIZE then LINE_SIZE - 1 else |full|;
    line := full[..lineLen];
  }

  /** The log after a sequence of records. */
  function Log(records: seq<(string, string)>): string {
    if records == [] then "" else Log(records[..|records| - 1]) + Record(records[|records| - 1].0, records[|records| - 1].1)
  }

  /** The buffer contents step by step, as the in-place code produces them. */
  function Buffered(records: seq<(string, string)>, n: nat): string {
    if records == [] then ""
    else Tail(Buffered(records[..|records| - 1], n) + Record(records[|records| - 1].0, records[|records| - 1].1), n)
  }

  /** Over any number of records, dropping as it goes keeps exactly the tail of the whole log. */
  lemma {:induction false} BufferIsTailOfLog(records: seq<(string, string)>, n: nat)
    ensures Buffered(records, n) == Tail(Log(records), n)
  {
    if records == [] {
    } else {
      var front, last := records[..|records| - 1], records[|records| - 1];
      BufferIsTailOfLog(front, n);
      TailAppend(Log(front), Record(last.0, last.1), n);
    }
  }
}
