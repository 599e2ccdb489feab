/**
 The text side of the UART handler of main/receiver.c: printable bytes are collected into a
 256-byte line buffer, a line end delivers the line, an overfull buffer is dropped.
 */
module LineAssembler {
  import opened Bytes

  const LINE_BUFFER_SIZE: nat := 256

  predicate IsLineEnd(b: byte) { b == 10 || b == 13 }

  /** isprint in the C locale; '$' and '#' are printable anyway. */
  predicate IsPrint(b: byte) { 32 <= b <= 126 }

  /** The line under construction, the lines delivered, and the overflow count. */
  datatype State = State(line: seq<byte>, delivered: seq<seq<byte>>, overflows: nat)

  function Init(): State { State([], [], 0) }

  function Step(s: State, b: byte): State {
    if IsLineEnd(b) then
      if |s.line| > 0 then s.(line := [], delivered := s.delivered + [s.line]) else s
    else if !IsPrint(b) then s
    else if |s.line| + 1 >= LINE_BUFFER_SIZE then s.(line := [], overflows := s.overflows + 1)
    else s.(line := s.line + [b])
  }

  function After(s: State, bs: seq<byte>): State
    decreases |bs|
  {
    if bs == [] then s else After(Step(s, bs[0]), bs[1..])
  }

  lemma {:induction false} Chunking(s: State, a: seq<byte>, b: seq<byte>)
    ensures After(s, a + b) == After(After(s, a), b)
    decreases |a|
  {
    if a == [] {
      assert a + b == b;
    } else {
      Chunking(Step(s, a[0]), a[1..], b);
      assert (a + b)[1..] == a[1..] + b;
    }
  }

  // ---- The reference: whole runs between line ends ------------------------------------------

  /** The printable bytes of `h` after its last line end. */
  function Run(h: seq<byte>): seq<byte> {
    if h == [] || IsLineEnd(h[|h| - 1]) then []
    else if IsPrint(h[|h| - 1]) then Run(h[..|h| - 1]) + [h[|h| - 1]]
    else Run(h[..|h| - 1])
  }

  /** What a run of k bytes leaves in the buffer: its last k mod 256 bytes. */
  function Kept(run: seq<byte>): seq<byte> {
    run[|run| - |run| % LINE_BUFFER_SIZE..]
  }

  /** The lines a stream delivers: one per line end, taken from the run before it, none if empty. */
  function Lines(h: seq<byte>): seq<seq<byte>> {
    if h == [] then []
    else
      var front, b := h[..|h| - 1], h[|h| - 1];
      if IsLineEnd(b) && Kept(Run(front)) != [] then Lines(front) + [Kept(Run(front))] else Lines(front)
  }

  /** One overflow for every full 256 bytes of a run, summed over the runs already ended. */
  function EndedOverflows(h: seq<byte>): nat {
    if h == [] then 0
    else
      var front, b := h[..|h| - 1], h[|h| - 1];
      EndedOverflows(front) + if IsLineEnd(b) then |Run(front)| / LINE_BUFFER_SIZE else 0
  }

  /**
   Over any stream: every run of k printable bytes between line ends delivers exactly its last
   k mod 256 bytes (nothing if that is none) and counts k div 256 overflows.
   */
  lemma {:induction false} AssemblyMatchesRuns(h: seq<byte>)
    ensures After(Init(), h) ==
              State(Kept(Run(h)), Lines(h), EndedOverflows(h) + |Run(h)| / LINE_BUFFER_SIZE)
    ensures |After(Init(), h).line| <= 255
  {
    if h == [] {
    } else {
      var front, b := h[..|h| - 1], h[|h| - 1];
      AssemblyMatchesRuns(front);
      Chunking(Init(), front, [b]);
      assert h == front + [b];
      var s := After(Init(), front);
      assert After(s, [b]) == Step(s, b);
      KeptGrows(Run(front), b);
    }
  }

  /** Modulo 256, one more byte either extends what is kept or empties it. */
  lemma KeptGrows(run: seq<byte>, b: byte)
    ensures |Kept(run)| + 1 < LINE_BUFFER_SIZE ==>
              Kept(run + [b]) == Kept(run) + [b] && |run + [b]| / LINE_BUFFER_SIZE == |run| / LINE_BUFFER_SIZE
    ensures |Kept(run)| + 1 >= LINE_BUFFER_SIZE ==>
              Kept(run + [b]) == [] && |run + [b]| / LINE_BUFFER_SIZE == |run| / LINE_BUFFER_SIZE + 1
  {
    var n := |run|;
    assert |run + [b]| == n + 1;
    if n % 256 < 255 {
      assert (n + 1) % 256 == n % 256 + 1;
      var from := n - n % 256;
      assert (run + [b])[from..] == run[from..] + [b];
    }
  }

  lemma {:induction false} TextCollects(s: State, text: seq<byte>)
    requires |s.line| + |text| <= 255 && forall b | b in text :: 32 <= b <= 126
    ensures After(s, text) == s.(line := s.line + text)
    decreases |text|
  {
    if text == [] {
      assert s.line + text == s.line;
    } else {
      assert text[0] in text;
      assert forall b | b in text[1..] :: b in text;
      TextCollects(Step(s, text[0]), text[1..]);
      assert s.line + [text[0]] + text[1..] == s.line + text;
    }
  }

  /** Any line of 1 to 255 printable ASCII characters is delivered as it is by a CR or LF behind it. */
  lemma TextDelivered(s: State, text: seq<byte>, end: byte)
    requires s.line == [] && 0 < |text| <= 255 && (end == 10 || end == 13) && forall b | b in text :: 32 <= b <= 126
    ensures After(s, text + [end]) == s.(delivered := s.delivered + [text])
  {
    TextCollects(s, text);
    assert s.line + text == text;
    Chunking(s, text, [end]);
    var t := After(s, text);
    assert After(t, [end]) == Step(t, end);
  }

  /** Every other byte is ignored, wherever it stands. */
  lemma NoiseIgnored(s: State, b: byte)
    requires b > 126 || (b < 32 && b != 10 && b != 13)
    ensures Step(s, b) == s
  {
  }
}
