/**
 The receiver command queue of main/receiver.c: callers enqueue formatted commands into a queue of
 twelve, one consumer task takes them from the front, transmits, waits for an expected reply, and
 puts a command that timed out back to the front once. Every interleaving of callers, profile
 application and consumer is a run of `Step`.
 */
module CommandQueue {
  const QUEUE_LENGTH: nat := 12
  const COMMAND_MAX_LEN: nat := 128
  const RETRY_COUNT: nat := 1

  /** What a caller asks to send: the formatted text and the reply to wait for ("" for none). */
  datatype Request = Request(text: string, reply: string)

  /** A queue element; `id` numbers accepted commands in order of acceptance. */
  datatype Command = Command(id: nat, request: Request, retriesLeft: nat)

  datatype Task = Idle | Sending(command: Command) | Waiting(command: Command)

  datatype Application = NotApplying | Applying(rest: seq<Request>) | Applied | ApplyFailed

  datatype Status = NoStatus | Queued | QueueFull | SendingNow | TxFailed | TimedOut | Acknowledged
                  | ProfileQueued | ProfileFailed

  datatype Error = Ok | InvalidSize | NoMem

  /** How an attempt ended: not sent, answered if it waited for anything, or not, with so many commands then queued. */
  datatype Ending = NotSent | Answered | Unanswered(queued: nat)

  /** The shared state, with the history of attempts, the text each one sent, and the traffic counters. */
  datatype Link = Link(queue: seq<Command>, task: Task, application: Application, status: Status, busy: bool,
                       accepted: seq<Request>, attempts: seq<nat>, sent: seq<string>, endings: seq<Ending>,
                       takes: nat, putBacks: nat)

  function Init(): Link { Link([], Idle, NotApplying, NoStatus, false, [], [], [], [], 0, 0) }

  // ---- The steps ---------------------------------------------------------------------------

  datatype Action =
    | Offer(request: Request)
    | ApplyStart(profile: Profile, settings: Settings)
    | ApplyNext
    | Take
    | Transmit(written: bool)
    | Settle(matched: bool)

  /** receiver_queue_formatted: the result, and the state it leaves. */
  function Enqueue(s: Link, r: Request): (Link, Error) {
    if |r.text| == 0 || |r.text| >= COMMAND_MAX_LEN then (s, InvalidSize)
    else if |s.queue| >= QUEUE_LENGTH then (s.(status := QueueFull), NoMem)
    else
      (s.(queue := s.queue + [Command(|s.accepted|, r, RETRY_COUNT)],
          accepted := s.accepted + [r], status := Queued), Ok)
  }

  predicate Enabled(s: Link, a: Action) {
    match a
    case Offer(_) => true
    case ApplyStart(_, _) => !s.application.Applying?
    case ApplyNext => s.application.Applying?
    case Take => s.task.Idle? && s.queue != []
    case Transmit(_) => s.task.Sending?
    case Settle(_) => s.task.Waiting?
  }

  function Step(s: Link, a: Action): Link
    requires Enabled(s, a)
  {
    match a
    case Offer(r) => Enqueue(s, r).0
    case ApplyStart(p, c) => s.(application := Applying(ProfileRequests(p, c)))
    case ApplyNext =>
      if s.application.rest == [] then s.(application := Applied, status := ProfileQueued)
      else
        var (t, e) := Enqueue(s, s.application.rest[0]);
        if e == Ok then t.(application := Applying(s.application.rest[1..]))
        else t.(application := ApplyFailed, status := ProfileFailed)
    case Take =>
      s.(queue := s.queue[1..], task := Sending(s.queue[0]), busy := true, status := SendingNow, takes := s.takes + 1)
    case Transmit(written) =>
      var t := s.(attempts := s.attempts + [s.task.command.id], sent := s.sent + [s.task.command.request.text]);
      if written then t.(task := Waiting(s.task.command))
      else t.(task := Idle, busy := false, status := TxFailed, endings := s.endings + [NotSent])
    case Settle(matched) =>
      var c := s.task.command;
      var answered := c.request.reply == "" || matched;
      var t := s.(task := Idle, busy := false,
                  endings := s.endings + [if answered then Answered else Unanswered(|s.queue|)]);
      if answered then t.(status := Acknowledged)
      else if c.retriesLeft == 0 then t.(status := TimedOut)
      else if |s.queue| >= QUEUE_LENGTH then t
      else t.(queue := [c.(retriesLeft := c.retriesLeft - 1)] + s.queue, putBacks := s.putBacks + 1)
  }

  predicate Legal(s: Link, acts: seq<Action>)
    decreases |acts|
  {
    acts == [] || (Enabled(s, acts[0]) && Legal(Step(s, acts[0]), acts[1..]))
  }

  function Exec(s: Link, acts: seq<Action>): Link
    requires Legal(s, acts)
    decreases |acts|
  {
    if acts == [] then s else Exec(Step(s, acts[0]), acts[1..])
  }

  // ---- FIFO delivery -----------------------------------------------------------------------

  /** Immediate repeats removed. */
  function Collapse(ids: seq<nat>): seq<nat> {
    if ids == [] then []
    else
      var front, x := ids[..|ids| - 1], ids[|ids| - 1];
      if front != [] && front[|front| - 1] == x then Collapse(front) else Collapse(front) + [x]
  }

  function Count(ids: seq<nat>, x: nat): nat {
    if ids == [] then 0 else Count(ids[..|ids| - 1], x) + if ids[|ids| - 1] == x then 1 else 0
  }

  function UpTo(n: nat): (r: seq<nat>)
    ensures |r| == n
  {
    seq(n, i => i)
  }

  /** How many commands have been taken for the first time. */
  function Started(s: Link): int {
    |s.accepted| - |s.queue| + if s.queue != [] && s.queue[0].retriesLeft == 0 then 1 else 0
  }

  /** A command being sent for the first time has not been attempted yet. */
  function Attempted(s: Link): int {
    Started(s) - if s.task.Sending? && s.task.command.retriesLeft > 0 then 1 else 0
  }

  /** Only the head of the queue can be a retry, and the queue holds the last accepted commands in order. */
  ghost predicate QueueShape(s: Link) {
    && |s.queue| <= QUEUE_LENGTH && |s.queue| <= |s.accepted|
    && s.takes + |s.queue| == |s.accepted| + s.putBacks
    && (forall i | 0 <= i < |s.queue| :: s.queue[i].retriesLeft <= RETRY_COUNT)
    && (forall i | 1 <= i < |s.queue| :: s.queue[i].retriesLeft == RETRY_COUNT)
    && (forall i | 0 <= i < |s.queue| :: s.queue[i].id == |s.accepted| - |s.queue| + i
                                         && s.queue[i].request == s.accepted[|s.accepted| - |s.queue| + i])
  }

  predicate RetryAtHead(s: Link) {
    s.queue != [] && s.queue[0].retriesLeft == 0
  }

  /** The consumer holds the command taken last. */
  ghost predicate TaskShape(s: Link) {
    !s.task.Idle? ==>
      && s.busy && !RetryAtHead(s)
      && s.task.command.id == |s.accepted| - |s.queue| - 1
      && s.task.command.retriesLeft <= RETRY_COUNT
      && s.task.command.request == s.accepted[s.task.command.id]
  }

  /** Some attempt of the command attempted last is still allowed. */
  predicate RetryPending(s: Link) {
    || (s.task.Waiting? && s.task.command.retriesLeft > 0)
    || (s.task.Sending? && s.task.command.retriesLeft == 0)
    || RetryAtHead(s)
  }

  /** The attempts so far are 0, 1, ..., n-1 with at most one immediate repeat each. */
  ghost predicate Orderly(attempts: seq<nat>, n: int, pending: bool) {
    && n >= 0
    && Collapse(attempts) == UpTo(n)
    && (if n == 0 then attempts == [] else attempts != [] && attempts[|attempts| - 1] == n - 1)
    && (forall x: nat :: Count(attempts, x) <= 2)
    && (forall x: nat | x >= n :: Count(attempts, x) == 0)
    && (pending ==> n > 0 && Count(attempts, n - 1) <= 1)
  }

  ghost predicate Inv(s: Link) {
    QueueShape(s) && TaskShape(s) && Orderly(s.attempts, Attempted(s), RetryPending(s))
  }

  lemma InitInv()
    ensures Inv(Init())
  {
  }

  lemma AppendFacts(ids: seq<nat>, y: nat)
    ensures forall x: nat :: Count(ids + [y], x) == Count(ids, x) + if x == y then 1 else 0
    ensures Collapse(ids + [y]) == if ids != [] && ids[|ids| - 1] == y then Collapse(ids) else Collapse(ids) + [y]
  {
    assert (ids + [y])[..|ids|] == ids;
  }

  /** A first attempt moves on to the next command. */
  lemma OrderlyFirst(attempts: seq<nat>, n: nat, pending: bool)
    requires Orderly(attempts, n, pending)
    ensures Orderly(attempts + [n], n + 1, true)
  {
    AppendFacts(attempts, n);
    assert UpTo(n) + [n] == UpTo(n + 1);
  }

  /** A second attempt repeats the last one and is the last allowed. */
  lemma OrderlyRepeat(attempts: seq<nat>, n: nat)
    requires Orderly(attempts, n, true)
    ensures Orderly(attempts + [n - 1], n, false)
  {
    AppendFacts(attempts, n - 1);
  }

  /** A command of 1 to 127 characters goes behind the others if fewer than twelve wait; any other changes no more than the status. */
  lemma EnqueueTells(s: Link, r: Request)
    ensures var (t, e) := Enqueue(s, r);
      && (e == Ok <==> 0 < |r.text| < 128 && |s.queue| < 12)
      && (e == Ok ==> t.accepted == s.accepted + [r] && |t.queue| == |s.queue| + 1 && t.queue[..|s.queue|] == s.queue
                      && t.queue[|s.queue|].request == r && t.queue[|s.queue|].retriesLeft == 1)
      && (e != Ok ==> t == s.(status := t.status)) && t.task == s.task
  {
  }

  lemma EnqueueKeeps(s: Link, r: Request)
    requires QueueShape(s) && TaskShape(s)
    ensures QueueShape(Enqueue(s, r).0)
    ensures TaskShape(Enqueue(s, r).0)
    ensures Attempted(Enqueue(s, r).0) == Attempted(s) && RetryPending(Enqueue(s, r).0) == RetryPending(s)
    ensures Enqueue(s, r).0.attempts == s.attempts
  {
    var t := Enqueue(s, r).0;
    if t.queue != s.queue {
      assert t.accepted == s.accepted + [r] && |t.queue| == |s.queue| + 1;
      forall i | 0 <= i < |s.queue|
        ensures t.queue[i] == s.queue[i]
      {
      }
      assert t.queue[|s.queue|] == Command(|s.accepted|, r, RETRY_COUNT);
    }
  }

  lemma TakeKeeps(s: Link)
    requires QueueShape(s) && s.task.Idle? && s.queue != []
    ensures QueueShape(Step(s, Take)) && TaskShape(Step(s, Take))
    ensures Attempted(Step(s, Take)) == Attempted(s) && RetryPending(Step(s, Take)) == RetryPending(s)
  {
    var t := Step(s, Take);
    assert forall i | 0 <= i < |t.queue| :: t.queue[i] == s.queue[i + 1];
  }

  lemma TransmitShape(s: Link, written: bool)
    requires QueueShape(s) && TaskShape(s) && s.task.Sending?
    ensures QueueShape(Step(s, Transmit(written))) && TaskShape(Step(s, Transmit(written)))
    ensures var t := Step(s, Transmit(written)); var first := s.task.command.retriesLeft > 0;
      && Attempted(t) == Attempted(s) + (if first then 1 else 0)
      && (RetryPending(t) ==> first)
      && s.task.command.id == (if first then Attempted(s) else Attempted(s) - 1)
      && t.attempts == s.attempts + [s.task.command.id]
  {
  }

  lemma TransmitKeeps(s: Link, written: bool)
    requires Inv(s) && s.task.Sending?
    ensures Inv(Step(s, Transmit(written)))
  {
    TransmitShape(s, written);
    if s.task.command.retriesLeft == 0 {
      OrderlyRepeat(s.attempts, Attempted(s));
    } else {
      OrderlyFirst(s.attempts, Attempted(s), RetryPending(s));
    }
  }

  /** A command put back at the front is the last accepted one not in the queue. */
  lemma PutBackShape(s: Link, c: Command, t: Link)
    requires QueueShape(s) && TaskShape(s) && s.task == Waiting(c) && c.retriesLeft > 0 && |s.queue| < QUEUE_LENGTH
    requires t.queue == [c.(retriesLeft := c.retriesLeft - 1)] + s.queue
    requires t.accepted == s.accepted && t.takes == s.takes && t.putBacks == s.putBacks + 1
    ensures QueueShape(t)
  {
    forall i | 1 <= i < |t.queue|
      ensures t.queue[i] == s.queue[i - 1]
    {
    }
  }

  lemma SettleKeeps(s: Link, matched: bool)
    requires QueueShape(s) && TaskShape(s) && s.task.Waiting?
    ensures QueueShape(Step(s, Settle(matched))) && TaskShape(Step(s, Settle(matched)))
    ensures Attempted(Step(s, Settle(matched))) == Attempted(s)
    ensures RetryPending(Step(s, Settle(matched))) ==> RetryPending(s)
  {
    var t := Step(s, Settle(matched));
    if t.putBacks != s.putBacks {
      PutBackShape(s, s.task.command, t);
    }
  }

  /** The invariant does not look at the application or the status line. */
  lemma InvFrame(s: Link, t: Link)
    requires Inv(s) && t == s.(application := t.application, status := t.status)
    ensures Inv(t)
  {
  }

  lemma ApplyKeeps(s: Link)
    requires Inv(s) && s.application.Applying?
    ensures Inv(Step(s, ApplyNext))
  {
    if s.application.rest == [] {
      InvFrame(s, Step(s, ApplyNext));
    } else {
      EnqueueKeeps(s, s.application.rest[0]);
      InvFrame(Enqueue(s, s.application.rest[0]).0, Step(s, ApplyNext));
    }
  }

  lemma StepKeeps(s: Link, a: Action)
    requires Inv(s) && Enabled(s, a)
    ensures Inv(Step(s, a))
  {
    match a
    case Offer(r) => EnqueueKeeps(s, r);
    case ApplyStart(_, _) => InvFrame(s, Step(s, a));
    case ApplyNext => ApplyKeeps(s);
    case Take => TakeKeeps(s);
    case Transmit(written) => TransmitKeeps(s, written);
    case Settle(matched) => SettleKeeps(s, matched);
  }

  lemma {:induction false} RunKeeps(s: Link, acts: seq<Action>)
    requires Inv(s) && Legal(s, acts)
    ensures Inv(Exec(s, acts))
    decreases |acts|
  {
    if acts == [] {
    } else {
      StepKeeps(s, acts[0]);
      RunKeeps(Step(s, acts[0]), acts[1..]);
    }
  }

  /** Every attempt sent the text that was accepted under its number. */
  ghost predicate SentAsAccepted(s: Link) {
    && |s.sent| == |s.attempts|
    && forall k | 0 <= k < |s.attempts| :: s.attempts[k] < |s.accepted| && s.sent[k] == s.accepted[s.attempts[k]].text
  }

  lemma SentStep(s: Link, a: Action)
    requires TaskShape(s) && SentAsAccepted(s) && Enabled(s, a)
    ensures SentAsAccepted(Step(s, a))
  {
    AcceptedGrows(s, a);
    var t := Step(s, a);
    assert !a.Transmit? ==> t.attempts == s.attempts && t.sent == s.sent;
  }

  lemma AcceptedGrows(s: Link, a: Action)
    requires Enabled(s, a)
    ensures s.accepted <= Step(s, a).accepted
  {
  }

  lemma {:induction false} RunSends(s: Link, acts: seq<Action>)
    requires Inv(s) && SentAsAccepted(s) && Legal(s, acts)
    ensures SentAsAccepted(Exec(s, acts))
    decreases |acts|
  {
    if acts == [] {
    } else {
      StepKeeps(s, acts[0]);
      SentStep(s, acts[0]);
      RunSends(Step(s, acts[0]), acts[1..]);
    }
  }

  /**
   In every interleaving: with immediate repeats collapsed, the attempted transmissions are the
   first accepted commands, in acceptance order and without a gap; each sends the text accepted, and
   none is attempted more than twice.
   */
  lemma TransmitsInOrderAtMostTwice(acts: seq<Action>, x: nat)
    requires Legal(Init(), acts)
    ensures var s := Exec(Init(), acts);
            && |Collapse(s.attempts)| <= |s.accepted|
            && Collapse(s.attempts) == UpTo(|Collapse(s.attempts)|)
            && SentAsAccepted(s)
            && Count(s.attempts, x) <= 2
  {
    InitInv();
    RunKeeps(Init(), acts);
    RunSends(Init(), acts);
  }

  // ---- What is tried again -----------------------------------------------------------------

  /** Attempt `k` was the first of its command. */
  predicate IsFirst(attempts: seq<nat>, k: nat)
    requires k < |attempts|
  {
    k == 0 || attempts[k - 1] != attempts[k]
  }

  /** It was sent and not answered, it was the first, and the queue had room for the command at its front. */
  predicate CallsForRetry(attempts: seq<nat>, endings: seq<Ending>, k: nat)
    requires k < |attempts| && k < |endings|
  {
    endings[k].Unanswered? && endings[k].queued < 12 && IsFirst(attempts, k)
  }

  /** Every attempt but one under way has ended, and all but the last are followed by a retry iff they call for one. */
  predicate RetriesSoFar(attempts: seq<nat>, endings: seq<Ending>, waiting: bool) {
    && |endings| + (if waiting then 1 else 0) == |attempts|
    && forall k | 0 <= k < |attempts| - 1 :: attempts[k + 1] == attempts[k] <==> CallsForRetry(attempts, endings, k)
  }

  /** What the last attempt leaves is in the consumer's hands, or at the head of the queue. */
  predicate RetryKnown(s: Link) {
    && RetriesSoFar(s.attempts, s.endings, s.task.Waiting?)
    && (match s.task
        case Idle => RetryAtHead(s) <==> s.attempts != [] && CallsForRetry(s.attempts, s.endings, |s.attempts| - 1)
        case Sending(c) => c.retriesLeft == 0 <==> s.attempts != [] && CallsForRetry(s.attempts, s.endings, |s.attempts| - 1)
        case Waiting(c) => c.retriesLeft > 0 <==> IsFirst(s.attempts, |s.attempts| - 1))
  }

  /** One more attempt after ended ones. */
  lemma AttemptFollows(attempts: seq<nat>, endings: seq<Ending>, id: nat)
    requires RetriesSoFar(attempts, endings, false)
    requires attempts != [] ==>
               (id == attempts[|attempts| - 1] <==> CallsForRetry(attempts, endings, |attempts| - 1))
    ensures RetriesSoFar(attempts + [id], endings, true)
  {
    forall k | 0 <= k < |attempts|
      ensures (attempts + [id])[k + 1] == (attempts + [id])[k] <==> CallsForRetry(attempts + [id], endings, k)
    {
      assert IsFirst(attempts + [id], k) == IsFirst(attempts, k);
    }
  }

  lemma AttemptEnds(attempts: seq<nat>, endings: seq<Ending>, e: Ending)
    requires RetriesSoFar(attempts, endings, true)
    ensures RetriesSoFar(attempts, endings + [e], false)
  {
    forall k | 0 <= k < |attempts| - 1
      ensures attempts[k + 1] == attempts[k] <==> CallsForRetry(attempts, endings + [e], k)
    {
      assert CallsForRetry(attempts, endings + [e], k) == CallsForRetry(attempts, endings, k);
    }
  }

  /** The command about to be sent is that of the last attempt iff it is a retry. */
  lemma SendsAgainIff(s: Link)
    requires Inv(s) && s.task.Sending? && s.attempts != []
    ensures s.task.command.id == s.attempts[|s.attempts| - 1] <==> s.task.command.retriesLeft == 0
  {
    TransmitShape(s, true);
  }

  lemma TransmitKnown(s: Link, written: bool)
    requires Inv(s) && RetryKnown(s) && s.task.Sending?
    ensures RetryKnown(Step(s, Transmit(written)))
  {
    var t := Step(s, Transmit(written));
    if s.attempts != [] {
      SendsAgainIff(s);
    } else {
      assert Orderly(s.attempts, Attempted(s), RetryPending(s));
    }
    AttemptFollows(s.attempts, s.endings, s.task.command.id);
    if !written {
      AttemptEnds(t.attempts, s.endings, NotSent);
    }
  }

  lemma SettleKnown(s: Link, matched: bool)
    requires Inv(s) && RetryKnown(s) && s.task.Waiting?
    ensures RetryKnown(Step(s, Settle(matched)))
  {
    var t := Step(s, Settle(matched));
    AttemptEnds(s.attempts, s.endings, t.endings[|s.endings|]);
  }

  lemma EnqueueKnown(s: Link, r: Request)
    requires QueueShape(s) && RetryKnown(s)
    ensures RetryKnown(Enqueue(s, r).0)
  {
  }

  lemma StepKnown(s: Link, a: Action)
    requires Inv(s) && RetryKnown(s) && Enabled(s, a)
    ensures RetryKnown(Step(s, a))
  {
    match a
    case Transmit(written) => TransmitKnown(s, written);
    case Settle(matched) => SettleKnown(s, matched);
    case Offer(r) => EnqueueKnown(s, r);
    case ApplyStart(_, _) => KnownFrame(s, Step(s, a));
    case ApplyNext => ApplyKnown(s);
    case Take => TakeKnown(s);
  }

  lemma KnownFrame(s: Link, t: Link)
    requires RetryKnown(s) && t == s.(application := t.application, status := t.status)
    ensures RetryKnown(t)
  {
  }

  lemma ApplyKnown(s: Link)
    requires QueueShape(s) && RetryKnown(s) && s.application.Applying?
    ensures RetryKnown(Step(s, ApplyNext))
  {
    if s.application.rest == [] {
      KnownFrame(s, Step(s, ApplyNext));
    } else {
      EnqueueKnown(s, s.application.rest[0]);
      KnownFrame(Enqueue(s, s.application.rest[0]).0, Step(s, ApplyNext));
    }
  }

  lemma TakeKnown(s: Link)
    requires QueueShape(s) && RetryKnown(s) && s.task.Idle? && s.queue != []
    ensures RetryKnown(Step(s, Take))
  {
  }

  /** An attempt that was answered, or waited for nothing, is over; one that was not puts its command back if it may. */
  lemma SettleTells(s: Link, matched: bool)
    requires s.task.Waiting?
    ensures var c := s.task.command; var t := Step(s, Settle(matched));
      var answered := c.request.reply == "" || matched;
      && t.task.Idle? && !t.busy && |t.endings| == |s.endings| + 1
      && t.endings[|s.endings|] == (if answered then Answered else Unanswered(|s.queue|))
      && (if !answered && c.retriesLeft > 0 && |s.queue| < 12 then
            t.queue == [Command(c.id, c.request, c.retriesLeft - 1)] + s.queue
          else t.queue == s.queue)
      && (answered ==> t.status == Acknowledged) && (!answered && c.retriesLeft == 0 ==> t.status == TimedOut)
  {
  }

  lemma {:induction false} RunKnown(s: Link, acts: seq<Action>)
    requires Inv(s) && RetryKnown(s) && Legal(s, acts)
    ensures RetryKnown(Exec(s, acts))
    decreases |acts|
  {
    if acts == [] {
    } else {
      StepKeeps(s, acts[0]);
      StepKnown(s, acts[0]);
      RunKnown(Step(s, acts[0]), acts[1..]);
    }
  }

  /**
   In every interleaving: an attempt is followed by another one of the same command if and only if it was
   sent, was not answered, was the command's first, and found room in the queue of twelve.
   */
  lemma RetriedIffUnanswered(acts: seq<Action>, k: nat)
    requires Legal(Init(), acts) && k + 1 < |Exec(Init(), acts).attempts|
    ensures var s := Exec(Init(), acts);
      && k < |s.endings|
      && (s.attempts[k + 1] == s.attempts[k] <==>
            s.endings[k].Unanswered? && s.endings[k].queued < 12 && (k == 0 || s.attempts[k - 1] != s.attempts[k]))
  {
    InitInv();
    InitKnown();
    RunKnown(Init(), acts);
    RetriedAt(Exec(Init(), acts), k);
  }

  lemma InitKnown()
    ensures RetryKnown(Init())
  {
  }

  lemma RetriedAt(s: Link, k: nat)
    requires RetryKnown(s) && k + 1 < |s.attempts|
    ensures k < |s.endings|
    ensures s.attempts[k + 1] == s.attempts[k] <==>
              s.endings[k].Unanswered? && s.endings[k].queued < 12 && (k == 0 || s.attempts[k - 1] != s.attempts[k])
  {
  }

  // ---- Progress ----------------------------------------------------------------------------

  /** The transmissions the queue can still cause. */
  function Work(q: seq<Command>): nat {
    if q == [] then 0 else 1 + q[0].retriesLeft + Work(q[1..])
  }

  lemma {:induction false} WorkAppend(q: seq<Command>, c: Command)
    ensures Work(q + [c]) == Work(q) + 1 + c.retriesLeft
  {
    if q == [] {
      assert q + [c] == [c];
    } else {
      WorkAppend(q[1..], c);
      assert (q + [c])[1..] == q[1..] + [c];
    }
  }

  /** Queue work plus the retry the consumer may still put back. */
  function Owed(s: Link): nat {
    Work(s.queue) + if s.task.Idle? then 0 else s.task.command.retriesLeft
  }

  lemma OwedStep(s: Link, a: Action)
    requires Enabled(s, a)
    ensures |Step(s, a).accepted| >= |s.accepted|
    ensures Owed(Step(s, a)) + (if a.Take? then 1 else 0) <= Owed(s) + 2 * (|Step(s, a).accepted| - |s.accepted|)
  {
    match a
    case Offer(r) => WorkAppend(s.queue, Command(|s.accepted|, r, RETRY_COUNT));
    case ApplyNext =>
      if s.application.rest != [] {
        WorkAppend(s.queue, Command(|s.accepted|, s.application.rest[0], RETRY_COUNT));
      }
    case Settle(_) =>
      var c := s.task.command;
      if c.retriesLeft > 0 {
        assert ([c.(retriesLeft := c.retriesLeft - 1)] + s.queue)[1..] == s.queue;
      }
    case _ =>
  }

  function Takes(acts: seq<Action>): nat {
    if acts == [] then 0 else (if acts[0].Take? then 1 else 0) + Takes(acts[1..])
  }

  /**
   Over any stretch of any run, each consumer iteration uses up at least one unit of owed work and
   each accepted command adds two: without new arrivals the consumer takes at most `Owed` commands.
   */
  lemma {:induction false} WorkFalls(s: Link, acts: seq<Action>)
    requires Legal(s, acts)
    ensures |Exec(s, acts).accepted| >= |s.accepted|
    ensures Owed(Exec(s, acts)) + Takes(acts) <= Owed(s) + 2 * (|Exec(s, acts).accepted| - |s.accepted|)
    decreases |acts|
  {
    if acts == [] {
    } else {
      OwedStep(s, acts[0]);
      WorkFalls(Step(s, acts[0]), acts[1..]);
    }
  }

  /** One consumer iteration that starts and ends idle, with no arrivals, strictly lowers the queue's work. */
  lemma IterationLowersWork(s: Link, acts: seq<Action>)
    requires Legal(s, acts) && s.task.Idle? && Exec(s, acts).task.Idle? && Takes(acts) >= 1
    requires Exec(s, acts).accepted == s.accepted
    ensures Work(Exec(s, acts).queue) < Work(s.queue)
  {
    WorkFalls(s, acts);
  }

  // ---- Applying a profile --------------------------------------------------------------------

  datatype Profile = None | DiagnosticsOnly | RoverBasic | RoverRtk | BaseFixed | BaseSurvey

  /** The configuration values a profile formats, already rendered; an absent signal mask is "". */
  datatype Settings = Settings(signalMask: string, agnss: bool, baud: string, nmeaRate: string, rtkTimeout: string,
                               dgpsTimeout: string, constellationMask: string, rtcmOutput: bool, baseRtcmOutput: bool,
                               fixPosition: string, survey: string)

  function Send(command: string, reply: string): Request { Request(command + "\r\n", reply) }

  function Plain(text: string): Request { Request(text + "\r\n", "") }

  function OnOff(on: bool): string { if on then "ON" else "OFF" }

  function ProfileRequests(p: Profile, c: Settings): seq<Request> {
    [Send("UNLOGALL", ""), Send("LOG GPGGA ONTIME 1", "GGA"), Send("LOG GPGSV ONTIME 1", "GSV"),
     Send("LOG BESTNAVA ONTIME 1", "BESTNAVA"), Send("LOG RTKSTATUSA ONCHANGED", "RTKSTATUSA"),
     Send("LOG RTCMSTATUSA ONCHANGED", "RTCMSTATUSA"), Send("LOG AGCA ONCHANGED", "AGCA"),
     Send("LOG HWSTATUSA ONCHANGED", "HWSTATUSA"), Send("LOG JAMSTATUSA ONCHANGED", "JAMSTATUSA"),
     Send("LOG FREQJAMSTATUSA ONCHANGED", "FREQJAMSTATUSA")]
    + (if c.signalMask != "" then [Plain("SIGNALMASK " + c.signalMask)] else [])
    + [Plain("AGNSS " + OnOff(c.agnss)), Plain("SET BAUD " + c.baud), Plain("NMEA RATE " + c.nmeaRate),
       Plain("RTKTIMEOUT " + c.rtkTimeout), Plain("DGPSTIMEOUT " + c.dgpsTimeout),
       Plain("CONSTELLATIONMASK " + c.constellationMask)]
    + ModeRequests(p, c)
    + [Plain("SAVECONFIG")]
  }

  function ModeRequests(p: Profile, c: Settings): seq<Request> {
    match p
    case None => []
    case DiagnosticsOnly => [Plain("RTCMOUTPUT OFF")]
    case RoverBasic => [Plain("MODE ROVER"), Plain("RTCMOUTPUT OFF")]
    case RoverRtk => [Plain("MODE ROVER"), Plain("RTCMOUTPUT " + OnOff(c.rtcmOutput))]
    case BaseFixed =>
      [Plain("MODE BASE"), Plain("FIX POSITION " + if c.fixPosition == "" then "HOLD" else c.fixPosition),
       Plain("RTCMOUTPUT " + OnOff(c.baseRtcmOutput))]
    case BaseSurvey =>
      [Plain("MODE BASE"), Plain("SURVEY START " + c.survey), Plain("RTCMOUTPUT " + OnOff(c.baseRtcmOutput))]
  }

  /** Requests of the running application still to be enqueued. */
  function Remaining(s: Link): nat {
    if s.application.Applying? then |s.application.rest| else 0
  }

  predicate NoRestart(acts: seq<Action>) {
    forall i | 0 <= i < |acts| :: !acts[i].ApplyStart?
  }

  /** One step of the application's accounting. */
  lemma EnqueuedByStep(s: Link, a: Action)
    requires Enabled(s, a) && !a.ApplyStart? && !s.application.ApplyFailed?
    ensures !Step(s, a).application.ApplyFailed? ==>
              |Step(s, a).accepted| - |s.accepted| >= Remaining(s) - Remaining(Step(s, a))
  {
  }

  /** Until it ends, an application that has not failed has put everything else into the queue. */
  lemma {:induction false} EnqueuedSoFar(s: Link, acts: seq<Action>)
    requires Legal(s, acts) && NoRestart(acts)
    requires !s.application.ApplyFailed? && !Exec(s, acts).application.ApplyFailed?
    ensures |Exec(s, acts).accepted| - |s.accepted| >= Remaining(s) - Remaining(Exec(s, acts))
    decreases |acts|
  {
    if acts == [] {
    } else {
      var t := Step(s, acts[0]);
      assert NoRestart(acts[1..]);
      EnqueuedByStep(s, acts[0]);
      if t.application.ApplyFailed? {
        FailureStays(t, acts[1..]);
      } else {
        EnqueuedSoFar(t, acts[1..]);
      }
    }
  }

  lemma {:induction false} FailureStays(s: Link, acts: seq<Action>)
    requires Legal(s, acts) && NoRestart(acts) && s.application.ApplyFailed?
    ensures Exec(s, acts).application.ApplyFailed?
    decreases |acts|
  {
    if acts == [] {
    } else {
      assert NoRestart(acts[1..]);
      FailureStays(Step(s, acts[0]), acts[1..]);
    }
  }

  lemma {:induction false} PutBacksGrow(s: Link, acts: seq<Action>)
    requires Legal(s, acts)
    ensures Exec(s, acts).putBacks >= s.putBacks
    decreases |acts|
  {
    if acts == [] {
    } else {
      PutBacksGrow(Step(s, acts[0]), acts[1..]);
    }
  }

  lemma AtLeastSeventeen(p: Profile, c: Settings)
    ensures |ProfileRequests(p, c)| >= 17
  {
  }

  predicate NoOffers(acts: seq<Action>) {
    forall i | 0 <= i < |acts| :: !acts[i].Offer?
  }

  /** While nobody else enqueues anything, an application that succeeds enqueues its requests, all of them, in order. */
  lemma {:induction false} AppliedEnqueuesAll(s: Link, acts: seq<Action>)
    requires Legal(s, acts) && NoRestart(acts) && NoOffers(acts)
    requires s.application.Applying? && Exec(s, acts).application.Applied?
    ensures Exec(s, acts).accepted == s.accepted + s.application.rest
    decreases |acts|
  {
    if acts == [] {
    } else {
      var t := Step(s, acts[0]);
      assert NoRestart(acts[1..]) && NoOffers(acts[1..]);
      if t.application.ApplyFailed? {
        FailureStays(t, acts[1..]);
      } else if t.application.Applied? {
        NothingMore(t, acts[1..]);
      } else {
        ApplicationStep(s, acts[0]);
        AppliedEnqueuesAll(t, acts[1..]);
      }
    }
  }

  lemma ApplicationStep(s: Link, a: Action)
    requires Enabled(s, a) && !a.ApplyStart? && !a.Offer? && s.application.Applying? && Step(s, a).application.Applying?
    ensures var t := Step(s, a); t.accepted + t.application.rest == s.accepted + s.application.rest
  {
    if a.ApplyNext? {
      var rest := s.application.rest;
      assert rest == [rest[0]] + rest[1..];
    }
  }

  lemma {:induction false} NothingMore(s: Link, acts: seq<Action>)
    requires Legal(s, acts) && NoRestart(acts) && NoOffers(acts) && !s.application.Applying?
    ensures Exec(s, acts).accepted == s.accepted
    decreases |acts|
  {
    if acts == [] {
    } else {
      assert NoRestart(acts[1..]) && NoOffers(acts[1..]);
      NothingMore(Step(s, acts[0]), acts[1..]);
    }
  }

  /** Success with n requests outstanding means the consumer took all but the twelve the queue can hold. */
  lemma DrainedIfApplied(s: Link, during: seq<Action>)
    requires Inv(s) && s.application.Applying? && Legal(s, during) && NoRestart(during)
    requires Exec(s, during).application.Applied?
    ensures Exec(s, during).takes - s.takes >= |s.application.rest| + |s.queue| - QUEUE_LENGTH
  {
    RunKeeps(s, during);
    EnqueuedSoFar(s, during);
    PutBacksGrow(s, during);
  }

  /**
   A profile enqueues at least 17 commands into a queue of 12, so in every interleaving an
   application that reports success saw the consumer take at least five commands meanwhile.
   */
  lemma AppliedOnlyIfDrained(before: seq<Action>, p: Profile, c: Settings, s: Link, during: seq<Action>)
    requires Legal(Init(), before + [ApplyStart(p, c)]) && s == Exec(Init(), before + [ApplyStart(p, c)])
    requires Legal(s, during) && NoRestart(during) && Exec(s, during).application.Applied?
    ensures Exec(s, during).takes - s.takes >= 5 + |s.queue|
  {
    InitInv();
    RunKeeps(Init(), before + [ApplyStart(p, c)]);
    LastStep(Init(), before, ApplyStart(p, c));
    AtLeastSeventeen(p, c);
    DrainedIfApplied(s, during);
  }

  lemma {:induction false} LastStep(s: Link, acts: seq<Action>, a: Action)
    requires Legal(s, acts + [a])
    ensures Legal(s, acts) && Enabled(Exec(s, acts), a) && Exec(s, acts + [a]) == Step(Exec(s, acts), a)
    decreases |acts|
  {
    if acts == [] {
      assert acts + [a] == [a];
      assert Exec(Step(s, a), [a][1..]) == Step(s, a);
    } else {
      assert (acts + [a])[1..] == acts[1..] + [a];
      LastStep(Step(s, acts[0]), acts[1..], a);
    }
  }
}
