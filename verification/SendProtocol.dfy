/** One connection's send queue under concurrency (src/frontier/connection.go): any
    number of goroutines call SendMessage and Close while the write pump drains the
    channel. Every step is one action on the lock, the `closed` flag, the once
    guard or the channel; a blocked goroutine's step changes nothing. */
module SendProtocol {
  import opened RouteModel
  import opened FrontierModel

  datatype Thread =
    | SendWait(msg: Message)    // SendMessage: before RLock
    | SendCheck(msg: Message)   // read-locked, about to test `closed`
    | SendOffer(msg: Message)   // read-locked, found it open, about to try the channel
    | SendUnlock                // read-locked, about to RUnlock
    | CloseEnter                // Close: about to enter the once guard
    | CloseWait                 // inside the guard, before Lock
    | CloseMark                 // write-locked, about to set `closed`
    | CloseChan                 // write-locked, about to close the channel
    | CloseUnlock               // write-locked, about to Unlock
    | CloseNotify               // about to report to the hub and leave the guard

  datatype Once = Fresh | Running(tid: nat) | Finished

  datatype Pump = Receiving | Writing(msg: Message) | Stopped

  datatype Answer = Answer(msg: Message, result: SendResult)

  /** `log` holds the answers SendMessage has decided on, in order; `atClose` is the
      log when `closed` was set. */
  datatype State = State(
    readers: set<nat>, writer: Option<nat>, once: Once,
    closed: bool, chanClosed: bool, panicked: bool,
    queue: seq<Message>, threads: map<nat, Thread>, pump: Pump,
    log: seq<Answer>, atClose: seq<Answer>,
    dequeued: seq<Message>, written: seq<Message>)

  datatype Event =
    | StartSend(tid: nat, msg: Message)
    | StartClose(tid: nat)
    | Run(tid: nat)
    | Receive
    | WriteFrame
    | PumpFails

  const INITIAL := State({}, None, Fresh, false, false, false, [], map[], Receiving, [], [], [], [])

  function Go(s: State, tid: nat, next: Thread): State { s.(threads := s.threads[tid := next]) }

  function End(s: State, tid: nat): State { s.(threads := s.threads - {tid}) }

  /** A non-blocking send on the channel; sending on a closed channel panics. */
  function Offer(s: State, tid: nat, msg: Message): State {
    var s' := Go(s, tid, SendUnlock);
    if s.chanClosed then s'.(panicked := true)
    else if |s.queue| < SEND_CAPACITY then
      s'.(queue := s.queue + [msg], log := s.log + [Answer(msg, Accepted)])
    else s'.(log := s.log + [Answer(msg, SendBufferFull)])
  }

  function RunThread(s: State, tid: nat): State
    requires tid in s.threads
  {
    match s.threads[tid]
    case SendWait(msg) =>
      if s.writer.Some? then s else Go(s, tid, SendCheck(msg)).(readers := s.readers + {tid})
    case SendCheck(msg) =>
      if s.closed then Go(s, tid, SendUnlock).(log := s.log + [Answer(msg, ConnectionClosed)])
      else Go(s, tid, SendOffer(msg))
    case SendOffer(msg) => Offer(s, tid, msg)
    case SendUnlock => End(s, tid).(readers := s.readers - {tid})
    case CloseEnter =>
      (match s.once
       case Fresh => Go(s, tid, CloseWait).(once := Running(tid))
       case Running(_) => s
       case Finished => End(s, tid))
    case CloseWait =>
      if s.writer.Some? || s.readers != {} then s else Go(s, tid, CloseMark).(writer := Some(tid))
    case CloseMark => Go(s, tid, CloseChan).(closed := true, atClose := s.log)
    case CloseChan =>
      Go(s, tid, CloseUnlock).(chanClosed := true, panicked := s.panicked || s.chanClosed)
    case CloseUnlock => Go(s, tid, CloseNotify).(writer := None)
    case CloseNotify => End(s, tid).(once := Finished)
  }

  function Step(s: State, e: Event): State {
    match e
    case StartSend(tid, msg) => if tid in s.threads then s else Go(s, tid, SendWait(msg))
    case StartClose(tid) => if tid in s.threads then s else Go(s, tid, CloseEnter)
    case Run(tid) => if tid in s.threads then RunThread(s, tid) else s
    case Receive =>
      if !s.pump.Receiving? then s
      else if s.queue != [] then
        s.(queue := s.queue[1..], dequeued := s.dequeued + [s.queue[0]], pump := Writing(s.queue[0]))
      else if s.chanClosed then s.(pump := Stopped)
      else s
    case WriteFrame =>
      if s.pump.Writing? then s.(written := s.written + [s.pump.msg], pump := Receiving) else s
    case PumpFails => s.(pump := Stopped)
  }

  function Execute(events: seq<Event>): State {
    if events == [] then INITIAL else Step(Execute(events[..|events| - 1]), events[|events| - 1])
  }

  /** The messages SendMessage accepted, in order. */
  function AcceptedIn(log: seq<Answer>): seq<Message> {
    if log == [] then [] else
    var rest := AcceptedIn(log[..|log| - 1]);
    var last := log[|log| - 1];
    if last.result.Accepted? then rest + [last.msg] else rest
  }

  // ----- the invariant -----

  predicate HoldsRead(t: Thread) { t.SendCheck? || t.SendOffer? || t.SendUnlock? }

  predicate HoldsWrite(t: Thread) { t.CloseMark? || t.CloseChan? || t.CloseUnlock? }

  predicate InGuard(t: Thread) { HoldsWrite(t) || t.CloseWait? || t.CloseNotify? }

  ghost predicate LocksOK(s: State) {
    && (s.writer.Some? ==> s.readers == {})
    && (forall t :: t in s.readers <==> t in s.threads && HoldsRead(s.threads[t]))
    && (forall t :: s.writer == Some(t) <==> t in s.threads && HoldsWrite(s.threads[t]))
    && (forall t :: s.once == Running(t) <==> t in s.threads && InGuard(s.threads[t]))
  }

  /** How far closing has come, by who is inside the guard. */
  ghost predicate ClosingOK(s: State) {
    && !s.panicked
    && (s.chanClosed ==> s.closed)
    && (s.once.Fresh? ==> !s.closed)
    && (s.once.Finished? ==> s.chanClosed)
    && (forall t :: t in s.threads ==> ThreadOK(s, s.threads[t]))
  }

  ghost predicate ThreadOK(s: State, t: Thread) {
    && (t.SendOffer? || t.CloseWait? || t.CloseMark? ==> !s.closed)
    && (t.CloseChan? ==> s.closed && !s.chanClosed)
    && (t.CloseUnlock? || t.CloseNotify? ==> s.chanClosed)
  }

  /** After closing nothing more is accepted: later answers are all rejections. */
  ghost predicate QueueOK(s: State) {
    && |s.queue| <= SEND_CAPACITY
    && AcceptedIn(s.log) == s.dequeued + s.queue
    && (s.closed ==> AcceptedIn(s.log) == AcceptedIn(s.atClose))
  }

  ghost predicate PumpOK(s: State) {
    && s.written <= s.dequeued && |s.dequeued| <= |s.written| + 1
    && (s.pump.Receiving? ==> s.dequeued == s.written)
    && (s.pump.Writing? ==> s.dequeued == s.written + [s.pump.msg])
  }

  ghost predicate Inv(s: State) { LocksOK(s) && ClosingOK(s) && QueueOK(s) && PumpOK(s) }

  lemma LoggedAnswer(log: seq<Answer>, msg: Message, result: SendResult)
    ensures AcceptedIn(log + [Answer(msg, result)]) ==
            if result.Accepted? then AcceptedIn(log) + [msg] else AcceptedIn(log)
  {
    assert (log + [Answer(msg, result)])[..|log|] == log;
  }

  lemma SendLockKeeps(s: State, tid: nat)
    requires Inv(s) && tid in s.threads && (s.threads[tid].SendWait? || s.threads[tid].SendUnlock?)
    ensures Inv(RunThread(s, tid))
  {
  }

  lemma SendCheckKeeps(s: State, tid: nat)
    requires Inv(s) && tid in s.threads && s.threads[tid].SendCheck?
    ensures Inv(RunThread(s, tid))
  {
    LoggedAnswer(s.log, s.threads[tid].msg, ConnectionClosed);
  }

  lemma SendOfferKeeps(s: State, tid: nat)
    requires Inv(s) && tid in s.threads && s.threads[tid].SendOffer?
    ensures Inv(RunThread(s, tid))
  {
    var msg := s.threads[tid].msg;
    assert ThreadOK(s, s.threads[tid]);
    LoggedAnswer(s.log, msg, Accepted);
    LoggedAnswer(s.log, msg, SendBufferFull);
  }

  lemma SendKeeps(s: State, tid: nat)
    requires Inv(s) && tid in s.threads && !InGuard(s.threads[tid]) && !s.threads[tid].CloseEnter?
    ensures Inv(RunThread(s, tid))
  {
    match s.threads[tid]
    case SendWait(_) => SendLockKeeps(s, tid);
    case SendCheck(_) => SendCheckKeeps(s, tid);
    case SendOffer(_) => SendOfferKeeps(s, tid);
    case SendUnlock => SendLockKeeps(s, tid);
  }

  lemma CloseKeeps(s: State, tid: nat)
    requires Inv(s) && tid in s.threads && (InGuard(s.threads[tid]) || s.threads[tid].CloseEnter?)
    ensures Inv(RunThread(s, tid))
  {
    var s' := RunThread(s, tid);
    assert ThreadOK(s, s.threads[tid]);
    forall t | t in s'.threads ensures ThreadOK(s', s'.threads[t]) {
      if t != tid {
        assert ThreadOK(s, s.threads[t]);
        assert HoldsRead(s.threads[t]) ==> t in s.readers;
      }
    }
  }

  lemma StepKeeps(s: State, e: Event)
    requires Inv(s)
    ensures Inv(Step(s, e))
  {
    match e
    case StartSend(tid, msg) =>
    case StartClose(tid) =>
    case Run(tid) =>
      if tid in s.threads {
        if InGuard(s.threads[tid]) || s.threads[tid].CloseEnter? { CloseKeeps(s, tid); } else { SendKeeps(s, tid); }
      }
    case Receive =>
      if s.queue != [] { assert s.dequeued + s.queue == s.dequeued + [s.queue[0]] + s.queue[1..]; }
    case WriteFrame =>
    case PumpFails =>
  }

  lemma {:induction false} ExecuteKeeps(events: seq<Event>)
    ensures Inv(Execute(events))
  {
    if events != [] {
      ExecuteKeeps(events[..|events| - 1]);
      StepKeeps(Execute(events[..|events| - 1]), events[|events| - 1]);
    }
  }

  // ----- what it means -----

  /** In every interleaving: no send hits a closed channel and the channel is closed
      at most once (either would panic), the queue stays within its capacity, and
      nothing is accepted once `closed` is set. */
  lemma CloseSendSafe(events: seq<Event>)
    ensures var s := Execute(events);
            && !s.panicked
            && |s.queue| <= SEND_CAPACITY
            && (s.closed ==> AcceptedIn(s.log) == AcceptedIn(s.atClose))
  {
    ExecuteKeeps(events);
  }

  /** In every interleaving the accepted messages are those dequeued so far followed
      by the queue, in order, and the frames written are a prefix of the dequeued
      messages, at most one behind. */
  lemma FifoConservation(events: seq<Event>)
    ensures var s := Execute(events);
            && AcceptedIn(s.log) == s.dequeued + s.queue
            && s.written <= s.dequeued && |s.dequeued| <= |s.written| + 1
  {
    ExecuteKeeps(events);
  }

  /** A closed connection's pump, left alone, hands out every accepted message: while
      any is queued it is not told that the channel is closed. */
  lemma PumpDrainsBeforeStopping(events: seq<Event>)
    ensures var s := Execute(events);
            Step(s, Receive).pump.Stopped? && !s.pump.Stopped? ==>
            s.closed && s.dequeued == AcceptedIn(s.log) && s.written == s.dequeued
  {
    ExecuteKeeps(events);
  }

  /** Once the guard is entered no second closer gets in, in any interleaving. */
  lemma OneCloser(events: seq<Event>, a: nat, b: nat)
    requires var s := Execute(events);
             a in s.threads && b in s.threads && InGuard(s.threads[a]) && InGuard(s.threads[b])
    ensures a == b
  {
    ExecuteKeeps(events);
    assert Execute(events).once == Running(a) && Execute(events).once == Running(b);
  }

  /** A send that meets no closer in its way is the atomic send. */
  lemma SoloSend(s: State, tid: nat, msg: Message, c: ConnState)
    requires Inv(s) && tid !in s.threads && s.writer.None?
    requires c.queue == s.queue && c.closed == s.closed
    ensures var s4 := Step(Step(Step(Step(Step(s, StartSend(tid, msg)), Run(tid)), Run(tid)), Run(tid)), Run(tid));
            && s4.queue == FrontierModel.Send(c, msg).queue
            && s4.log == s.log + [Answer(msg, Verdict(c))]
            && s4.closed == s.closed
            && !s4.panicked
  {
    assert s.once.Running? ==> s.once.tid in s.threads && ThreadOK(s, s.threads[s.once.tid]);
    var s1 := Step(s, StartSend(tid, msg));
    var s2 := Step(s1, Run(tid));
    var s3 := Step(s2, Run(tid));
    assert s2.threads[tid] == SendCheck(msg);
    if s.closed {
      assert s3.threads[tid] == SendUnlock;
    } else {
      assert s3.threads[tid] == SendOffer(msg);
    }
  }
}
