/**
 The single-producer single-consumer ring of sync_queue.hpp, load by load and store by store.
 An acquire load of the other side's index may lag: it returns any value that index had since the last
 one seen. An item is identified by its position in the stream of accepted pushes.
 */
module SyncQueueSteps {
  import opened Modular

  /** Where the producer stands inside push. */
  datatype Producer<T> =
    | Idle
    | TailLoaded(value: T, tail: nat)
    // headCount: how many items had been released when the loaded head was stored; freed: at the load itself
    | HeadLoaded(value: T, tail: nat, head: nat, headCount: nat, freed: nat)
    | Writing(value: T, tail: nat)
    | Written(value: T, tail: nat)
    | Published
    | SizeHeadLoaded(head: nat, headCount: nat)

  /** Where the consumer stands inside pop, popWait or popBatch. */
  datatype Consumer<T> =
    | Idle
    | Polling(max: nat, head: nat)
    | Checking(max: nat, head: nat, tail: nat, tailCount: nat)
    | Armed(max: nat)
    | Measuring(max: nat, head: nat)
    | Reading(head: nat, count: int, tailCount: nat, batch: seq<T>)
    | Finishing(head: nat, count: int, batch: seq<T>)

  datatype State<T> = State(
    buffer: seq<T>, head: nat, tail: nat,
    producer: Producer<T>, consumer: Consumer<T>,
    // history: all accepted pushes, how many were published, all delivered items, and the newest counts seen across
    accepted: seq<T>, delivered: seq<T>, seenHead: nat, seenTail: nat)
  {
    function Capacity(): nat { |buffer| }
    function Released(): nat { |delivered| }
    function Pushed(): nat { |accepted| }
    function Held(): int { Pushed() - Released() }
  }

  datatype Step<T> =
    | PushBegin(value: T)
    | PushLoadHead(count: nat)
    | PushRefuse
    | PushStartWrite
    | PushEndWrite
    | PushPublish
    | SizeLoadHead(count: nat)
    | SizeReturn
    | PopBegin(max: nat)
    | PollTail(count: nat)
    | PollAgain
    | PopGiveUp
    | PopTakeOne
    | PopProceed
    | PopLoadHead
    | PopLoadTail(count: nat)
    | PopRead
    | PopStopReading
    | PopPublish

  /** size() and popBatch measure the stretch from head to tail around the ring. */
  function Stretch(head: nat, tail: nat, capacity: nat): int {
    if tail >= head then tail - head else capacity - head + tail
  }

  predicate Enabled<T>(s: State<T>, step: Step<T>)
    requires s.Capacity() > 0
  {
    match step
    case PushBegin(_) => s.producer.Idle?
    case PushLoadHead(c) => s.producer.TailLoaded? && s.seenHead <= c <= s.Released()
    case PushRefuse => s.producer.HeadLoaded? && (s.producer.tail + 1) % s.Capacity() == s.producer.head
    case PushStartWrite => s.producer.HeadLoaded? && (s.producer.tail + 1) % s.Capacity() != s.producer.head
    case PushEndWrite => s.producer.Writing? && s.producer.tail < s.Capacity()
    case PushPublish => s.producer.Written?
    case SizeLoadHead(c) => s.producer.Published? && s.seenHead <= c <= s.Released()
    case SizeReturn => s.producer.SizeHeadLoaded?
    case PopBegin(_) => s.consumer.Idle?
    case PollTail(c) => s.consumer.Polling? && s.seenTail <= c <= s.Pushed()
    case PollAgain => s.consumer.Checking? && s.consumer.head == s.consumer.tail
    case PopGiveUp => s.consumer.Checking? && s.consumer.head == s.consumer.tail
    case PopTakeOne => s.consumer.Checking? && s.consumer.head != s.consumer.tail
    case PopProceed => s.consumer.Checking? && s.consumer.head != s.consumer.tail
    case PopLoadHead => s.consumer.Armed?
    case PopLoadTail(c) => s.consumer.Measuring? && s.seenTail <= c <= s.Pushed()
    case PopRead => s.consumer.Reading? && |s.consumer.batch| < s.consumer.count
    case PopStopReading => s.consumer.Reading? && |s.consumer.batch| >= s.consumer.count
    case PopPublish => s.consumer.Finishing? && s.consumer.count >= 0
  }

  function Do<T>(s: State<T>, step: Step<T>): State<T>
    requires s.Capacity() > 0 && Enabled(s, step)
  {
    var n := s.Capacity();
    match step
    case PushBegin(v) => s.(producer := TailLoaded(v, s.tail))
    case PushLoadHead(c) =>
      s.(producer := HeadLoaded(s.producer.value, s.producer.tail, Slot(c, n), c, s.Released()), seenHead := c)
    case PushRefuse => s.(producer := Producer.Idle)
    case PushStartWrite => s.(producer := Writing(s.producer.value, s.producer.tail))
    case PushEndWrite =>
      s.(buffer := s.buffer[s.producer.tail := s.producer.value],
         producer := Written(s.producer.value, s.producer.tail))
    case PushPublish =>
      s.(tail := (s.producer.tail + 1) % n, accepted := s.accepted + [s.producer.value], producer := Published)
    case SizeLoadHead(c) => s.(producer := SizeHeadLoaded(Slot(c, n), c), seenHead := c)
    case SizeReturn => s.(producer := Producer.Idle)
    case PopBegin(max) => s.(consumer := Polling(max, s.head))
    case PollTail(c) => s.(consumer := Checking(s.consumer.max, s.consumer.head, Slot(c, n), c), seenTail := c)
    case PollAgain => s.(consumer := Polling(s.consumer.max, s.head))
    case PopGiveUp => s.(consumer := Consumer.Idle)
    case PopTakeOne => s.(consumer := Reading(s.consumer.head, 1, s.consumer.tailCount, []))
    case PopProceed => s.(consumer := Armed(s.consumer.max))
    case PopLoadHead => s.(consumer := Measuring(s.consumer.max, s.head))
    case PopLoadTail(c) =>
      var available := Stretch(s.consumer.head, Slot(c, n), n);
      var count := if s.consumer.max < available then s.consumer.max else available;
      s.(consumer := Reading(s.consumer.head, count, c, []), seenTail := c)
    case PopRead =>
      var item := s.buffer[(s.consumer.head + |s.consumer.batch|) % n];
      s.(consumer := Reading(s.consumer.head, s.consumer.count, s.consumer.tailCount, s.consumer.batch + [item]))
    case PopStopReading => s.(consumer := Finishing(s.consumer.head, s.consumer.count, s.consumer.batch))
    case PopPublish =>
      s.(head := (s.consumer.head + s.consumer.count) % n, delivered := s.delivered + s.consumer.batch,
         consumer := Consumer.Idle)
  }

  ghost predicate Initial<T>(s: State<T>) {
    && s.Capacity() > 0 && s.head == s.tail == 0 && s.producer.Idle? && s.consumer.Idle?
    && s.accepted == [] && s.delivered == [] && s.seenHead == s.seenTail == 0
  }

  // ---------- the invariant ----------

  /** Delivered items followed by the queue contents are the accepted pushes, in order. */
  ghost predicate InOrder<T>(s: State<T>)
    requires s.Capacity() > 0
  {
    && s.Released() <= s.Pushed()
    && s.Held() < s.Capacity()
    && s.delivered == s.accepted[..s.Released()]
    && s.head == Slot(s.Released(), s.Capacity()) && s.tail == Slot(s.Pushed(), s.Capacity())
    && forall k | s.Released() <= k < s.Pushed() :: s.buffer[Slot(k, s.Capacity())] == s.accepted[k]
  }

  ghost predicate ProducerOk<T>(s: State<T>)
    requires s.Capacity() > 0
  {
    match s.producer
    case Idle => true
    case TailLoaded(_, t) => t == s.tail
    case HeadLoaded(_, t, h, hc, freed) => t == s.tail && h == Slot(hc, s.Capacity()) && hc == s.seenHead
         && hc <= freed <= s.Released()
    case Writing(_, t) => t == s.tail && s.Pushed() + 1 - s.seenHead < s.Capacity()
    case Written(v, t) => t == s.tail < s.Capacity() && s.Pushed() + 1 - s.seenHead < s.Capacity() && s.buffer[t] == v
    case Published => true
    case SizeHeadLoaded(h, hc) => h == Slot(hc, s.Capacity()) && hc == s.seenHead
  }

  ghost predicate ConsumerOk<T>(s: State<T>)
    requires s.Capacity() > 0
  {
    match s.consumer
    case Polling(_, h) => h == s.head
    case Checking(_, h, t, tc) => h == s.head && t == Slot(tc, s.Capacity()) && s.Released() <= tc <= s.seenTail
    case Measuring(_, h) => h == s.head
    case Reading(h, count, tc, batch) =>
      && h == s.head && |batch| <= count && s.Released() + count <= tc <= s.seenTail
      && s.seenTail <= s.Pushed() && batch == s.accepted[s.Released()..s.Released() + |batch|]
    case Finishing(h, count, batch) =>
      && h == s.head && |batch| == count && s.Released() + count <= s.seenTail <= s.Pushed()
      && batch == s.accepted[s.Released()..s.Released() + count]
    case _ => true
  }

  ghost predicate Inv<T>(s: State<T>) {
    && s.Capacity() > 0 && InOrder(s) && ProducerOk(s) && ConsumerOk(s)
    // the producer has seen a head recent enough that the ring was never overfull against it
    && s.seenHead <= s.Released() && s.seenTail <= s.Pushed()
    && s.Pushed() - s.seenHead < s.Capacity()
    && s.Released() <= s.seenTail
  }

  lemma InitialInv<T>(s: State<T>)
    requires Initial(s)
    ensures Inv(s)
  {
  }

  /** Indices that agree mean an empty stretch or, for the producer's test, a full one. */
  lemma SlotEquality(a: nat, b: nat, n: nat)
    requires n > 0 && a <= b < a + n
    ensures Slot(a, n) == Slot(b, n) <==> a == b
  {
    if a < b {
      SlotsDistinct(a, b, n);
    }
  }

  lemma FullTest(released: nat, pushed: nat, n: nat)
    requires n > 0 && released <= pushed < released + n
    ensures (Slot(pushed, n) + 1) % n == Slot(released, n) <==> pushed - released == n - 1
  {
    SlotNext(pushed, n);
    if pushed - released == n - 1 {
      assert pushed + 1 == released + n;
      SlotPlus(released, n, n);
      ModOnce(Slot(released, n) + n, n);
    } else {
      SlotEquality(released, pushed + 1, n);
    }
  }

  /** The measured stretch is the number of items between the two counts. */
  lemma StretchIsCount(released: nat, pushed: nat, n: nat)
    requires n > 0 && released <= pushed < released + n
    ensures Stretch(Slot(released, n), Slot(pushed, n), n) == pushed - released
  {
    var d := pushed - released;
    SlotPlus(released, d, n);
    ModOnce(Slot(released, n) + d, n);
  }

  lemma WriteKeepsHeld<T>(s: State<T>)
    requires s.Capacity() > 0 && InOrder(s) && s.Held() + 1 < s.Capacity()
    ensures forall k | s.Released() <= k < s.Pushed() :: Slot(k, s.Capacity()) != s.tail
  {
    forall k | s.Released() <= k < s.Pushed()
      ensures Slot(k, s.Capacity()) != s.tail
    {
      SlotsDistinct(k, s.Pushed(), s.Capacity());
    }
  }

  predicate ByProducer<T>(step: Step<T>) {
    || step.PushBegin? || step.PushLoadHead? || step.PushRefuse? || step.PushStartWrite?
    || step.PushEndWrite? || step.PushPublish? || step.SizeLoadHead? || step.SizeReturn?
  }

  lemma EndWriteStep<T>(s: State<T>)
    requires Inv(s) && Enabled(s, PushEndWrite)
    ensures Inv(Do(s, PushEndWrite))
  {
    hide Slot, Stretch;
    WriteKeepsHeld(s);
  }

  lemma PublishStep<T>(s: State<T>)
    requires Inv(s) && Enabled(s, PushPublish)
    ensures Inv(Do(s, PushPublish))
  {
    hide Slot, Stretch;
    var s' := Do(s, PushPublish);
    SlotNext(s.Pushed(), s.Capacity());
    assert s'.accepted[..s'.Released()] == s.accepted[..s.Released()];
    assert InOrder(s');
    assert ConsumerOk(s') by {
      if s.consumer.Reading? || s.consumer.Finishing? {
        var m := s.Released() + |s.consumer.batch|;
        assert s'.accepted[s.Released()..m] == s.accepted[s.Released()..m];
      }
    }
  }

  /** A step that writes neither the buffer nor an index nor the history keeps the order. */
  lemma OrderUntouched<T>(s: State<T>, s': State<T>)
    requires s.Capacity() > 0 && InOrder(s)
    requires s' == s.(producer := s'.producer, consumer := s'.consumer,
                      seenHead := s'.seenHead, seenTail := s'.seenTail)
    ensures InOrder(s')
  {
  }

  lemma StartWriteStep<T>(s: State<T>)
    requires Inv(s) && Enabled(s, PushStartWrite)
    ensures Inv(Do(s, PushStartWrite))
  {
    FullTest(s.producer.headCount, s.Pushed(), s.Capacity());
    OrderUntouched(s, Do(s, PushStartWrite));
    hide Slot, Stretch, InOrder;
    assert ConsumerOk(Do(s, PushStartWrite));
  }

  lemma LoadHeadStep<T>(s: State<T>, step: Step<T>)
    requires Inv(s) && Enabled(s, step) && (step.PushLoadHead? || step.SizeLoadHead?)
    ensures Inv(Do(s, step))
  {
    OrderUntouched(s, Do(s, step));
    hide Slot, Stretch, InOrder;
    assert ConsumerOk(Do(s, step));
  }

  lemma OtherProducerStep<T>(s: State<T>, step: Step<T>)
    requires Inv(s) && Enabled(s, step) && (step.PushBegin? || step.PushRefuse? || step.SizeReturn?)
    ensures Inv(Do(s, step))
  {
    OrderUntouched(s, Do(s, step));
    hide Slot, Stretch, InOrder;
    assert ConsumerOk(Do(s, step));
  }

  lemma ProducerStep<T>(s: State<T>, step: Step<T>)
    requires Inv(s) && Enabled(s, step) && ByProducer(step)
    ensures Inv(Do(s, step))
  {
    hide Inv, Do, Enabled;
    match step {
      case PushEndWrite => EndWriteStep(s);
      case PushPublish => PublishStep(s);
      case PushStartWrite => StartWriteStep(s);
      case PushLoadHead(_) => LoadHeadStep(s, step);
      case SizeLoadHead(_) => LoadHeadStep(s, step);
      case _ => OtherProducerStep(s, step);
    }
  }

  lemma ReadStep<T>(s: State<T>)
    requires Inv(s) && Enabled(s, PopRead)
    ensures Inv(Do(s, PopRead))
  {
    hide Slot, Stretch;
    var k := |s.consumer.batch|;
    SlotPlus(s.Released(), k, s.Capacity());
    var s' := Do(s, PopRead);
    assert s'.consumer.batch[k] == s.buffer[Slot(s.Released() + k, s.Capacity())] == s.accepted[s.Released() + k];
    assert InOrder(s');
    assert s.accepted[s.Released()..s.Released() + k + 1]
           == s.accepted[s.Released()..s.Released() + k] + [s.accepted[s.Released() + k]];
  }

  lemma ReleaseStep<T>(s: State<T>)
    requires Inv(s) && Enabled(s, PopPublish)
    ensures Inv(Do(s, PopPublish))
  {
    hide Slot, Stretch;
    var s' := Do(s, PopPublish);
    SlotPlus(s.Released(), s.consumer.count, s.Capacity());
    assert s'.Released() == s.Released() + s.consumer.count;
    assert s.accepted[..s'.Released()] == s.accepted[..s.Released()] + s.accepted[s.Released()..s'.Released()];
    assert InOrder(s');
  }

  lemma LoadTailStep<T>(s: State<T>, step: Step<T>)
    requires Inv(s) && Enabled(s, step) && (step.PollTail? || step.PopLoadTail?)
    ensures Inv(Do(s, step))
  {
    if step.PopLoadTail? {
      StretchIsCount(s.Released(), step.count, s.Capacity());
    }
    OrderUntouched(s, Do(s, step));
    hide Slot, Stretch, InOrder;
    assert ProducerOk(Do(s, step));
  }

  lemma OtherConsumerStep<T>(s: State<T>, step: Step<T>)
    requires Inv(s) && Enabled(s, step) && !ByProducer(step)
    requires !step.PopRead? && !step.PopPublish? && !step.PollTail? && !step.PopLoadTail?
    ensures Inv(Do(s, step))
  {
    OrderUntouched(s, Do(s, step));
    hide Slot, Stretch, InOrder;
    assert ProducerOk(Do(s, step));
  }

  lemma ConsumerStep<T>(s: State<T>, step: Step<T>)
    requires Inv(s) && Enabled(s, step) && !ByProducer(step)
    ensures Inv(Do(s, step))
  {
    hide Inv, Do, Enabled;
    match step {
      case PopRead => ReadStep(s);
      case PopPublish => ReleaseStep(s);
      case PollTail(_) => LoadTailStep(s, step);
      case PopLoadTail(_) => LoadTailStep(s, step);
      case _ => OtherConsumerStep(s, step);
    }
  }

  // ---------- runs ----------

  ghost predicate Run<T>(states: seq<State<T>>, steps: seq<Step<T>>) {
    && |states| == |steps| + 1 && Initial(states[0])
    && forall i | 0 <= i < |steps| ::
         states[i].Capacity() > 0 && Enabled(states[i], steps[i]) && states[i + 1] == Do(states[i], steps[i])
  }

  lemma {:induction false} RunKeepsInv<T>(states: seq<State<T>>, steps: seq<Step<T>>, i: nat)
    requires Run(states, steps) && i < |states|
    ensures Inv(states[i])
    decreases i
  {
    if i == 0 {
      InitialInv(states[0]);
    } else {
      RunKeepsInv(states, steps, i - 1);
      var s, step := states[i - 1], steps[i - 1];
      assert states[i - 1 + 1] == Do(s, step);
      if ByProducer(step) {
        ProducerStep(s, step);
      } else {
        ConsumerStep(s, step);
      }
    }
  }

  /** What the queue holds, oldest first. */
  ghost function Contents<T>(s: State<T>): seq<T>
    requires s.Capacity() > 0 && s.Released() <= s.Pushed()
  {
    seq(s.Held(), i requires 0 <= i < s.Held() => s.buffer[Slot(s.Released() + i, s.Capacity())])
  }

  /** In every interleaving, what was delivered followed by what is held is what was accepted, in order. */
  lemma DeliveredThenHeldIsAccepted<T>(states: seq<State<T>>, steps: seq<Step<T>>, i: nat)
    requires Run(states, steps) && i < |states|
    ensures var s := states[i];
            && s.Capacity() > 0 && s.Released() <= s.Pushed() && s.Held() <= s.Capacity() - 1
            && s.delivered + Contents(s) == s.accepted
  {
    RunKeepsInv(states, steps, i);
    var s := states[i];
    var c := Contents(s);
    forall k | 0 <= k < s.Held()
      ensures c[k] == s.accepted[s.Released() + k]
    {
      var j := s.Released() + k;
      assert s.buffer[Slot(j, s.Capacity())] == s.accepted[j];
    }
    assert c == s.accepted[s.Released()..];
  }

  /** The slot the consumer is about to read. */
  function ReadSlot<T>(s: State<T>): nat
    requires s.Capacity() > 0 && s.consumer.Reading?
  {
    (s.consumer.head + |s.consumer.batch|) % s.Capacity()
  }

  /** In every interleaving, no slot is read while it is being written. */
  lemma NoSlotReadWhileWritten<T>(states: seq<State<T>>, steps: seq<Step<T>>, i: nat)
    requires Run(states, steps) && i < |states|
    requires states[i].Capacity() > 0 && states[i].producer.Writing?
    requires states[i].consumer.Reading? && |states[i].consumer.batch| < states[i].consumer.count
    ensures ReadSlot(states[i]) != states[i].producer.tail
  {
    RunKeepsInv(states, steps, i);
    var s := states[i];
    var k := s.Released() + |s.consumer.batch|;
    SlotPlus(s.Released(), |s.consumer.batch|, s.Capacity());
    SlotsDistinct(k, s.Pushed(), s.Capacity());
  }

  /**
   A push is refused exactly when, measured against the head it loaded, the ring held Capacity - 1 items;
   with an up-to-date load that is the number of items held at the load.
   */
  lemma RefusedExactlyWhenFull<T>(states: seq<State<T>>, steps: seq<Step<T>>, i: nat)
    requires Run(states, steps) && i < |states|
    requires states[i].producer.HeadLoaded?
    ensures var s := states[i];
            && s.Capacity() > 0
            && (Enabled(s, PushRefuse) <==> s.Pushed() - s.producer.headCount == s.Capacity() - 1)
            && (s.producer.headCount == s.producer.freed ==>
                  (Enabled(s, PushRefuse) <==> s.Pushed() - s.producer.freed == s.Capacity() - 1))
            && !(Enabled(s, PushRefuse) && Enabled(s, PushStartWrite))
  {
    RunKeepsInv(states, steps, i);
    var s := states[i];
    FullTest(s.producer.headCount, s.Pushed(), s.Capacity());
  }

  /** A batch fixes its size when it loads the tail: min(max, available), available being what that load saw. */
  lemma BatchTakesNextItems<T>(states: seq<State<T>>, steps: seq<Step<T>>, i: nat)
    requires Run(states, steps) && i < |steps| && steps[i].PopLoadTail?
    ensures var s, s' := states[i], states[i + 1];
            var available := steps[i].count - s.Released();
            && 0 <= available
            && s'.consumer.Reading?
            && s'.consumer.count == (if s.consumer.max < available then s.consumer.max else available)
  {
    RunKeepsInv(states, steps, i);
    var s := states[i];
    StretchIsCount(s.Released(), steps[i].count, s.Capacity());
  }

  /** When it finishes, exactly those items have been appended to the delivered ones. */
  lemma BatchDelivers<T>(states: seq<State<T>>, steps: seq<Step<T>>, i: nat)
    requires Run(states, steps) && i < |steps| && steps[i].PopPublish?
    ensures var s, s' := states[i], states[i + 1];
            && s.consumer.Finishing? && 0 <= s.consumer.count && s.Released() + s.consumer.count <= |s.accepted|
            && s'.delivered == s.delivered + s.accepted[s.Released()..s.Released() + s.consumer.count]
            && s'.Held() == s.Held() - s.consumer.count
  {
    RunKeepsInv(states, steps, i);
  }

  /** Between its tail load and its publication a batch keeps the size it fixed, and delivers nothing. */
  lemma {:induction false} BatchUnderway<T>(states: seq<State<T>>, steps: seq<Step<T>>, i: nat, h: nat)
    requires Run(states, steps) && i < h < |states| && steps[i].PopLoadTail?
    requires forall k | i < k < h :: !steps[k].PopPublish?
    ensures var c := states[h].consumer;
            (c.Reading? || c.Finishing?) && c.count == states[i + 1].consumer.count
    ensures states[h].delivered == states[i].delivered
    decreases h
  {
    var s, step := states[h - 1], steps[h - 1];
    assert s.Capacity() > 0 && Enabled(s, step) && states[h - 1 + 1] == Do(s, step);
    hide Slot, Stretch;
    if h > i + 1 {
      BatchUnderway(states, steps, i, h - 1);
    }
  }

  /**
   The batch as a whole, with the producer free to push meanwhile: what it publishes are exactly the min(max, available)
   items in push order that follow what had been delivered when it loaded the tail.
   */
  lemma BatchDeliversNextItems<T>(states: seq<State<T>>, steps: seq<Step<T>>, i: nat, j: nat)
    requires Run(states, steps) && i < j < |steps| && steps[i].PopLoadTail? && steps[j].PopPublish?
    requires forall k | i < k < j :: !steps[k].PopPublish?
    ensures var s, released := states[i], states[i].Released();
            var available := steps[i].count - released;
            && states[i].consumer.Measuring? && 0 <= available
            && var count := if s.consumer.max < available then s.consumer.max else available;
               && released + count <= |states[j].accepted|
               && states[j + 1].delivered == s.delivered + states[j].accepted[released..released + count]
  {
    BatchTakesNextItems(states, steps, i);
    BatchUnderway(states, steps, i, j);
    BatchDelivers(states, steps, j);
    assert Enabled(states[i], steps[i]) by { assert states[i].Capacity() > 0; }
    hide Slot, Stretch, Do;
  }

  /** size() after a push lies between what is held now and Capacity - 1. */
  lemma SizeIsBetween<T>(states: seq<State<T>>, steps: seq<Step<T>>, i: nat)
    requires Run(states, steps) && i < |states| && states[i].producer.SizeHeadLoaded?
    ensures var s := states[i];
            && s.Held() <= Stretch(s.producer.head, s.tail, s.Capacity()) <= s.Capacity() - 1
            && Stretch(s.producer.head, s.tail, s.Capacity()) == s.Pushed() - s.producer.headCount
  {
    RunKeepsInv(states, steps, i);
    var s := states[i];
    StretchIsCount(s.producer.headCount, s.Pushed(), s.Capacity());
  }
}

/** The same ring called from one thread: each call against the sequence it holds. */
module SyncQueueCalls {
  import opened Modular
  import opened Options
  import Steps = SyncQueueSteps

  class SyncQueue<T(0)> {
    const buffer: array<T>
    var head: nat
    var tail: nat

    ghost predicate Valid()
      reads this
    {
      buffer.Length > 0 && head < buffer.Length && tail < buffer.Length
    }

    function Size(): (n: nat)
      requires Valid()
      reads this
      ensures n < buffer.Length && (head + n == tail || head + n == tail + buffer.Length)
    {
      Steps.Stretch(head, tail, buffer.Length)
    }

    ghost function Contents(): (s: seq<T>)
      requires Valid()
      reads this, buffer
      ensures |s| == Size()
    {
      Around(buffer[..], head, Size())
    }

    constructor (capacity: nat)
      requires capacity > 0
      ensures Valid() && Contents() == [] && buffer.Length == capacity && fresh(buffer)
    {
      buffer := new T[capacity];
      head, tail := 0, 0;
    }

    /** The new size, or None when the ring already holds Capacity - 1 items. */
    method Push(value: T) returns (size: Option<nat>)
      requires Valid()
      modifies this`tail, buffer
      ensures Valid()
      ensures size.None? <==> |old(Contents())| == buffer.Length - 1
      ensures Contents() == if size.Some? then old(Contents()) + [value] else old(Contents())
      ensures size.Some? ==> size.value == |Contents()|
    {
      var nextTail := (tail + 1) % buffer.Length;
      ModOnce(tail + 1, buffer.Length);
      if nextTail == head {
        return None;
      }
      ghost var before := Contents();
      buffer[tail] := value;
      tail := nextTail;
      assert Size() == |before| + 1;
      assert Contents()[..|before|] == before;
      return Some(Size());
    }

    /** The oldest item, or None where the source returns a default value. */
    method Pop() returns (value: Option<T>)
      requires Valid()
      modifies this`head
      ensures Valid()
      ensures value.None? <==> old(Contents()) == []
      ensures value.Some? ==> [value.value] + Contents() == old(Contents())
      ensures value.None? ==> Contents() == []
    {
      if head == tail {
        return None;
      }
      ghost var before := Contents();
      value := Some(buffer[head]);
      ModOnce(head + 1, buffer.Length);
      head := (head + 1) % buffer.Length;
      assert Size() == |before| - 1;
      assert Contents() == before[1..];
    }

    /** min(max, size) items at once: exactly what that many pops would return. */
    method PopBatch(max: nat) returns (batch: seq<T>)
      requires Valid()
      modifies this`head
      ensures Valid()
      ensures |batch| == if max < |old(Contents())| then max else |old(Contents())|
      ensures batch + Contents() == old(Contents())
    {
      batch := [];
      if head == tail {
        return;
      }
      ghost var before := Contents();
      var available := Size();
      var count := if max < available then max else available;
      for i := 0 to count
        invariant head == old(head) && batch == before[..i]
      {
        ModOnce(head + i, buffer.Length);
        batch := batch + [buffer[(head + i) % buffer.Length]];
      }
      ModOnce(head + count, buffer.Length);
      head := (head + count) % buffer.Length;
      assert Size() == |before| - count;
      assert Contents() == before[count..];
    }
  }

  /** The n items from head on, around the ring. */
  ghost function Around<T>(buffer: seq<T>, head: nat, n: nat): (s: seq<T>)
    requires head < |buffer| && n <= |buffer|
    ensures |s| == n
    ensures forall i | 0 <= i < n ::
            s[i] == if head + i < |buffer| then buffer[head + i] else buffer[head + i - |buffer|]
  {
    seq(n, i requires 0 <= i < n => if head + i < |buffer| then buffer[head + i] else buffer[head + i - |buffer|])
  }
}
