/**
 * `herald:work` (src/Commands/HeraldWorkCommand.php): the startup guard, the
 * consume loop and the per-message routing with its ack discipline.
 *
 * The environment is an input: `polls(k)` says what the k-th consume attempt
 * of a broker connection brings and how the ack and the event then go, and
 * `quit[k]` is the value of the quit flag at the k-th check of the loop
 * condition (the signal handlers that set it are the host's).
 * `mappings` stands for the topic's type => event-class mappings and
 * `classes` for what class_exists does with each class name. The calls the
 * worker makes are recorded, in order, as a trace of effects.
 */
module WorkCommand {
  import opened Wrappers
  import opened Messages
  import opened FakeConnections
  import opened Console
  import opened Herald

  /**
   * What `class_exists` does for a class name: it finds the class, or not, or
   * the autoloader it runs raises (say, a parse error in the class file).
   */
  datatype ClassLookup = ClassFound | ClassMissing | AutoloadRaises

  /** The message's type is mapped to a class whose lookup raises. */
  predicate AutoloadFails(m: Message, mappings: map<string, string>, classes: string -> ClassLookup)
  {
    m.eventType in mappings && classes(mappings[m.eventType]) == AutoloadRaises
  }

  /** How `new $eventClass($payload)` and `Event::dispatch` go. */
  datatype EventOutcome = Handled | ConstructionRaises | ListenerRaises

  /** One consume attempt on a broker connection. */
  datatype Poll =
    | Nothing                                                        // consume returned null
    | Delivered(m: Message, ackRaises: bool, event: EventOutcome)
    | ConsumeRaises                                                  // consume threw

  /** The calls the worker makes, and its error reports and back-off pauses. */
  datatype Effect =
    | Consumed                                          // $connection->consume()
    | Acked(m: Message)                                 // $connection->ack($message)
    | Dispatched(eventClass: string, payload: Payload)  // Event::dispatch(new $eventClass($payload))
    | ProcessingError                                   // reported by processMessage's catch
    | LoopError                                         // reported by the loop's catch
    | Backoff                                           // sleep(1)
    | Closed                                            // $connection->close()

  /**
   * `processMessage`: the ack comes first, on every path but the one where
   * class_exists raises, which is reported before any ack; the properties of
   * the rest are the lemmas below.
   */
  function MessageEffects(m: Message, mappings: map<string, string>, classes: string -> ClassLookup,
                          ackRaises: bool, event: EventOutcome): (es: seq<Effect>)
    ensures 1 <= |es| <= 3
    ensures AutoloadFails(m, mappings, classes) ==> es == [ProcessingError]
    ensures !AutoloadFails(m, mappings, classes) ==> es[0] == Acked(m)
  {
    if AutoloadFails(m, mappings, classes) then [ProcessingError]
    else if m.eventType !in mappings || classes(mappings[m.eventType]) == ClassMissing || ackRaises then
      [Acked(m)] + (if ackRaises then [ProcessingError] else [])
    else
      match event
      case Handled => [Acked(m), Dispatched(mappings[m.eventType], m.payload)]
      case ConstructionRaises => [Acked(m), ProcessingError]
      case ListenerRaises => [Acked(m), Dispatched(mappings[m.eventType], m.payload), ProcessingError]
  }

  /**
   * An event is dispatched only for a mapped type whose class exists, only
   * when the ack did not raise and the event could be built, and then right
   * after the ack with the mapped class and the payload; an unmapped type or
   * a missing class is just acked.
   */
  lemma MessageDispatch(m: Message, mappings: map<string, string>, classes: string -> ClassLookup,
                        ackRaises: bool, event: EventOutcome)
    ensures var es := MessageEffects(m, mappings, classes, ackRaises, event);
      && ((exists k :: 0 <= k < |es| && es[k].Dispatched?) <==>
            m.eventType in mappings && classes(mappings[m.eventType]) == ClassFound && !ackRaises
            && event != ConstructionRaises)
      && (forall k :: 0 <= k < |es| && es[k].Dispatched? ==>
            k == 1 && es[k] == Dispatched(mappings[m.eventType], m.payload))
      && ((m.eventType !in mappings || classes(mappings[m.eventType]) == ClassMissing) && !ackRaises ==> es == [Acked(m)])
  {
    var es := MessageEffects(m, mappings, classes, ackRaises, event);
    if m.eventType in mappings && classes(mappings[m.eventType]) == ClassFound && !ackRaises && event != ConstructionRaises {
      assert es[1].Dispatched?;
    }
  }

  /**
   * The message is acked exactly once, as the first call, unless class_exists
   * raises, when the catch reports it and it is never acked; processing
   * neither consumes nor closes, and anything raised is reported, not rethrown.
   */
  lemma MessageAckedOnce(m: Message, mappings: map<string, string>, classes: string -> ClassLookup,
                         ackRaises: bool, event: EventOutcome)
    ensures var es := MessageEffects(m, mappings, classes, ackRaises, event);
      && (forall k :: 1 <= k < |es| ==> !es[k].Acked?)
      && multiset(es)[Acked(m)] == (if AutoloadFails(m, mappings, classes) then 0 else 1)
      && multiset(es)[Consumed] == 0 && multiset(es)[Closed] == 0
  {
    var es := MessageEffects(m, mappings, classes, ackRaises, event);
    var mapped := m.eventType in mappings && classes(mappings[m.eventType]) == ClassFound;
    if AutoloadFails(m, mappings, classes) {
      assert es == [ProcessingError];
    } else if ackRaises {
      assert es == [Acked(m), ProcessingError];
    } else if !mapped {
      assert es == [Acked(m)];
    } else if event == Handled {
      assert es == [Acked(m), Dispatched(mappings[m.eventType], m.payload)];
    } else if event == ConstructionRaises {
      assert es == [Acked(m), ProcessingError];
    } else {
      assert es == [Acked(m), Dispatched(mappings[m.eventType], m.payload), ProcessingError];
    }
  }

  /**
   * One pass of the loop body: one consume; nothing more when it returns null
   * (the fake connection always does); a report and a pause when it raises;
   * otherwise the message is processed.
   */
  function StepEffects(fake: bool, p: Poll, mappings: map<string, string>, classes: string -> ClassLookup): (es: seq<Effect>)
    ensures |es| >= 1 && es[0] == Consumed
    ensures fake || p.Nothing? ==> es == [Consumed]
  {
    if fake then [Consumed]
    else
      match p
      case Nothing => [Consumed]
      case ConsumeRaises => [Consumed, LoopError, Backoff]
      case Delivered(m, ackRaises, event) => [Consumed] + MessageEffects(m, mappings, classes, ackRaises, event)
  }

  /** Each pass consumes exactly once and never closes the connection. */
  lemma StepConsumesOnce(fake: bool, p: Poll, mappings: map<string, string>, classes: string -> ClassLookup)
    ensures var es := StepEffects(fake, p, mappings, classes);
            multiset(es)[Consumed] == 1 && multiset(es)[Closed] == 0
  {
    if !fake && p.Delivered? {
      var es := MessageEffects(p.m, mappings, classes, p.ackRaises, p.event);
      MessageAckedOnce(p.m, mappings, classes, p.ackRaises, p.event);
      assert multiset([Consumed] + es) == multiset([Consumed]) + multiset(es);
    }
  }

  /** The `n`-th check is the first one, from `from` on, that finds the quit flag set. */
  predicate FirstSetAt(quit: seq<bool>, from: nat, n: nat)
  {
    from <= n < |quit| && quit[n] && forall k :: from <= k < n ==> !quit[k]
  }

  /** The index of the first check, from `from` on, that finds the quit flag set. */
  function FirstSet(quit: seq<bool>, from: nat): (n: nat)
    requires exists k :: from <= k < |quit| && quit[k]
    ensures FirstSetAt(quit, from, n)
    decreases |quit| - from
  {
    if quit[from] then from else FirstSet(quit, from + 1)
  }

  /** The passes of the loop body: the k-th is what the k-th consume attempt brings about. */
  function Passes(fake: bool, polls: nat -> Poll, mappings: map<string, string>, classes: string -> ClassLookup): nat -> seq<Effect>
  {
    (k: nat) => StepEffects(fake, polls(k), mappings, classes)
  }

  /** The loop from its `from`-th check of the quit flag on: one pass per check that finds it clear. */
  function Loop(passes: nat -> seq<Effect>, quit: seq<bool>, from: nat): (r: seq<Effect>)
    ensures from >= |quit| || quit[from] ==> r == []
    decreases |quit| - from
  {
    if from >= |quit| || quit[from] then []
    else passes(from) + Loop(passes, quit, from + 1)
  }

  /**
   * The loop survives every error: when every pass consumes once and does not
   * close, the loop consumes once per check that finds the flag clear, up to
   * the first one that finds it set, and never closes the connection itself.
   */
  lemma {:induction false} LoopRunsUntilQuit(passes: nat -> seq<Effect>, quit: seq<bool>, from: nat, n: nat)
    requires FirstSetAt(quit, from, n)
    requires forall k :: from <= k < n ==> multiset(passes(k))[Consumed] == 1 && multiset(passes(k))[Closed] == 0
    ensures multiset(Loop(passes, quit, from))[Consumed] == n - from
    ensures multiset(Loop(passes, quit, from))[Closed] == 0
    decreases n - from
  {
    if from < n {
      assert !quit[from];
      LoopRunsUntilQuit(passes, quit, from + 1, n);
      var rest := Loop(passes, quit, from + 1);
      assert Loop(passes, quit, from) == passes(from) + rest;
      assert multiset(passes(from) + rest) == multiset(passes(from)) + multiset(rest);
    } else {
      assert Loop(passes, quit, from) == [];
    }
  }

  /** A pass that receives a message acks it, unless class_exists raises for it. */
  lemma DeliveryStepAcks(p: Poll, mappings: map<string, string>, classes: string -> ClassLookup)
    requires p.Delivered? && !AutoloadFails(p.m, mappings, classes)
    ensures Acked(p.m) in StepEffects(false, p, mappings, classes)
  {
  }

  /** The whole run: one consume per clear check, then a single close, last. */
  lemma ClosedOnceAtEnd(fake: bool, polls: nat -> Poll, quit: seq<bool>,
                        mappings: map<string, string>, classes: string -> ClassLookup)
    requires exists k :: 0 <= k < |quit| && quit[k]
    ensures var trace := Loop(Passes(fake, polls, mappings, classes), quit, 0) + [Closed];
            && multiset(trace)[Consumed] == FirstSet(quit, 0)
            && multiset(trace)[Closed] == 1 && trace[|trace| - 1] == Closed
  {
    var passes := Passes(fake, polls, mappings, classes);
    forall k | 0 <= k < FirstSet(quit, 0)
      ensures multiset(passes(k))[Consumed] == 1 && multiset(passes(k))[Closed] == 0
    {
      StepConsumesOnce(fake, polls(k), mappings, classes);
    }
    LoopRunsUntilQuit(passes, quit, 0, FirstSet(quit, 0));
    var loop := Loop(passes, quit, 0);
    assert multiset(loop + [Closed]) == multiset(loop) + multiset([Closed]);
  }

  /** Every message delivered before the quit flag is seen is acked, unless class_exists raises for it. */
  lemma {:induction false} DeliveredMessagesAreAcked(polls: nat -> Poll, quit: seq<bool>, from: nat, k: nat,
                                                      mappings: map<string, string>, classes: string -> ClassLookup)
    requires from <= k < |quit| && forall j :: from <= j <= k ==> !quit[j]
    requires polls(k).Delivered? && !AutoloadFails(polls(k).m, mappings, classes)
    ensures Acked(polls(k).m) in Loop(Passes(false, polls, mappings, classes), quit, from)
    decreases k - from
  {
    var passes := Passes(false, polls, mappings, classes);
    var rest := Loop(passes, quit, from + 1);
    assert !quit[from];
    assert Loop(passes, quit, from) == passes(from) + rest;
    if k == from {
      DeliveryStepAcks(polls(k), mappings, classes);
    } else {
      DeliveredMessagesAreAcked(polls, quit, from + 1, k, mappings, classes);
    }
  }

  /** `processMessage`, making the calls in the order the trace records them. */
  method ProcessMessage(m: Message, mappings: map<string, string>, classes: string -> ClassLookup,
                        ackRaises: bool, event: EventOutcome)
    returns (es: seq<Effect>)
    ensures es == MessageEffects(m, mappings, classes, ackRaises, event)
  {
    if m.eventType !in mappings {
      es := [Acked(m)];
      if ackRaises { es := es + [ProcessingError]; }
      return;
    }
    var eventClass := mappings[m.eventType];
    var lookup := classes(eventClass);
    if lookup == AutoloadRaises {
      es := [ProcessingError];
      return;
    }
    if lookup == ClassMissing {
      es := [Acked(m)];
      if ackRaises { es := es + [ProcessingError]; }
      return;
    }
    es := [Acked(m)];
    if ackRaises {
      es := es + [ProcessingError];
      return;
    }
    if event == ConstructionRaises {
      es := es + [ProcessingError];
      return;
    }
    es := es + [Dispatched(eventClass, m.payload)];
    if event == ListenerRaises {
      es := es + [ProcessingError];
    }
  }

  /** One pass of the loop body on `connection`; the fake's consume returns null. */
  method Step(connection: Connection, p: Poll, mappings: map<string, string>, classes: string -> ClassLookup)
    returns (step: seq<Effect>)
    ensures step == StepEffects(connection.InMemory?, p, mappings, classes)
  {
    if connection.InMemory? {
      var r := connection.fake.Consume();
      step := [Consumed];
      return;
    }
    match p
    case Nothing =>
      step := [Consumed];
    case ConsumeRaises =>
      step := [Consumed, LoopError, Backoff];
    case Delivered(m, ackRaises, event) =>
      var es := ProcessMessage(m, mappings, classes, ackRaises, event);
      step := [Consumed] + es;
  }

  /** A check that finds the flag clear runs one pass and then the rest of the loop. */
  lemma LoopStep(passes: nat -> seq<Effect>, quit: seq<bool>, from: nat)
    requires from < |quit| && !quit[from]
    ensures Loop(passes, quit, from) == passes(from) + Loop(passes, quit, from + 1)
  {
  }

  lemma AppendAssoc<T>(a: seq<T>, b: seq<T>, c: seq<T>)
    ensures a + b + c == a + (b + c)
  {
  }

  /**
   * `while (!$this->shouldQuit)` and what follows it: the loop body runs once
   * per check that finds the flag clear, then the connection is closed.
   */
  method RunLoop(connection: Connection, mappings: map<string, string>, classes: string -> ClassLookup,
                 polls: nat -> Poll, quit: seq<bool>)
    returns (trace: seq<Effect>)
    requires exists k :: 0 <= k < |quit| && quit[k]
    ensures trace == Loop(Passes(connection.InMemory?, polls, mappings, classes), quit, 0) + [Closed]
  {
    ghost var passes := Passes(connection.InMemory?, polls, mappings, classes);
    ghost var last := FirstSet(quit, 0);
    trace := [];
    var i := 0;
    while !quit[i]
      invariant FirstSetAt(quit, i, last)
      invariant trace + Loop(passes, quit, i) == Loop(passes, quit, 0)
      decreases last - i
    {
      var step := Step(connection, polls(i), mappings, classes);
      assert step == passes(i);
      LoopStep(passes, quit, i);
      AppendAssoc(trace, step, Loop(passes, quit, i + 1));
      trace := trace + step;
      i := i + 1;
    }
    assert Loop(passes, quit, i) == [];
    trace := trace + [Closed];
  }

  /**
   * `handle`: FAILURE before anything is opened or consumed when the topic has
   * no mappings; an exception from `connection` escapes; otherwise the loop
   * runs until the flag is seen set, then the connection is closed once and
   * the result is SUCCESS.
   */
  method Handle(herald: HeraldManager, connectionName: Option<string>, mappings: map<string, string>,
                classes: string -> ClassLookup, polls: nat -> Poll, quit: seq<bool>)
    returns (code: Result<ExitCode, ConnectionError>, trace: seq<Effect>)
    requires herald.Valid()
    requires mappings != map[] && herald.SelectionError(connectionName).None? ==> exists k :: 0 <= k < |quit| && quit[k]
    modifies herald
    ensures herald.Valid()
    ensures herald.isFaking == old(herald.isFaking) && herald.handlers == old(herald.handlers)
    ensures herald.fakeConnection == old(herald.fakeConnection)
    ensures herald.isFaking ==> herald.connections == old(herald.connections)
    ensures mappings == map[] ==> code == Ok(Failure) && trace == [] && unchanged(herald)
    ensures mappings != map[] && old(herald.SelectionError(connectionName)).Some? ==>
              && code == Err(old(herald.SelectionError(connectionName)).value) && trace == []
              && herald.connections == old(herald.connections)
    ensures mappings != map[] && old(herald.SelectionError(connectionName)).None? ==>
              && code == Ok(Success)
              && trace == Loop(Passes(herald.isFaking, polls, mappings, classes), quit, 0) + [Closed]
              && (!herald.isFaking ==> herald.CachedAfter(old(herald.connections), connectionName))
  {
    if mappings == map[] {
      return Ok(Failure), [];
    }
    var selected := herald.Connection(connectionName);
    if selected.Err? {
      return Err(selected.error), [];
    }
    var connection := selected.value;
    assert connection.InMemory? == herald.isFaking;
    trace := RunLoop(connection, mappings, classes, polls, quit);
    code := Ok(Success);
  }
}
