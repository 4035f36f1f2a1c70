/** The streaming history sync of src/sync/stream.ts, turn by turn.

    JavaScript runs one turn at a time, so `processQueue` is cut at its awaits: a turn either
    starts the loop, or ends an await inside it and runs on to the next await. `Phase` records
    where the loop is suspended; `isProcessingQueue` is `phase != Idle`. Messages, timers and
    aborts arrive between turns, in any order. */
module StreamClient {
  import opened Wrappers

  datatype SyncMode = XpubStream | ManualStream

  datatype Item = VertexItem(seqno: int, tx: string)
                | AddressItem(seqno: int, address: string, index: int)

  /** Where `processQueue` is suspended: not running, awaiting the storage calls for one item, or
      awaiting the microtask after it. */
  datatype Phase = Idle | Storing(item: Item) | Yielding

  /** One manual-stream message: the addresses of `[start, start + count)`. `firstIndex` is the
      number sent beside them: the start message announces its own first index, later messages
      announce the index after the batch. */
  datatype Batch = Batch(firstIndex: int, start: int, count: nat, first: bool)

  datatype BatchOutcome = Sent | DeriveThrows(derivation: string) | SendThrows(transport: string)

  datatype Event =
    | Receive(item: Item)
    | ReceiveBegin(beginSeq: int)
    | ReceiveEnd(endSeq: int)
    | ReceiveError(errmsg: string)
    | ReceiveOtherStream
    | ConnectionAborted
    | StoreDone
    | Resume
    | BatchTurn(outcome: BatchOutcome)
    | BatchTimer
    | ShutdownDrain

  datatype Config = Config(mode: SyncMode, startIndex: int, window: nat, maxWindow: nat, perMessage: nat)

  datatype Client = Client(
    config: Config,
    lastLoadedIndex: int,
    lastReceivedIndex: int,
    lastAcked: int,
    lastSeenSeq: int,
    lastProcSeq: int,
    ended: bool,
    aborted: bool,
    errorMessage: Option<string>,
    items: seq<Item>,
    phase: Phase,
    pendingBatches: nat,
    batchTimers: nat,
    // what the outside world has seen
    received: seq<Item>,
    stored: seq<Item>,
    acks: seq<int>,
    endAcks: seq<int>,
    batches: seq<Batch>)

  /** The constructor followed by `sendStartMessage`. */
  function Start(config: Config): Client {
    var loaded := config.startIndex - 1;
    var blank := Client(config, loaded, -1, -1, -1, -1, false, false, None, [], Idle, 0, 0, [], [], [], [], []);
    match config.mode
    case XpubStream => blank
    case ManualStream =>
      blank.(batches := [Batch(loaded + 1, loaded + 1, config.perMessage, true)],
             lastLoadedIndex := loaded + config.perMessage)
  }

  /** `streamWindowSize / 2` is a fraction for odd windows, hence the doubled comparisons. */
  predicate ShouldAck(c: Client) {
    && c.config.window != 0
    && !c.ended
    && !c.aborted
    && 2 * (c.lastSeenSeq - c.lastAcked) > c.config.window
    && 2 * (c.lastProcSeq - c.lastAcked) > c.config.window
    && 2 * |c.items| <= c.config.window
  }

  function Ack(c: Client): (r: Client)
    ensures r.config == c.config
  {
    if ShouldAck(c) then c.(lastAcked := c.lastSeenSeq, acks := c.acks + [c.lastSeenSeq]) else c
  }

  /** The loop body of `processQueue` from its top to its first await or to its exit. */
  function LoopTurn(c: Client): (r: Client)
    ensures r.config == c.config
  {
    if c.aborted then c.(phase := Idle)
    else if c.items == [] then Ack(c).(phase := Idle)
    else
      var item := c.items[0];
      Ack(c.(items := c.items[1..])).(lastProcSeq := item.seqno, phase := Storing(item))
  }

  /** The loop does not look at where it was suspended. */
  lemma PhaseIsOverwritten(c: Client, phase: Phase)
    ensures LoopTurn(c.(phase := phase)) == LoopTurn(c)
  {
  }

  function ProcessQueue(c: Client): (r: Client)
    ensures r.config == c.config
  {
    if c.phase != Idle then c else LoopTurn(c)
  }

  /** What `addTx` and `addAddress` record before they wake the processor. */
  function Enqueued(c: Client, item: Item): (r: Client)
    ensures r.config == c.config
  {
    var index := if item.AddressItem? && item.index > c.lastReceivedIndex then item.index else c.lastReceivedIndex;
    c.(lastReceivedIndex := index, lastSeenSeq := item.seqno,
       items := c.items + [item], received := c.received + [item])
  }

  function AddItem(c: Client, item: Item): (r: Client)
    ensures r.config == c.config
  {
    ProcessQueue(Enqueued(c, item))
  }

  function AbortWithError(c: Client, error: string): Client {
    c.(errorMessage := Some(error), aborted := true)
  }

  /** One closure chained by `generateNextBatch`. */
  function GenerateBatch(c: Client, outcome: BatchOutcome): (r: Client)
    ensures r.config == c.config
  {
    if c.aborted || c.ended || c.config.mode != ManualStream then c
    else if c.lastLoadedIndex - c.lastReceivedIndex > c.config.maxWindow - c.config.perMessage then c
    else LoadBatch(c, outcome)
  }

  function LoadBatch(c: Client, outcome: BatchOutcome): (r: Client)
    ensures r.config == c.config
  {
    var start := c.lastLoadedIndex + 1;
    var loaded := c.lastLoadedIndex + c.config.perMessage;
    match outcome
    case DeriveThrows(e) => AbortWithError(c, e)
    case SendThrows(e) => AbortWithError(c.(lastLoadedIndex := loaded), e)
    case Sent =>
      c.(lastLoadedIndex := loaded,
         batches := c.batches + [Batch(loaded + 1, start, c.config.perMessage, false)],
         batchTimers := c.batchTimers + 1)
  }

  /** An event that no turn can deliver in this state. */
  predicate Enabled(c: Client, e: Event) {
    match e
    case StoreDone => c.phase.Storing?
    case Resume => c.phase == Yielding
    case BatchTurn(_) => c.pendingBatches > 0
    case BatchTimer => c.batchTimers > 0
    case _ => true
  }

  /** What one turn does to the client. The listener ignores everything once aborted. */
  function Step(c: Client, e: Event): (r: Client)
    requires Enabled(c, e)
    ensures r.config == c.config
  {
    match e
    case Receive(item) =>
      if c.aborted then c
      else
        var added := AddItem(c, item);
        if item.AddressItem? then added.(pendingBatches := c.pendingBatches + 1) else added
    case ReceiveBegin(_) => c
    case ReceiveOtherStream => c
    case ReceiveEnd(s) => if c.aborted then c else c.(ended := true, endAcks := c.endAcks + [s])
    case ReceiveError(m) => if c.aborted then c else AbortWithError(c, m)
    case ConnectionAborted => if c.aborted then c else AbortWithError(c, "Stream aborted")
    case StoreDone => c.(stored := c.stored + [c.phase.item], phase := Yielding)
    case Resume => LoopTurn(c)
    case BatchTurn(outcome) => GenerateBatch(c.(pendingBatches := c.pendingBatches - 1), outcome)
    case BatchTimer => c.(batchTimers := c.batchTimers - 1, pendingBatches := c.pendingBatches + 1)
    case ShutdownDrain => ProcessQueue(c)
  }

  /** How `shutdown` ends once it finds the queue processor stopped, or has waited too long. */
  function ShutdownResult(c: Client, timedOut: bool): Result<(), string>
    requires c.phase == Idle || timedOut
  {
    if timedOut then Err("Stream could not gracefully shutdown due to timeout.")
    else
      match c.errorMessage
      case Some(m) => if m != "" then Err(m) else Ok(())
      case None => Ok(())
  }

  // ----- runs of the client against an arbitrary environment -----

  predicate Follows(states: seq<Client>, events: seq<Event>, i: nat)
    requires i < |events| && |states| == |events| + 1
  {
    Enabled(states[i], events[i]) && states[i+1] == Step(states[i], events[i])
  }

  ghost predicate Run(states: seq<Client>, events: seq<Event>, config: Config) {
    && |states| == |events| + 1
    && states[0] == Start(config)
    && forall i: nat :: i < |events| ==> Follows(states, events, i)
  }

  function InFlight(c: Client): seq<Item> {
    if c.phase.Storing? then [c.phase.item] else []
  }

  function LastSeqno(items: seq<Item>): int {
    if items == [] then -1 else items[|items| - 1].seqno
  }

  /** Nothing received is lost, duplicated or reordered on its way to the storage. */
  ghost predicate Delivery(c: Client) {
    && c.received == c.stored + InFlight(c) + c.items
    && c.lastSeenSeq == LastSeqno(c.received)
    && c.lastProcSeq == LastSeqno(c.stored + InFlight(c))
  }

  /** No wake-up is lost: an item can only wait while a processor is active. */
  ghost predicate Awake(c: Client) {
    c.items != [] && !c.aborted ==> c.phase != Idle
  }

  /** The only way to an abort is an error that is remembered. */
  ghost predicate AbortRemembered(c: Client) {
    c.aborted <==> c.errorMessage.Some?
  }

  ghost predicate AcksSpaced(c: Client) {
    && c.lastAcked == (if c.acks == [] then -1 else c.acks[|c.acks| - 1])
    && c.lastAcked <= c.lastSeenSeq
    && (c.acks != [] ==> 2 * (c.acks[0] + 1) > c.config.window)
    && (forall i :: 0 <= i < |c.acks| - 1 ==> 2 * (c.acks[i+1] - c.acks[i]) > c.config.window)
  }

  /** A client that is waiting for the server has acknowledged all but half a window. */
  ghost predicate IdleIsAcked(c: Client) {
    c.phase == Idle && !c.aborted && !c.ended && c.config.window > 0 ==>
      2 * (c.lastSeenSeq - c.lastAcked) <= c.config.window
  }

  /** The batches sent cover `[startIndex, ...)` in order, each index once, none skipped. */
  ghost predicate Tiled(c: Client) {
    && (forall i :: 0 <= i < |c.batches| ==>
          && c.batches[i].start == c.config.startIndex + i * c.config.perMessage
          && c.batches[i].count == c.config.perMessage
          && (c.batches[i].first <==> i == 0))
    && (!c.aborted && c.config.mode == ManualStream ==>
          && c.batches != []
          && c.lastLoadedIndex + 1 == c.config.startIndex + |c.batches| * c.config.perMessage)
    && (c.config.mode == XpubStream ==> c.batches == [] && c.lastLoadedIndex == c.config.startIndex - 1)
  }

  function MaxInt(a: int, b: int): int { if a >= b then a else b }

  ghost predicate WithinAddressWindow(c: Client) {
    c.lastLoadedIndex - c.lastReceivedIndex
    <= MaxInt(c.config.maxWindow, c.config.startIndex + c.config.perMessage)
  }

  ghost predicate Inv(c: Client) {
    && Delivery(c) && Awake(c) && AbortRemembered(c) && Tiled(c) && WithinAddressWindow(c)
  }

  lemma StartInv(config: Config)
    ensures Inv(Start(config)) && AcksSpaced(Start(config)) && IdleIsAcked(Start(config))
  {
  }

  lemma LoopTurnDelivers(c: Client)
    requires Delivery(c) && !c.phase.Storing?
    ensures Delivery(LoopTurn(c)) && Awake(LoopTurn(c))
  {
    if !c.aborted && c.items != [] {
      assert c.stored + [] + c.items == c.stored + [c.items[0]] + c.items[1..];
    }
  }

  lemma AddItemDelivers(c: Client, item: Item)
    requires Delivery(c) && Awake(c)
    ensures Delivery(AddItem(c, item)) && Awake(AddItem(c, item))
  {
    var c1 := Enqueued(c, item);
    assert c1.received == c1.stored + InFlight(c1) + c1.items;
    if c.phase == Idle {
      LoopTurnDelivers(c1);
    }
  }

  lemma StoreDoneDelivers(c: Client)
    requires Delivery(c) && c.phase.Storing?
    ensures Delivery(Step(c, StoreDone)) && Awake(Step(c, StoreDone))
  {
    assert c.stored + InFlight(c) == Step(c, StoreDone).stored + [];
  }

  lemma QuietDelivers(c: Client, c': Client)
    requires Delivery(c) && Awake(c) && Quiet(c, c')
    ensures Delivery(c') && Awake(c')
  {
  }

  /** Nothing is received, stored or taken from the queue. */
  ghost predicate Quiet(c: Client, c': Client) {
    && c'.received == c.received && c'.stored == c.stored && c'.items == c.items && c'.phase == c.phase
    && c'.lastSeenSeq == c.lastSeenSeq && c'.lastProcSeq == c.lastProcSeq && (c.aborted ==> c'.aborted)
  }

  lemma BatchIsQuiet(c: Client, outcome: BatchOutcome)
    ensures Quiet(c, GenerateBatch(c, outcome))
  {
  }

  lemma OtherIsQuiet(c: Client, e: Event)
    requires Enabled(c, e) && !e.Receive? && !e.StoreDone? && !e.Resume? && !e.ShutdownDrain?
    ensures Quiet(c, Step(c, e))
  {
    if e.BatchTurn? {
      BatchIsQuiet(c.(pendingBatches := c.pendingBatches - 1), e.outcome);
    }
  }

  lemma ReceiveDelivers(c: Client, item: Item)
    requires Delivery(c) && Awake(c)
    ensures Delivery(Step(c, Receive(item))) && Awake(Step(c, Receive(item)))
  {
    if !c.aborted {
      AddItemDelivers(c, item);
      QuietDelivers(AddItem(c, item), Step(c, Receive(item)));
    }
  }

  lemma StepDelivers(c: Client, e: Event)
    requires Delivery(c) && Awake(c) && Enabled(c, e)
    ensures Delivery(Step(c, e)) && Awake(Step(c, e))
  {
    match e
    case Receive(item) => ReceiveDelivers(c, item);
    case StoreDone => StoreDoneDelivers(c);
    case Resume => LoopTurnDelivers(c);
    case ShutdownDrain => if c.phase == Idle { LoopTurnDelivers(c); }
    case _ =>
      OtherIsQuiet(c, e);
      QuietDelivers(c, Step(c, e));
  }

  lemma BatchTurnTiles(c: Client, c': Client, outcome: BatchOutcome)
    requires Tiled(c) && WithinAddressWindow(c) && c.pendingBatches > 0 && c' == c.(pendingBatches := c.pendingBatches - 1)
    ensures Tiled(GenerateBatch(c', outcome)) && WithinAddressWindow(GenerateBatch(c', outcome))
  {
    SameTiles(c, c');
    BatchTiles(c', outcome);
  }

  lemma StepTiles(c: Client, e: Event)
    requires Tiled(c) && WithinAddressWindow(c) && Enabled(c, e)
    ensures Tiled(Step(c, e)) && WithinAddressWindow(Step(c, e))
  {
    match e
    case BatchTurn(outcome) => BatchTurnTiles(c, c.(pendingBatches := c.pendingBatches - 1), outcome);
    case Receive(item) => ReceiveLeavesBatches(c, item); SameTiles(c, Step(c, e));
    case Resume => LoopTurnLeavesBatches(c); SameTiles(c, Step(c, e));
    case ShutdownDrain => LoopTurnLeavesBatches(c); SameTiles(c, Step(c, e));
    case _ => SameTiles(c, Step(c, e));
  }

  lemma BatchTiles(c: Client, outcome: BatchOutcome)
    requires Tiled(c) && WithinAddressWindow(c)
    ensures Tiled(GenerateBatch(c, outcome)) && WithinAddressWindow(GenerateBatch(c, outcome))
  {
    assert (|c.batches| + 1) * c.config.perMessage == |c.batches| * c.config.perMessage + c.config.perMessage;
  }

  /** Two clients that agree on the batches and on what the address window depends on. */
  predicate SameBatches(c: Client, c': Client) {
    && c'.config == c.config && c'.batches == c.batches && c'.lastLoadedIndex == c.lastLoadedIndex
    && c'.lastReceivedIndex >= c.lastReceivedIndex && (c.aborted ==> c'.aborted)
  }

  lemma SameTiles(c: Client, c': Client)
    requires Tiled(c) && WithinAddressWindow(c) && SameBatches(c, c')
    ensures Tiled(c') && WithinAddressWindow(c')
  {
  }

  lemma LoopTurnLeavesBatches(c: Client)
    ensures SameBatches(c, LoopTurn(c))
  {
  }

  lemma ReceiveLeavesBatches(c: Client, item: Item)
    ensures SameBatches(c, Step(c, Receive(item)))
  {
    LoopTurnLeavesBatches(Enqueued(c, item));
  }

  lemma StepInv(c: Client, e: Event)
    requires Inv(c) && Enabled(c, e)
    ensures Inv(Step(c, e))
  {
    StepDelivers(c, e);
    StepTiles(c, e);
    StepRemembers(c, e);
  }

  lemma StepRemembers(c: Client, e: Event)
    requires AbortRemembered(c) && Enabled(c, e)
    ensures AbortRemembered(Step(c, e))
  {
  }

  /** Every state of every run, whatever the server and the timers do. */
  lemma {:induction false} RunInv(states: seq<Client>, events: seq<Event>, config: Config, i: nat)
    requires Run(states, events, config) && i < |states|
    ensures Inv(states[i]) && states[i].config == config
  {
    if i == 0 {
      StartInv(config);
    } else {
      RunInv(states, events, config, i - 1);
      assert Follows(states, events, i - 1);
      StepInv(states[i-1], events[i-1]);
    }
  }

  /** A message is never left waiting without a processor. */
  lemma NoLostWakeUp(states: seq<Client>, events: seq<Event>, config: Config, i: nat)
    requires Run(states, events, config) && i < |states|
    ensures states[i].items != [] && !states[i].aborted ==> states[i].phase != Idle
  {
    RunInv(states, events, config, i);
  }

  /** The message an event aborts the stream with, if it aborts it in this state. */
  function AbortMessage(c: Client, e: Event): Option<string> {
    if c.aborted then None
    else
      match e
      case ReceiveError(m) => Some(m)
      case ConnectionAborted => Some("Stream aborted")
      case BatchTurn(DeriveThrows(m)) => if BatchRuns(c) then Some(m) else None
      case BatchTurn(SendThrows(m)) => if BatchRuns(c) then Some(m) else None
      case _ => None
  }

  predicate BatchRuns(c: Client) {
    !c.ended && c.config.mode == ManualStream && c.lastLoadedIndex - c.lastReceivedIndex <= c.config.maxWindow - c.config.perMessage
  }

  /** Exactly these events abort, and they leave the queue as it is. */
  lemma AbortStep(c: Client, e: Event)
    requires Enabled(c, e) && !c.aborted
    ensures Step(c, e).aborted <==> AbortMessage(c, e).Some?
    ensures AbortMessage(c, e).Some? ==> Step(c, e).errorMessage == AbortMessage(c, e) && Step(c, e).items == c.items
  {
  }

  /** What an aborted client keeps for good. */
  predicate Frozen(c: Client, c': Client) {
    c'.aborted && c'.items == c.items && c'.received == c.received && c'.errorMessage == c.errorMessage
  }

  lemma FrozenStep(c: Client, e: Event)
    requires Enabled(c, e) && c.aborted
    ensures Frozen(c, Step(c, e))
  {
  }

  /** From its abort on, a client takes no item off the queue and none in, whatever happens. */
  lemma {:induction false} AbortedIsFrozen(states: seq<Client>, events: seq<Event>, config: Config, i: nat, j: nat)
    requires Run(states, events, config) && i <= j < |states| && states[i].aborted
    ensures Frozen(states[i], states[j])
    decreases j - i
  {
    if i < j {
      AbortedIsFrozen(states, events, config, i, j - 1);
      assert Follows(states, events, j - 1);
      FrozenStep(states[j-1], events[j-1]);
    }
  }

  /** An aborted stream was aborted by one event of the run. */
  lemma {:induction false} AbortHasACause(states: seq<Client>, events: seq<Event>, config: Config, i: nat) returns (k: nat)
    requires Run(states, events, config) && i < |states| && states[i].aborted
    ensures k < i && AbortMessage(states[k], events[k]).Some? && states[i].errorMessage == AbortMessage(states[k], events[k])
    ensures states[i].items == states[k].items
  {
    assert !states[0].aborted;
    assert Follows(states, events, i - 1);
    if states[i-1].aborted {
      k := AbortHasACause(states, events, config, i - 1);
      FrozenStep(states[i-1], events[i-1]);
    } else {
      k := i - 1;
      AbortStep(states[k], events[k]);
    }
  }

  /** An event that makes a later shutdown lose items silently: it aborts with the empty message while
      items are queued. */
  predicate LosesItems(c: Client, e: Event) { AbortMessage(c, e) == Some("") && c.items != [] }

  /** A shutdown that succeeds on a stream that was not aborted has stored every received item
      exactly once, in arrival order. Something is missing exactly when the run had an event that
      aborted it with the empty message while items were queued, and what was queued then is what is
      missing. */
  lemma ShutdownStoresEverything(states: seq<Client>, events: seq<Event>, config: Config, timedOut: bool)
    requires Run(states, events, config)
    requires states[|events|].phase == Idle || timedOut
    requires ShutdownResult(states[|events|], timedOut).Ok?
    ensures states[|events|].received == states[|events|].stored + states[|events|].items
    ensures !states[|events|].aborted ==> states[|events|].stored == states[|events|].received
    ensures states[|events|].aborted <==> states[|events|].errorMessage == Some("")
    ensures states[|events|].stored != states[|events|].received
       <==> exists k :: 0 <= k < |events| && LosesItems(states[k], events[k])
    ensures forall k :: 0 <= k < |events| && LosesItems(states[k], events[k]) ==>
      states[|events|].received == states[|events|].stored + states[k].items
  {
    var c := states[|events|];
    RunInv(states, events, config, |events|);
    assert InFlight(c) == [];
    assert |c.received| == |c.stored| + |c.items| && (c.items == [] ==> c.stored + [] + [] == c.stored);
    if c.aborted {
      var k := AbortHasACause(states, events, config, |events|);
      assert c.items != [] ==> LosesItems(states[k], events[k]);
    }
    forall k | 0 <= k < |events| && LosesItems(states[k], events[k]) ensures c.items == states[k].items {
      assert Follows(states, events, k);
      AbortStep(states[k], events[k]);
      AbortedIsFrozen(states, events, config, k + 1, |events|);
    }
  }

  /** The promise fails for an error event with an empty message: two transactions arrive, the
      server reports the empty error while the first is being stored, and the shutdown succeeds
      with the second transaction lost. */
  lemma EmptyErrorLosesItems()
    returns (states: seq<Client>, events: seq<Event>, config: Config)
    ensures Run(states, events, config)
    ensures states[|events|].phase == Idle && ShutdownResult(states[|events|], false).Ok?
    ensures states[|events|].received == [VertexItem(0, "aa"), VertexItem(1, "bb")]
    ensures states[|events|].stored == [VertexItem(0, "aa")]
  {
    config := Config(XpubStream, 0, 0, 600, 40);
    var a, b := VertexItem(0, "aa"), VertexItem(1, "bb");
    var s1, s2 := TwoItems(config, a, b);
    var s3, s4, s5 := EmptyErrorThenResume(s2, a);
    states, events := [Start(config)], [];
    states, events := ExtendRun(states, events, config, Receive(a), s1);
    states, events := ExtendRun(states, events, config, Receive(b), s2);
    states, events := ExtendRun(states, events, config, ReceiveError(""), s3);
    states, events := ExtendRun(states, events, config, StoreDone, s4);
    states, events := ExtendRun(states, events, config, Resume, s5);
  }

  lemma ExtendRun(states: seq<Client>, events: seq<Event>, config: Config, e: Event, c: Client)
    returns (states': seq<Client>, events': seq<Event>)
    requires Run(states, events, config) && Enabled(states[|events|], e) && c == Step(states[|events|], e)
    ensures states' == states + [c] && events' == events + [e] && Run(states', events', config)
    ensures states'[|events'|] == c
  {
    states', events' := states + [c], events + [e];
    forall i: nat | i < |events'| ensures Follows(states', events', i) {
      if i < |events| {
        assert Follows(states, events, i);
      }
    }
  }

  lemma EmptyErrorThenResume(s2: Client, a: Item) returns (s3: Client, s4: Client, s5: Client)
    requires !s2.aborted && s2.phase == Storing(a) && s2.stored == []
    ensures s3 == Step(s2, ReceiveError("")) && Enabled(s3, StoreDone)
    ensures s4 == Step(s3, StoreDone) && Enabled(s4, Resume) && s5 == Step(s4, Resume)
    ensures s5.phase == Idle && ShutdownResult(s5, false).Ok? && s5.received == s2.received && s5.stored == [a]
  {
    s3 := Step(s2, ReceiveError(""));
    s4 := Step(s3, StoreDone);
    s5 := Step(s4, Resume);
    assert s4.stored == [] + [a];
  }

  lemma TwoItems(config: Config, a: Item, b: Item) returns (s1: Client, s2: Client)
    requires config.mode == XpubStream && config.window == 0
    ensures s1 == Step(Start(config), Receive(a)) && s2 == Step(s1, Receive(b))
    ensures !s2.aborted && s2.phase == Storing(a) && s2.items == [b] && s2.received == [a, b] && s2.stored == []
    ensures s2.config == config
  {
    s1 := Step(Start(config), Receive(a));
    assert s1.items == [] && s1.phase == Storing(a);
    s2 := Step(s1, Receive(b));
  }

  /** The addresses offered to the server tile the index line, and the client never runs further
      ahead of what came back than its window, or than its very first batch. */
  lemma AddressesTileWithinWindow(states: seq<Client>, events: seq<Event>, config: Config, i: nat, index: int)
    requires Run(states, events, config) && i < |states| && config.perMessage > 0
    ensures states[i].lastLoadedIndex - states[i].lastReceivedIndex
         <= MaxInt(config.maxWindow, config.startIndex + config.perMessage)
    ensures forall a, b :: 0 <= a < b < |states[i].batches| ==>
      states[i].batches[a].start + states[i].batches[a].count <= states[i].batches[b].start
    ensures config.mode == ManualStream && !states[i].aborted && config.startIndex <= index <= states[i].lastLoadedIndex ==>
      exists k :: 0 <= k < |states[i].batches| &&
        states[i].batches[k].start <= index < states[i].batches[k].start + states[i].batches[k].count
  {
    RunInv(states, events, config, i);
    TilesAreDisjoint(states[i]);
    if config.mode == ManualStream && !states[i].aborted && config.startIndex <= index <= states[i].lastLoadedIndex {
      TilesCover(states[i], index);
    }
  }

  lemma TilesAreDisjoint(c: Client)
    requires Tiled(c)
    ensures forall a, b :: 0 <= a < b < |c.batches| ==> c.batches[a].start + c.batches[a].count <= c.batches[b].start
  {
    forall a, b | 0 <= a < b < |c.batches|
      ensures c.batches[a].start + c.batches[a].count <= c.batches[b].start
    {
      MulMonotone(a + 1, b, c.config.perMessage);
      assert (a + 1) * c.config.perMessage == a * c.config.perMessage + c.config.perMessage;
    }
  }

  lemma TilesCover(c: Client, index: int)
    requires Tiled(c) && c.config.mode == ManualStream && !c.aborted && c.config.perMessage > 0
    requires c.config.startIndex <= index <= c.lastLoadedIndex
    ensures exists k :: 0 <= k < |c.batches| && c.batches[k].start <= index < c.batches[k].start + c.batches[k].count
  {
    var k := (index - c.config.startIndex) / c.config.perMessage;
    QuotientBounds(index - c.config.startIndex, c.config.perMessage, |c.batches|);
    assert c.batches[k].start <= index < c.batches[k].start + c.batches[k].count;
  }

  lemma MulMonotone(a: int, b: int, m: nat)
    requires a <= b
    ensures a * m <= b * m
  {
  }

  lemma QuotientBounds(x: nat, m: nat, n: nat)
    requires m > 0 && x < n * m
    ensures 0 <= x / m < n && (x / m) * m <= x < (x / m) * m + m
  {
    if x / m >= n {
      MulMonotone(n, x / m, m);
    }
  }

  // ----- acknowledgements, for a server that numbers its messages in increasing order -----

  lemma LoopTurnAcks(c: Client)
    requires Delivery(c) && !c.phase.Storing? && AcksSpaced(c)
    ensures AcksSpaced(LoopTurn(c)) && IdleIsAcked(LoopTurn(c))
  {
    if c.aborted {
      SameAcks(c, LoopTurn(c));
    } else if c.items == [] {
      AckSpaces(c);
      SameAcks(Ack(c), LoopTurn(c));
      LastIsAcked(c);
    } else {
      var c1 := c.(items := c.items[1..]);
      SameAcks(c, c1);
      AckSpaces(c1);
      SameAcks(Ack(c1), LoopTurn(c));
    }
  }

  lemma SameAcks(c: Client, c': Client)
    requires AcksSpaced(c) && c'.config == c.config
    requires c'.acks == c.acks && c'.lastAcked == c.lastAcked && c'.lastSeenSeq == c.lastSeenSeq
    ensures AcksSpaced(c')
  {
  }

  lemma AckSpaces(c: Client)
    requires AcksSpaced(c)
    ensures AcksSpaced(Ack(c))
  {
  }

  /** With nothing left to process, a seen item that is worth an acknowledgement gets it. */
  lemma LastIsAcked(c: Client)
    requires Delivery(c) && !c.phase.Storing? && c.items == []
    ensures IdleIsAcked(Ack(c).(phase := Idle))
  {
    assert c.stored + InFlight(c) + c.items == c.stored + InFlight(c);
  }

  lemma AddItemAcks(c: Client, item: Item)
    requires Delivery(c) && Awake(c) && AcksSpaced(c) && IdleIsAcked(c)
    requires item.seqno > c.lastSeenSeq && !c.aborted
    ensures AcksSpaced(AddItem(c, item)) && IdleIsAcked(AddItem(c, item))
  {
    if c.phase == Idle {
      var c1 := Enqueued(c, item);
      assert c1.received == c1.stored + InFlight(c1) + c1.items;
      LoopTurnAcks(c1);
    }
  }

  predicate SameStanding(c: Client, c': Client) {
    && c'.config == c.config && c'.acks == c.acks && c'.lastAcked == c.lastAcked && c'.lastSeenSeq == c.lastSeenSeq
    && (c'.phase == Idle ==> c.phase == Idle) && (c.aborted ==> c'.aborted) && (c.ended ==> c'.ended)
  }

  /** Only an item or a turn of the processor changes where the client stands. */
  lemma OtherStep(c: Client, e: Event)
    requires Enabled(c, e) && !e.Receive? && !e.Resume? && !e.ShutdownDrain?
    ensures SameStanding(c, Step(c, e))
  {
  }

  /** A turn that acknowledges nothing, sees nothing new and does not end the processor. */
  lemma QuietAcks(c: Client, c': Client)
    requires AcksSpaced(c) && IdleIsAcked(c) && SameStanding(c, c')
    ensures AcksSpaced(c') && IdleIsAcked(c')
  {
    SameAcks(c, c');
  }

  lemma ReceiveAcks(c: Client, item: Item)
    requires Delivery(c) && Awake(c) && AcksSpaced(c) && IdleIsAcked(c) && item.seqno > c.lastSeenSeq
    ensures AcksSpaced(Step(c, Receive(item))) && IdleIsAcked(Step(c, Receive(item)))
  {
    if !c.aborted {
      AddItemAcks(c, item);
      QuietAcks(AddItem(c, item), Step(c, Receive(item)));
    }
  }

  /** A turn keeps the acknowledgement laws as long as items arrive with increasing numbers. */
  lemma StepAcks(c: Client, e: Event)
    requires Delivery(c) && Awake(c) && Enabled(c, e) && AcksSpaced(c) && IdleIsAcked(c)
    requires e.Receive? ==> e.item.seqno > c.lastSeenSeq
    ensures AcksSpaced(Step(c, e)) && IdleIsAcked(Step(c, e))
  {
    match e
    case Receive(item) => ReceiveAcks(c, item);
    case Resume => LoopTurnAcks(c);
    case ShutdownDrain => if c.phase == Idle { LoopTurnAcks(c); }
    case _ =>
      OtherStep(c, e);
      QuietAcks(c, Step(c, e));
  }
}
