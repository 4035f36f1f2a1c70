/** What a run of the stream client amounts to, told from its events alone: what it has received, when it
    acknowledges, which address batches it sends, and how its shutdown ends (src/sync/stream.ts). */
module StreamRuns {
  import opened Wrappers
  import opened SeqSums
  import opened StreamClient

  // ----- how a shutdown ends -----

  /** Some event of the run aborted the stream with a message that is not empty. */
  ghost predicate Failed(states: seq<Client>, events: seq<Event>)
    requires |states| == |events| + 1
  {
    exists k :: 0 <= k < |events| && Fails(states[k], events[k])
  }

  predicate Fails(c: Client, e: Event) { AbortMessage(c, e).Some? && AbortMessage(c, e) != Some("") }

  /** The message of the event that aborted the stream is kept to the end. */
  lemma MessageIsKept(states: seq<Client>, events: seq<Event>, config: Config, k: nat)
    requires Run(states, events, config) && k < |events| && AbortMessage(states[k], events[k]).Some?
    ensures states[|events|].errorMessage == AbortMessage(states[k], events[k])
  {
    assert Follows(states, events, k);
    AbortStep(states[k], events[k]);
    AbortedIsFrozen(states, events, config, k + 1, |events|);
  }

  /** A message that is not empty was left by an event of the run. */
  lemma MessageHasACause(states: seq<Client>, events: seq<Event>, config: Config)
    requires Run(states, events, config)
    ensures states[|events|].errorMessage.Some? && states[|events|].errorMessage != Some("") ==> Failed(states, events)
  {
    var c := states[|events|];
    RunInv(states, events, config, |events|);
    if c.errorMessage.Some? && c.errorMessage != Some("") {
      var k := AbortHasACause(states, events, config, |events|);
      assert Fails(states[k], events[k]);
    }
  }

  /** A shutdown that times out fails. Any other succeeds exactly when no event aborted the stream with a
      message that is not empty; where one did, the error is that message. */
  lemma ShutdownAnswer(states: seq<Client>, events: seq<Event>, config: Config, timedOut: bool)
    requires Run(states, events, config) && (states[|events|].phase == Idle || timedOut)
    ensures timedOut ==>
      ShutdownResult(states[|events|], timedOut) == Err("Stream could not gracefully shutdown due to timeout.")
    ensures !timedOut ==> (ShutdownResult(states[|events|], timedOut).Ok? <==> !Failed(states, events))
    ensures forall k :: 0 <= k < |events| && Fails(states[k], events[k]) && !timedOut ==>
      ShutdownResult(states[|events|], timedOut) == Err(AbortMessage(states[k], events[k]).value)
  {
    MessageHasACause(states, events, config);
    forall k | 0 <= k < |events| && Fails(states[k], events[k])
      ensures states[|events|].errorMessage == AbortMessage(states[k], events[k])
    {
      MessageIsKept(states, events, config, k);
    }
  }

  // ----- what was heard -----

  function ItemHeard(c: Client, e: Event): seq<Item> { if e.Receive? && !c.aborted then [e.item] else [] }

  function EndHeard(c: Client, e: Event): seq<int> { if e.ReceiveEnd? && !c.aborted then [e.endSeq] else [] }

  /** The items that arrived before the abort, in order. */
  function ItemsHeard(states: seq<Client>, events: seq<Event>): seq<Item>
    requires |states| >= |events|
  {
    if events == [] then []
    else ItemsHeard(states[..|events| - 1], events[..|events| - 1]) + ItemHeard(states[|events| - 1], events[|events| - 1])
  }

  function EndsHeard(states: seq<Client>, events: seq<Event>): seq<int>
    requires |states| >= |events|
  {
    if events == [] then []
    else EndsHeard(states[..|events| - 1], events[..|events| - 1]) + EndHeard(states[|events| - 1], events[|events| - 1])
  }

  /** The greatest address index among the items, -1 without any. */
  function HighestIndex(items: seq<Item>): int {
    if items == [] then -1
    else
      var before, last := HighestIndex(items[..|items| - 1]), items[|items| - 1];
      if last.AddressItem? && last.index > before then last.index else before
  }

  /** The client records every item and every end it hears, and answers each end at once. */
  ghost predicate Recorded(c: Client, items: seq<Item>, ends: seq<int>) {
    && c.received == items && c.endAcks == ends && (c.ended <==> ends != [])
    && c.lastReceivedIndex == HighestIndex(items)
  }

  lemma PushedIndex(items: seq<Item>, item: Item)
    ensures HighestIndex(items + [item])
         == if item.AddressItem? && item.index > HighestIndex(items) then item.index else HighestIndex(items)
  {
    assert (items + [item])[..|items|] == items;
  }

  /** Nothing is heard in a turn. */
  predicate HearsNothing(c: Client, c': Client) {
    c'.received == c.received && c'.endAcks == c.endAcks && c'.ended == c.ended && c'.lastReceivedIndex == c.lastReceivedIndex
  }

  lemma TurnHearsNothing(c: Client)
    ensures HearsNothing(c, LoopTurn(c))
  {
  }

  lemma ReceiveRecords(c: Client, item: Item, items: seq<Item>, ends: seq<int>)
    requires Recorded(c, items, ends) && !c.aborted
    ensures Recorded(Step(c, Receive(item)), items + [item], ends)
  {
    PushedIndex(items, item);
    TurnHearsNothing(Enqueued(c, item));
  }

  lemma StepRecords(c: Client, e: Event, items: seq<Item>, ends: seq<int>)
    requires Recorded(c, items, ends) && Enabled(c, e)
    ensures Recorded(Step(c, e), items + ItemHeard(c, e), ends + EndHeard(c, e))
  {
    assert items + [] == items && ends + [] == ends;
    match e
    case Receive(item) => if !c.aborted { ReceiveRecords(c, item, items, ends); }
    case Resume => TurnHearsNothing(c);
    case ShutdownDrain => TurnHearsNothing(c);
    case _ =>
  }

  lemma RunInit(states: seq<Client>, events: seq<Event>, config: Config)
    requires Run(states, events, config) && events != []
    ensures Run(states[..|events|], events[..|events| - 1], config)
    ensures Follows(states, events, |events| - 1)
  {
    var before, done := states[..|events|], events[..|events| - 1];
    forall i: nat | i < |done| ensures Follows(before, done, i) {
      assert Follows(states, events, i);
    }
  }

  /** In every run the client has received exactly the items that arrived before an abort, in order, has
      answered exactly the ends, and knows the highest address index. */
  lemma {:induction false} EverythingHeardIsRecorded(states: seq<Client>, events: seq<Event>, config: Config)
    requires Run(states, events, config)
    ensures Recorded(states[|events|], ItemsHeard(states, events), EndsHeard(states, events))
  {
    if events != [] {
      var n := |events| - 1;
      RunInit(states, events, config);
      EverythingHeardIsRecorded(states[..|events|], events[..n], config);
      SameHeard(states, events, n);
      StepRecords(states[n], events[n], ItemsHeard(states[..n], events[..n]), EndsHeard(states[..n], events[..n]));
    }
  }

  lemma {:induction false} HeardDependsOn(states: seq<Client>, states': seq<Client>, events: seq<Event>)
    requires |states| >= |events| && |states'| >= |events| && states[..|events|] == states'[..|events|]
    ensures ItemsHeard(states, events) == ItemsHeard(states', events) && EndsHeard(states, events) == EndsHeard(states', events)
  {
    if events != [] {
      var n := |events| - 1;
      assert states[..n] == states[..|events|][..n] == states'[..|events|][..n] == states'[..n];
      assert states[n] == states[..|events|][n] == states'[..|events|][n] == states'[n];
    }
  }

  lemma SameHeard(states: seq<Client>, events: seq<Event>, n: nat)
    requires |states| == |events| + 1 && n + 1 == |events|
    ensures ItemsHeard(states[..|events|], events[..n]) == ItemsHeard(states[..n], events[..n])
    ensures EndsHeard(states[..|events|], events[..n]) == EndsHeard(states[..n], events[..n])
  {
    assert states[..|events|][..n] == states[..n] == states[..n][..n];
    HeardDependsOn(states[..|events|], states[..n], events[..n]);
  }

  // ----- acknowledgements -----

  /** More than half a window was seen and processed since the last acknowledgement, and at most half a
      window would be left to process. */
  predicate AckIsDue(c: Client, left: int) {
    && c.config.window > 0 && !c.ended && !c.aborted && 2 * left <= c.config.window
    && 2 * (c.lastSeenSeq - c.lastAcked) > c.config.window && 2 * (c.lastProcSeq - c.lastAcked) > c.config.window
  }

  /** The processor acknowledges what it has seen each time it looks for an item and that is due, and at
      no other time. */
  lemma AcknowledgesWhenDue(c: Client, e: Event)
    requires Enabled(c, e)
    ensures (e.Resume? || (e.ShutdownDrain? && c.phase == Idle)) && AckIsDue(c, if c.items == [] then 0 else |c.items| - 1) ==>
      Step(c, e).acks == c.acks + [c.lastSeenSeq] && Step(c, e).lastAcked == c.lastSeenSeq
    ensures (e.Resume? || (e.ShutdownDrain? && c.phase == Idle)) && !AckIsDue(c, if c.items == [] then 0 else |c.items| - 1) ==>
      Step(c, e).acks == c.acks && Step(c, e).lastAcked == c.lastAcked
    ensures e.ShutdownDrain? && c.phase != Idle ==> Step(c, e) == c
    ensures !e.Receive? && !e.Resume? && !e.ShutdownDrain? ==> Step(c, e).acks == c.acks && Step(c, e).lastAcked == c.lastAcked
  {
  }

  /** An arrival wakes an idle processor, which then looks for an item with the new one counted. */
  lemma ArrivalAcknowledgesWhenDue(c: Client, item: Item)
    ensures var c' := Step(c, Receive(item));
      var due := !c.aborted && c.phase == Idle && AckIsDue(c.(lastSeenSeq := item.seqno), |c.items|);
      c'.acks == (if due then c.acks + [item.seqno] else c.acks) && c'.lastAcked == if due then item.seqno else c.lastAcked
  {
  }

  // ----- address batches -----

  /** The stream goes on and one more batch fits the window. */
  predicate Room(c: Client) {
    && c.config.mode == ManualStream && !c.aborted && !c.ended
    && c.lastLoadedIndex + c.config.perMessage - c.lastReceivedIndex <= c.config.maxWindow
  }

  /** The batch after those loaded is sent, and the next one asked for, exactly when the window leaves
      room; a turn without room does nothing at all. */
  lemma BatchIsSentIffRoom(c: Client)
    requires c.pendingBatches > 0
    ensures var c' := Step(c, BatchTurn(Sent));
      && c'.pendingBatches == c.pendingBatches - 1
      && (Room(c) ==>
            && c'.batches == c.batches + [Batch(c.lastLoadedIndex + 1 + c.config.perMessage, c.lastLoadedIndex + 1, c.config.perMessage, false)]
            && c'.lastLoadedIndex == c.lastLoadedIndex + c.config.perMessage
            && c'.batchTimers == c.batchTimers + 1)
      && (!Room(c) ==> c' == c.(pendingBatches := c.pendingBatches - 1))
  {
  }

  /** The turns in which a batch is sent. */
  predicate Sends(c: Client, e: Event) { e == BatchTurn(Sent) && Room(c) }

  /** How many of the first events satisfy a predicate of their state and themselves. */
  ghost function Times(states: seq<Client>, events: seq<Event>, p: (Client, Event) -> bool, i: nat): int
    requires i <= |events| < |states|
  {
    if i == 0 then 0 else Times(states, events, p, i - 1) + if p(states[i-1], events[i-1]) then 1 else 0
  }

  function IsSend(): (Client, Event) -> bool { (c: Client, e: Event) => Sends(c, e) }

  function IsTimer(): (Client, Event) -> bool { (c: Client, e: Event) => e.BatchTimer? }

  function IsBatchTurn(): (Client, Event) -> bool { (c: Client, e: Event) => e.BatchTurn? }

  function IsAddress(): (Client, Event) -> bool { (c: Client, e: Event) => e.Receive? && e.item.AddressItem? && !c.aborted }

  /** What one turn adds to the batches, the timers and the turns asked for. */
  lemma StepCounts(c: Client, e: Event)
    requires Enabled(c, e)
    ensures var c' := Step(c, e);
      var sent, timer := if Sends(c, e) then 1 else 0, if e.BatchTimer? then 1 else 0;
      && |c'.batches| == |c.batches| + sent
      && c'.batchTimers == c.batchTimers + sent - timer
      && c'.pendingBatches == c.pendingBatches + timer + (if IsAddress()(c, e) then 1 else 0) - if e.BatchTurn? then 1 else 0
  {
  }

  /** In every run: the start message and one batch for each turn with room are sent; each batch starts one
      timer; a turn is asked for by each address that arrives and each timer that fires. */
  lemma {:induction false} BatchesAreCounted(states: seq<Client>, events: seq<Event>, config: Config, i: nat)
    requires Run(states, events, config) && i <= |events|
    ensures |states[i].batches| == (if config.mode == ManualStream then 1 else 0) + Times(states, events, IsSend(), i)
    ensures states[i].batchTimers == Times(states, events, IsSend(), i) - Times(states, events, IsTimer(), i)
    ensures states[i].pendingBatches
         == Times(states, events, IsAddress(), i) + Times(states, events, IsTimer(), i) - Times(states, events, IsBatchTurn(), i)
  {
    if i > 0 {
      BatchesAreCounted(states, events, config, i - 1);
      assert Follows(states, events, i - 1);
      StepCounts(states[i-1], events[i-1]);
    }
  }

  predicate HeardAddress(c: Client) { exists k :: 0 <= k < |c.received| && c.received[k].AddressItem? }

  /** Room is left to fill only while a batch turn or its timer is to come. */
  predicate Filling(c: Client) {
    HeardAddress(c) && Room(c) ==> c.pendingBatches + c.batchTimers > 0
  }

  lemma RoomComesFromAddresses(c: Client, e: Event)
    requires Filling(c) && Enabled(c, e)
    ensures Filling(Step(c, e))
  {
    var c' := Step(c, e);
    StepCounts(c, e);
    if HeardAddress(c') && Room(c') && !(e.Receive? && e.item.AddressItem?) {
      SameRoom(c, e);
    }
  }

  lemma SameRoom(c: Client, e: Event)
    requires Enabled(c, e) && Room(Step(c, e)) && !(e.Receive? && e.item.AddressItem?)
    requires HeardAddress(Step(c, e))
    ensures HeardAddress(c) && (Room(c) || Sends(c, e))
    ensures e.BatchTurn? ==> Sends(c, e) || !Room(c)
  {
    if e.Receive? {
      TurnHearsNothing(Enqueued(c, e.item));
    } else if e.Resume? || e.ShutdownDrain? {
      TurnHearsNothing(c);
    }
  }

  /** Once an address has come back, the client never stops offering addresses while its window leaves
      room: a batch turn or its timer is always to come. */
  lemma {:induction false} WindowIsFilled(states: seq<Client>, events: seq<Event>, config: Config, i: nat)
    requires Run(states, events, config) && i < |states|
    ensures HeardAddress(states[i]) && Room(states[i]) ==> states[i].pendingBatches + states[i].batchTimers > 0
  {
    if i > 0 {
      WindowIsFilled(states, events, config, i - 1);
      assert Follows(states, events, i - 1);
      RoomComesFromAddresses(states[i-1], events[i-1]);
    }
  }

  // ----- the processor -----

  /** Each turn of the loop takes the first item to store it; it stops exactly when the stream is aborted or
      nothing is left. */
  lemma ProcessorTakesNext(c: Client)
    requires c.phase == Yielding
    ensures var c' := Step(c, Resume);
      && c'.received == c.received && c'.stored == c.stored
      && if c.aborted || c.items == [] then c'.phase == Idle && c'.items == c.items
         else c'.phase == Storing(c.items[0]) && c'.items == c.items[1..]
  {
  }

  /** What is left to do when no message arrives any more: two turns for each item. */
  function TurnsLeft(c: Client): nat {
    2 * |c.items| + match c.phase
                    case Idle => 0
                    case Storing(_) => 2
                    case Yielding => 1
  }

  /** The client once its processor has run on undisturbed. */
  function Settled(c: Client): Client
    decreases TurnsLeft(c)
  {
    match c.phase
    case Idle => c
    case Storing(_) => Settled(Step(c, StoreDone))
    case Yielding =>
      if c.aborted || c.items == [] then Step(c, Resume) else Settled(Step(c, Resume))
  }

  lemma {:induction false} SettledStores(c: Client)
    requires Delivery(c) && Awake(c)
    ensures Settled(c).phase == Idle && Settled(c).received == c.received && Settled(c).aborted == c.aborted
    ensures !c.aborted ==> Settled(c).stored == c.received
    decreases TurnsLeft(c)
  {
    match c.phase
    case Idle => IdleHasStored(c);
    case Storing(_) =>
      StepDelivers(c, StoreDone);
      SettledStores(Step(c, StoreDone));
    case Yielding =>
      StepDelivers(c, Resume);
      ProcessorTakesNext(c);
      if c.aborted || c.items == [] {
        IdleHasStored(Step(c, Resume));
      } else {
        SettledStores(Step(c, Resume));
      }
  }

  /** In any state of any run, a processor left to itself stops, and unless the stream was aborted it has
      then stored everything received. */
  lemma ProcessorSettles(states: seq<Client>, events: seq<Event>, config: Config, i: nat)
    requires Run(states, events, config) && i < |states|
    ensures Settled(states[i]).phase == Idle && Settled(states[i]).received == states[i].received
    ensures !states[i].aborted ==> Settled(states[i]).stored == states[i].received
  {
    RunInv(states, events, config, i);
    SettledStores(states[i]);
  }

  lemma IdleHasStored(c: Client)
    requires Delivery(c) && Awake(c) && c.phase == Idle
    ensures !c.aborted ==> c.stored == c.received
  {
    assert c.stored + [] + [] == c.stored;
  }
}
