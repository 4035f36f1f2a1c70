/** The `StreamManager` object of src/sync/stream.ts: its mutable fields and its linked-list item
    queue. Every method is one turn, or a part of one, and is proved to do to the abstract client
    what `StreamClient` says; the laws of every run are proved there and in `StreamProtocol`. */
module StreamManager {
  import opened Wrappers
  import opened StreamClient
  import opened StreamRuns
  import LinkedQueue

  class StreamManager {
    const config: Config
    const itemQueue: LinkedQueue.Queue<Item>
    var lastLoadedIndex: int
    var lastReceivedIndex: int
    var lastAcked: int
    var lastSeenSeq: int
    var lastProcSeq: int
    var hasReceivedEndStream: bool
    var aborted: bool
    var errorMessage: Option<string>
    var isProcessingQueue: bool
    /** The suspended `processQueue` frame. */
    var phase: Phase
    var pendingBatches: nat
    var batchTimers: nat
    ghost var received: seq<Item>
    ghost var stored: seq<Item>
    ghost var acks: seq<int>
    ghost var endAcks: seq<int>
    ghost var batches: seq<Batch>

    ghost predicate Valid()
      reads this, itemQueue, itemQueue.Spine
    {
      itemQueue.Valid() && (isProcessingQueue <==> phase != Idle)
    }

    /** The abstract client this object stands for. */
    ghost function Abs(): Client
      reads this, itemQueue
    {
      Client(config, lastLoadedIndex, lastReceivedIndex, lastAcked, lastSeenSeq, lastProcSeq,
             hasReceivedEndStream, aborted, errorMessage, itemQueue.Contents, phase,
             pendingBatches, batchTimers, received, stored, acks, endAcks, batches)
    }

    /** The constructor and the start message. */
    constructor (config: Config)
      ensures Valid() && Abs() == StreamClient.Start(config) && fresh(itemQueue) && itemQueue.Spine == []
    {
      this.config := config;
      itemQueue := new LinkedQueue.Queue<Item>();
      lastLoadedIndex, lastReceivedIndex := config.startIndex - 1, -1;
      lastAcked, lastSeenSeq, lastProcSeq := -1, -1, -1;
      hasReceivedEndStream, aborted, errorMessage := false, false, None;
      isProcessingQueue, phase, pendingBatches, batchTimers := false, Idle, 0, 0;
      received, stored, acks, endAcks, batches := [], [], [], [], [];
      new;
      if config.mode == ManualStream {
        batches := [Batch(lastLoadedIndex + 1, lastLoadedIndex + 1, config.perMessage, true)];
        lastLoadedIndex := lastLoadedIndex + config.perMessage;
      }
    }

    method ShouldACK() returns (b: bool)
      requires Valid()
      ensures b <==> ShouldAck(Abs())
    {
      if config.window == 0 {
        return false;
      }
      var size := itemQueue.Size();
      b := !hasReceivedEndStream && !aborted
        && 2 * (lastSeenSeq - lastAcked) > config.window
        && 2 * (lastProcSeq - lastAcked) > config.window
        && 2 * size <= config.window;
    }

    method SendAck()
      requires Valid()
      modifies this
      ensures Valid() && Abs() == Ack(old(Abs()))
    {
      var should := ShouldACK();
      if !should {
        return;
      }
      lastAcked := lastSeenSeq;
      acks := acks + [lastSeenSeq];
    }

    method NextItem() returns (item: Option<Item>)
      requires Valid()
      modifies itemQueue
      ensures Valid() && (item == None <==> old(Abs()).items == [])
      ensures item == None ==> Abs() == old(Abs())
      ensures item.Some? ==> item.value == old(Abs()).items[0] && Abs() == old(Abs()).(items := old(Abs()).items[1..])
    {
      item := itemQueue.Dequeue();
    }

    method Suspend(at: Phase)
      requires Valid()
      modifies this
      ensures Valid() && Abs() == old(Abs()).(phase := at)
    {
      isProcessingQueue, phase := at != Idle, at;
    }

    /** The body of the `while (true)` loop up to its next await. */
    method LoopTurn()
      requires Valid()
      modifies this, itemQueue
      ensures Valid() && Abs() == StreamClient.LoopTurn(old(Abs()))
    {
      if aborted {
        Suspend(Idle);
        return;
      }
      var item := NextItem();
      SendAck();
      if item == None {
        Suspend(Idle);
        return;
      }
      lastProcSeq := item.value.seqno;
      Suspend(Storing(item.value));
    }

    method ProcessQueue()
      requires Valid()
      modifies this, itemQueue
      ensures Valid() && Abs() == StreamClient.ProcessQueue(old(Abs()))
    {
      if isProcessingQueue {
        return;
      }
      PhaseIsOverwritten(Abs(), Yielding);
      Suspend(Yielding);
      LoopTurn();
    }

    method Push(item: Item)
      requires Valid()
      modifies this, itemQueue, itemQueue.Spine
      ensures Valid()
      ensures Abs() == old(Abs()).(items := old(Abs()).items + [item], received := old(Abs()).received + [item])
    {
      var enqueued := itemQueue.Enqueue(item);
      received := received + [item];
    }

    method AddTx(seqno: int, tx: string)
      requires Valid()
      modifies this, itemQueue, itemQueue.Spine
      ensures Valid() && Abs() == AddItem(old(Abs()), VertexItem(seqno, tx))
    {
      lastSeenSeq := seqno;
      Push(VertexItem(seqno, tx));
      assert Abs() == Enqueued(old(Abs()), VertexItem(seqno, tx));
      ProcessQueue();
    }

    method AddAddress(seqno: int, index: int, address: string)
      requires Valid()
      modifies this, itemQueue, itemQueue.Spine
      ensures Valid() && Abs() == AddItem(old(Abs()), AddressItem(seqno, address, index))
    {
      if index > lastReceivedIndex {
        lastReceivedIndex := index;
      }
      lastSeenSeq := seqno;
      Push(AddressItem(seqno, address, index));
      assert Abs() == Enqueued(old(Abs()), AddressItem(seqno, address, index));
      ProcessQueue();
    }

    method AbortWithError(error: string)
      requires Valid()
      modifies this
      ensures Valid() && Abs() == StreamClient.AbortWithError(old(Abs()), error)
    {
      errorMessage := Some(error);
      aborted := true;
    }

    method GenerateBatch(outcome: BatchOutcome)
      requires Valid()
      modifies this
      ensures Valid() && Abs() == StreamClient.GenerateBatch(old(Abs()), outcome)
    {
      if aborted || hasReceivedEndStream || config.mode != ManualStream {
        return;
      }
      var distance := lastLoadedIndex - lastReceivedIndex;
      if distance > config.maxWindow - config.perMessage {
        return;
      }
      LoadBatch(outcome);
    }

    /** The rest of the closure, once the window leaves room. */
    method LoadBatch(outcome: BatchOutcome)
      requires Valid()
      modifies this
      ensures Valid() && Abs() == StreamClient.LoadBatch(old(Abs()), outcome)
    {
      match outcome
      case DeriveThrows(e) =>
        AbortWithError(e);
      case SendThrows(e) =>
        lastLoadedIndex := lastLoadedIndex + config.perMessage;
        AbortWithError(e);
      case Sent =>
        SendBatch();
    }

    method SendBatch()
      requires Valid()
      modifies this
      ensures Valid() && Abs() == StreamClient.LoadBatch(old(Abs()), Sent)
    {
      var start := lastLoadedIndex + 1;
      lastLoadedIndex := lastLoadedIndex + config.perMessage;
      batches := batches + [Batch(lastLoadedIndex + 1, start, config.perMessage, false)];
      batchTimers := batchTimers + 1;
    }

    /** One item message. */
    method ReceiveItem(item: Item)
      requires Valid() && !aborted
      modifies this, itemQueue, itemQueue.Spine
      ensures Valid() && Abs() == Step(old(Abs()), Receive(item))
    {
      match item
      case VertexItem(seqno, tx) =>
        AddTx(seqno, tx);
      case AddressItem(seqno, address, index) =>
        AddAddress(seqno, index, address);
        pendingBatches := pendingBatches + 1;
    }

    /** One turn of the listener on a message without an item. */
    method Listen(e: Event)
      requires Valid() && (e.ReceiveEnd? || e.ReceiveError? || e.ConnectionAborted?)
      modifies this
      ensures Valid() && Abs() == Step(old(Abs()), e)
    {
      if aborted {
        return;
      }
      match e
      case ReceiveEnd(seqno) =>
        hasReceivedEndStream := true;
        endAcks := endAcks + [seqno];
      case ReceiveError(errmsg) =>
        AbortWithError(errmsg);
      case ConnectionAborted =>
        AbortWithError("Stream aborted");
    }

    /** One turn of a batch closure or of its timer. */
    method BatchEvent(e: Event)
      requires Valid() && Enabled(Abs(), e) && (e.BatchTurn? || e.BatchTimer?)
      modifies this
      ensures Valid() && Abs() == Step(old(Abs()), e)
    {
      match e
      case BatchTurn(outcome) =>
        pendingBatches := pendingBatches - 1;
        GenerateBatch(outcome);
      case BatchTimer =>
        batchTimers, pendingBatches := batchTimers - 1, pendingBatches + 1;
    }

    /** One turn of the listener, of the suspended processor, or of a timer. */
    method Turn(e: Event)
      requires Valid() && Enabled(Abs(), e)
      modifies this, itemQueue, itemQueue.Spine
      ensures Valid() && Abs() == Step(old(Abs()), e)
    {
      match e
      case Receive(item) =>
        if !aborted {
          ReceiveItem(item);
        }
      case ReceiveBegin(_) =>
      case ReceiveOtherStream =>
      case ReceiveEnd(_) =>
        Listen(e);
      case ReceiveError(_) =>
        Listen(e);
      case ConnectionAborted =>
        Listen(e);
      case StoreDone =>
        stored := stored + [phase.item];
        phase := Yielding;
      case Resume =>
        LoopTurn();
      case BatchTurn(_) =>
        BatchEvent(e);
      case BatchTimer =>
        BatchEvent(e);
      case ShutdownDrain =>
        ProcessQueue();
    }

    /** The end of `shutdown`, once the processor has stopped or the wait has timed out, after any run. It
        fails when it timed out, and else with the message of the event that aborted the stream, if there
        was one and it is not empty. */
    method FinishShutdown(timedOut: bool, ghost states: seq<Client>, ghost events: seq<Event>) returns (r: Result<(), string>)
      requires Valid() && (!isProcessingQueue || timedOut)
      requires Run(states, events, config) && Abs() == states[|events|]
      modifies this
      ensures r == ShutdownResult(old(Abs()), timedOut)
      ensures timedOut ==> r == Err("Stream could not gracefully shutdown due to timeout.")
      ensures !timedOut ==> (r.Ok? <==> !Failed(states, events))
      ensures forall k :: 0 <= k < |events| && Fails(states[k], events[k]) && !timedOut ==>
        r == Err(AbortMessage(states[k], events[k]).value)
    {
      ShutdownAnswer(states, events, config, timedOut);
      if timedOut {
        errorMessage := Some("Stream could not gracefully shutdown due to timeout.");
      }
      if errorMessage.Some? && errorMessage.value != "" {
        return Err(errorMessage.value);
      }
      r := Ok(());
    }
  }
}
