/** The flow control of the history stream: the client of `StreamClient`, a server that never
    sends past the last acknowledgement it has seen plus the window, and a network that keeps
    order and may delay both directions for as long as it likes. */
module StreamProtocol {
  import opened Wrappers
  import opened StreamClient

  datatype Message = Begin(seqno: int) | Data(item: Item) | End(seqno: int) {
    function Seq(): int {
      match this
      case Begin(s) => s
      case Data(item) => item.seqno
      case End(s) => s
    }
  }

  /** `ackedCount` of the client's acknowledgements have reached the server. */
  datatype System = System(
    client: Client,
    toClient: seq<Message>,
    ackedCount: nat,
    lastSent: int)

  datatype Action =
    | ServerSends(message: Message)
    | Deliver
    | AckArrives
    | ClientTurn(event: Event)

  function Init(config: Config): System { System(Start(config), [], 0, -1) }

  /** The last acknowledgement the server has seen, -1 before the first. */
  function ServerAcked(s: System): int
    requires s.ackedCount <= |s.client.acks|
  {
    if s.ackedCount == 0 then -1 else s.client.acks[s.ackedCount - 1]
  }

  function EventOf(m: Message): Event {
    match m
    case Begin(n) => ReceiveBegin(n)
    case Data(item) => Receive(item)
    case End(n) => ReceiveEnd(n)
  }

  /** Turns the network does not take part in. */
  predicate Internal(e: Event) {
    e.StoreDone? || e.Resume? || e.BatchTurn? || e.BatchTimer? || e.ShutdownDrain?
    || e.ReceiveError? || e.ConnectionAborted? || e.ReceiveOtherStream?
  }

  ghost predicate Allowed(s: System, a: Action) {
    && s.ackedCount <= |s.client.acks|
    && match a
       case ServerSends(m) =>
         && m.Seq() > s.lastSent
         && (m.Begin? ==> s.lastSent == -1)
         && (s.client.config.window > 0 ==> m.Seq() <= ServerAcked(s) + s.client.config.window)
       case Deliver => s.toClient != []
       case AckArrives => s.ackedCount < |s.client.acks|
       case ClientTurn(e) => Internal(e) && Enabled(s.client, e)
  }

  ghost function Next(s: System, a: Action): System
    requires Allowed(s, a)
  {
    match a
    case ServerSends(m) => s.(toClient := s.toClient + [m], lastSent := m.Seq())
    case Deliver => s.(client := Step(s.client, EventOf(s.toClient[0])), toClient := s.toClient[1..])
    case AckArrives => s.(ackedCount := s.ackedCount + 1)
    case ClientTurn(e) => s.(client := Step(s.client, e))
  }

  ghost predicate Execution(states: seq<System>, actions: seq<Action>, config: Config) {
    && |states| == |actions| + 1
    && states[0] == Init(config)
    && forall i :: 0 <= i < |actions| ==> Allowed(states[i], actions[i]) && states[i+1] == Next(states[i], actions[i])
  }

  // ----- what holds of the messages on their way -----

  ghost predicate ChannelOrdered(s: System) {
    && (forall i :: 0 <= i < |s.toClient| ==> s.client.lastSeenSeq < s.toClient[i].Seq() <= s.lastSent)
    && (forall i, j :: 0 <= i < j < |s.toClient| ==> s.toClient[i].Seq() < s.toClient[j].Seq())
    && s.client.lastSeenSeq <= s.lastSent
  }

  ghost predicate WindowRespected(s: System) {
    && s.ackedCount <= |s.client.acks|
    && (s.client.config.window > 0 ==> s.lastSent <= s.client.lastAcked + s.client.config.window)
  }

  /** Half a window may be queued at an acknowledgement, a whole one may arrive after it. */
  ghost predicate QueueBounded(c: Client) {
    c.config.window > 0 ==> 2 * |c.items| <= c.config.window + 2 * (c.lastSeenSeq - c.lastAcked)
  }

  /** Once everything sent has arrived, the last message sent is the last item seen, unless only
      the begin message was sent, the stream ended, or the client stopped listening. */
  ghost predicate NothingSkipped(s: System) {
    s.toClient == [] && !s.client.aborted && !s.client.ended ==>
      s.lastSent == s.client.lastSeenSeq || s.client.lastSeenSeq == -1
  }

  ghost predicate LastOnChannel(s: System) {
    s.toClient != [] ==> s.toClient[|s.toClient| - 1].Seq() == s.lastSent
  }

  ghost predicate BeginIsFirst(s: System) {
    && s.client.lastSeenSeq >= -1
    && forall i :: 0 <= i < |s.toClient| && s.toClient[i].Begin? ==> i == 0 && s.client.lastSeenSeq == -1
  }

  ghost predicate SysInv(s: System) {
    && Inv(s.client) && AcksSpaced(s.client) && IdleIsAcked(s.client) && QueueBounded(s.client)
    && ChannelOrdered(s) && WindowRespected(s)
    && LastOnChannel(s) && NothingSkipped(s) && BeginIsFirst(s)
  }

  lemma InitInv(config: Config)
    ensures SysInv(Init(config))
  {
    StartInv(config);
    NothingSent(Start(config));
  }

  lemma NothingSent(c: Client)
    requires Inv(c) && AcksSpaced(c) && IdleIsAcked(c) && c.items == [] && c.lastSeenSeq == c.lastAcked == -1
    ensures SysInv(System(c, [], 0, -1))
  {
  }

  lemma AcksMonotone(c: Client, i: nat, j: nat)
    requires AcksSpaced(c) && i <= j < |c.acks|
    ensures c.acks[i] <= c.acks[j]
    decreases j - i
  {
    if i < j {
      AcksMonotone(c, i + 1, j);
    }
  }

  lemma ServerLags(s: System)
    requires AcksSpaced(s.client) && s.ackedCount <= |s.client.acks|
    ensures ServerAcked(s) <= s.client.lastAcked
  {
    if s.ackedCount > 0 {
      AcksMonotone(s.client, s.ackedCount - 1, |s.client.acks| - 1);
    } else if s.client.acks != [] {
      AcksMonotone(s.client, 0, |s.client.acks| - 1);
    }
  }

  /** A turn only ever appends acknowledgements, so `lastAcked` never falls. */
  lemma AcksOnlyGrow(c: Client, e: Event)
    requires Enabled(c, e) && AcksSpaced(c)
    ensures Grown(c, Step(c, e))
  {
    match e
    case Receive(item) => LoopTurnGrows(c, Enqueued(c, item));
    case Resume => LoopTurnGrows(c, c);
    case ShutdownDrain => LoopTurnGrows(c, c);
    case BatchTurn(outcome) => BatchKeepsAcks(c.(pendingBatches := c.pendingBatches - 1), outcome);
    case _ =>
  }

  predicate Grown(c: Client, c': Client) { c.acks <= c'.acks && c'.lastAcked >= c.lastAcked }

  lemma LoopTurnGrows(c: Client, c': Client)
    requires AcksSpaced(c) && c'.acks == c.acks && c'.lastAcked == c.lastAcked && c'.config == c.config
    ensures Grown(c, LoopTurn(c'))
  {
  }

  lemma BatchKeepsAcks(c: Client, outcome: BatchOutcome)
    ensures GenerateBatch(c, outcome).acks == c.acks && GenerateBatch(c, outcome).lastAcked == c.lastAcked
  {
  }

  lemma StepQueueBound(c: Client, e: Event)
    requires Enabled(c, e) && QueueBounded(c) && c.lastAcked <= c.lastSeenSeq
    requires e.Receive? ==> e.item.seqno > c.lastSeenSeq
    ensures QueueBounded(Step(c, e))
  {
  }

  lemma StepSeen(c: Client, e: Event)
    requires Enabled(c, e)
    ensures Step(c, e).lastSeenSeq == if e.Receive? && !c.aborted then e.item.seqno else c.lastSeenSeq
    ensures c.aborted ==> Step(c, e).aborted
    ensures Step(c, e).ended == (c.ended || (e.ReceiveEnd? && !c.aborted))
  {
  }

  lemma ClientInv(c: Client, e: Event)
    requires Inv(c) && AcksSpaced(c) && IdleIsAcked(c) && QueueBounded(c) && Enabled(c, e)
    requires e.Receive? ==> e.item.seqno > c.lastSeenSeq
    ensures Inv(Step(c, e)) && AcksSpaced(Step(c, e)) && IdleIsAcked(Step(c, e)) && QueueBounded(Step(c, e))
  {
    StepInv(c, e);
    StepAcks(c, e);
    StepQueueBound(c, e);
  }

  lemma SendInv(s: System, m: Message)
    requires SysInv(s) && Allowed(s, ServerSends(m))
    ensures SysInv(Next(s, ServerSends(m)))
  {
    ServerLags(s);
    SendKeepsChannel(s, Next(s, ServerSends(m)), m);
  }

  lemma SendKeepsChannel(s: System, s': System, m: Message)
    requires ChannelOrdered(s) && WindowRespected(s) && LastOnChannel(s) && NothingSkipped(s) && BeginIsFirst(s)
    requires m.Seq() > s.lastSent && (m.Begin? ==> s.lastSent == -1)
    requires s.client.config.window > 0 ==> m.Seq() <= s.client.lastAcked + s.client.config.window
    requires s' == s.(toClient := s.toClient + [m], lastSent := m.Seq())
    ensures ChannelOrdered(s') && WindowRespected(s') && LastOnChannel(s') && NothingSkipped(s') && BeginIsFirst(s')
  {
  }

  /** What the messages on their way need to know of a client that took a step. */
  ghost predicate Advanced(c: Client, c': Client) {
    && c.acks <= c'.acks && c.lastAcked <= c'.lastAcked && c'.config == c.config
    && (c.aborted ==> c'.aborted) && (c.ended ==> c'.ended)
  }

  ghost predicate Channel(s: System) {
    ChannelOrdered(s) && WindowRespected(s) && LastOnChannel(s) && NothingSkipped(s) && BeginIsFirst(s)
  }

  lemma ChannelAfterTurn(s: System, c': Client)
    requires Channel(s) && Advanced(s.client, c') && c'.lastSeenSeq == s.client.lastSeenSeq
    ensures Channel(s.(client := c'))
  {
  }

  lemma ChannelAfterDelivery(s: System, c': Client)
    requires Channel(s) && s.toClient != [] && Advanced(s.client, c')
    requires var m := s.toClient[0];
      && c'.lastSeenSeq == (if m.Data? && !s.client.aborted then m.Seq() else s.client.lastSeenSeq)
      && (m.End? && !s.client.aborted ==> c'.ended)
    ensures Channel(s.(client := c', toClient := s.toClient[1..]))
  {
    var t := s.(client := c', toClient := s.toClient[1..]);
    assert forall i :: 0 <= i < |t.toClient| ==> t.toClient[i] == s.toClient[i+1];
    assert ChannelOrdered(t) && BeginIsFirst(t);
  }

  lemma DeliverInv(s: System)
    requires SysInv(s) && Allowed(s, Deliver)
    ensures SysInv(Next(s, Deliver))
  {
    var e := EventOf(s.toClient[0]);
    ClientInv(s.client, e);
    AcksOnlyGrow(s.client, e);
    StepSeen(s.client, e);
    ChannelAfterDelivery(s, Step(s.client, e));
  }

  lemma TurnInv(s: System, e: Event)
    requires SysInv(s) && Internal(e) && Enabled(s.client, e)
    ensures SysInv(s.(client := Step(s.client, e)))
  {
    var c := Step(s.client, e);
    ClientInv(s.client, e);
    AcksOnlyGrow(s.client, e);
    StepSeen(s.client, e);
    ChannelAfterTurn(s, c);
    Together(s.(client := c));
  }

  lemma Together(s: System)
    requires Inv(s.client) && AcksSpaced(s.client) && IdleIsAcked(s.client) && QueueBounded(s.client) && Channel(s)
    ensures SysInv(s)
  {
  }

  lemma NextInv(s: System, a: Action)
    requires SysInv(s) && Allowed(s, a)
    ensures SysInv(Next(s, a))
  {
    match a
    case ServerSends(m) => SendInv(s, m);
    case Deliver => DeliverInv(s);
    case AckArrives =>
    case ClientTurn(e) => TurnInv(s, e);
  }

  lemma {:induction false} ExecutionInv(states: seq<System>, actions: seq<Action>, config: Config, i: nat)
    requires Execution(states, actions, config) && i < |states|
    ensures SysInv(states[i]) && states[i].client.config == config
  {
    if i == 0 {
      InitInv(config);
    } else {
      ExecutionInv(states, actions, config, i - 1);
      NextInv(states[i-1], actions[i-1]);
    }
  }

  /** The client never buffers more than a window and a half. */
  lemma QueueNeverExceedsWindowAndAHalf(states: seq<System>, actions: seq<Action>, config: Config, i: nat)
    requires Execution(states, actions, config) && i < |states| && config.window > 0
    ensures 2 * |states[i].client.items| <= 3 * config.window
  {
    ExecutionInv(states, actions, config, i);
  }

  /** Acknowledgements follow what was seen and successive ones are more than half a window apart. */
  lemma AcksAreHonestAndSparse(states: seq<System>, actions: seq<Action>, config: Config, i: nat, j: nat)
    requires Execution(states, actions, config) && i < |states| && j < |states[i].client.acks|
    ensures states[i].client.acks[j] <= states[i].client.lastSeenSeq
    ensures 2 * (states[i].client.acks[j] - (if j == 0 then -1 else states[i].client.acks[j-1])) > config.window
  {
    ExecutionInv(states, actions, config, i);
    AcksMonotone(states[i].client, j, |states[i].client.acks| - 1);
    if j > 0 {
      assert 2 * (states[i].client.acks[j-1+1] - states[i].client.acks[j-1]) > config.window;
    }
  }

  /** Client and server never both wait. When everything sent has arrived in both directions and
      the client is idle, it has acknowledged all but half a window, and the window lets the server
      send its next message. The begin message takes a number without being acknowledged, so right
      after it the server needs a window of at least two. */
  lemma NeverBothWait(states: seq<System>, actions: seq<Action>, config: Config, i: nat)
    requires Execution(states, actions, config) && i < |states| && config.window > 0
    requires states[i].toClient == [] && states[i].ackedCount == |states[i].client.acks|
    requires states[i].client.phase == Idle && !states[i].client.aborted && !states[i].client.ended
    ensures 2 * (states[i].client.lastSeenSeq - states[i].client.lastAcked) <= config.window
    ensures states[i].lastSent == states[i].client.lastSeenSeq ==>
      Allowed(states[i], ServerSends(Data(VertexItem(states[i].lastSent + 1, ""))))
    ensures states[i].lastSent != states[i].client.lastSeenSeq ==>
      && states[i].client.lastSeenSeq == -1
      && (Allowed(states[i], ServerSends(Data(VertexItem(states[i].lastSent + 1, ""))))
          <==> states[i].lastSent + 1 < config.window)
  {
    ExecutionInv(states, actions, config, i);
    if states[i].client.acks != [] {
      AcksMonotone(states[i].client, 0, |states[i].client.acks| - 1);
    }
  }

  /** With a window of one, a stream that opens with a begin message is stuck from the start: the
      server may not send message 1 before an acknowledgement, and the client has nothing to
      acknowledge. */
  lemma WindowOfOneIsStuck()
    returns (states: seq<System>, actions: seq<Action>, config: Config)
    ensures Execution(states, actions, config) && config.window == 1
    ensures var s := states[|actions|];
      && s.toClient == [] && s.ackedCount == |s.client.acks| && s.client.phase == Idle
      && forall m: Message :: !Allowed(s, ServerSends(m))
  {
    config := Config(XpubStream, 0, 1, 600, 40);
    actions := [ServerSends(Begin(0)), Deliver];
    var s0 := Init(config);
    var s1 := Next(s0, actions[0]);
    var s2 := Next(s1, actions[1]);
    states := [s0, s1, s2];
  }
}
