/**
 * One iteration of the message processor worker: a received message packet
 * is decoded, checked against the node's network id and the minimum proof of
 * work score, identified by its digest, and stored in the tangle unless it is
 * already there. The result is the new node state plus the messages the
 * worker sends to the notifier, the propagator, the broadcaster, the message
 * requester and the milestone validator.
 *
 * Decoding and the Blake2b digest are library calls whose code is not part of
 * this model: they are the two function-valued fields of `Codec`, about which
 * nothing is assumed beyond the digest's 32-byte length.
 */
module Processor {
  import opened Wrappers
  import opened Seqs

  newtype Byte = b: int | 0 <= b < 256

  /** Length in bytes of a message id. */
  const MessageIdLength := 32

  type MessageId = s: seq<Byte> | |s| == MessageIdLength witness seq(MessageIdLength, i => 0 as Byte)

  /** Network-level identity of the peer a packet came from. */
  datatype PeerId = PeerId(key: nat)

  datatype Payload = Transaction | Milestone | Indexation

  /** The decoded fields the worker reads. */
  datatype Message = Message(networkId: nat, parent1: MessageId, parent2: MessageId, payload: Option<Payload>)

  /** Metadata created on arrival; `requested` tells whether the message answered a request. */
  datatype MessageMetadata = MessageMetadata(arrivalTimestamp: nat, requested: bool)

  datatype Stored = Stored(message: Message, metadata: MessageMetadata)

  /** An outstanding request: the milestone index it was made for and when. */
  datatype Request = Request(index: nat, requestedAt: nat)

  datatype Metrics = Metrics(invalidMessages: nat, newMessages: nat, knownMessages: nat)

  /** The resources the worker touches: the tangle, the requested messages,
      the protocol metrics and the per-peer known-message counters. */
  datatype State = State(
    tangle: map<MessageId, Stored>,
    requested: map<MessageId, Request>,
    metrics: Metrics,
    peerKnownMessages: map<PeerId, nat>)

  /** The worker configuration: the protocol's minimum score and the network id. */
  datatype Config = Config(minimumPowScore: real, networkId: nat)

  datatype Codec = Codec(unpack: seq<Byte> -> Option<Message>, digest: seq<Byte> -> MessageId)

  /** One queued event; `notifier` tells whether a local submitter awaits a reply. */
  datatype Event = Event(powScore: real, from: Option<PeerId>, packet: seq<Byte>, notifier: bool)

  datatype RejectReason =
    | InvalidMessage
    | IncompatibleNetworkId(found: nat, expected: nat)
    | InsufficientPowScore(score: real, minimum: real)

  /** What the worker sends to other parties. */
  datatype Action =
    | NotifyOk(id: MessageId)
    | NotifyErr(reason: RejectReason)
    | Propagate(id: MessageId)
    | Broadcast(source: Option<PeerId>, packet: seq<Byte>)
    | RequestParent(parent: MessageId, index: nat)
    | ValidateMilestone(id: MessageId)

  datatype Step = Step(state: State, actions: seq<Action>)

  // ---------------------------------------------------------------------
  // Reference predicates: which branch an event takes
  // ---------------------------------------------------------------------

  /** The packet decodes, carries this node's network id and enough proof of work. */
  predicate Admissible(cfg: Config, codec: Codec, e: Event) {
    && codec.unpack(e.packet).Some?
    && codec.unpack(e.packet).value.networkId == cfg.networkId
    && e.powScore >= cfg.minimumPowScore
  }

  /** The event is admissible and its id is not in the tangle yet. */
  predicate IsNew(cfg: Config, codec: Codec, s: State, e: Event) {
    Admissible(cfg, codec, e) && codec.digest(e.packet) !in s.tangle
  }

  predicate IsReply(a: Action) {
    a.NotifyOk? || a.NotifyErr?
  }

  /** The number of replies to a notifier among `acts`. */
  function Replies(acts: seq<Action>): nat {
    if |acts| == 0 then 0
    else (if IsReply(acts[0]) then 1 else 0) + Replies(acts[1..])
  }

  lemma {:induction false} RepliesAppend(a: seq<Action>, b: seq<Action>)
    ensures Replies(a + b) == Replies(a) + Replies(b)
  {
    if |a| == 0 {
      assert a + b == b;
    } else {
      assert (a + b)[0] == a[0];
      assert (a + b)[1..] == a[1..] + b;
      RepliesAppend(a[1..], b);
    }
  }

  function TotalMessages(m: Metrics): nat {
    m.invalidMessages + m.newMessages + m.knownMessages
  }

  /** The tangle only ever gains entries; a stored entry never changes. */
  predicate TangleGrows(before: map<MessageId, Stored>, after: map<MessageId, Stored>) {
    forall k | k in before :: k in after && after[k] == before[k]
  }

  /** Requests only ever disappear; a kept request never changes. */
  predicate RequestsShrink(before: map<MessageId, Request>, after: map<MessageId, Request>) {
    forall k | k in after :: k in before && after[k] == before[k]
  }

  // ---------------------------------------------------------------------
  // The step
  // ---------------------------------------------------------------------

  /** The reply to the notifier, if there is one; the notifier is used at most once. */
  function Notify(e: Event, reply: Action): (acts: seq<Action>)
    requires IsReply(reply)
    ensures Replies(acts) == (if e.notifier then 1 else 0)
    ensures forall a | a in acts :: a == reply
  {
    if e.notifier then [reply] else []
  }

  /** The insert-if-absent contract of the tangle: it returns the message
      exactly when the id was new, and leaves a present entry untouched. */
  datatype Insertion = Insertion(tangle: map<MessageId, Stored>, inserted: Option<Message>)

  function Insert(tangle: map<MessageId, Stored>, id: MessageId, message: Message, metadata: MessageMetadata): (ins: Insertion)
    ensures ins.inserted.Some? <==> id !in tangle
    ensures TangleGrows(tangle, ins.tangle) && ins.tangle.Keys == tangle.Keys + {id}
    ensures ins.inserted.Some? ==> ins.inserted.value == message && ins.tangle[id] == Stored(message, metadata)
  {
    if id in tangle then Insertion(tangle, None)
    else Insertion(tangle[id := Stored(message, metadata)], Some(message))
  }

  /** A rejected packet: counted as invalid, reported to the notifier, nothing stored. */
  function Reject(s: State, e: Event, reason: RejectReason): Step {
    Step(s.(metrics := s.metrics.(invalidMessages := s.metrics.invalidMessages + 1)), Notify(e, NotifyErr(reason)))
  }

  /** Requests for the parents of a requested message, with the requester's
      index; a parent named twice is requested once. */
  function RequestParents(message: Message, index: nat): (acts: seq<Action>)
    ensures |acts| == (if message.parent1 == message.parent2 then 1 else 2)
    ensures Distinct(acts)
    ensures acts[0] == RequestParent(message.parent1, index)
    ensures RequestParent(message.parent2, index) in acts
    ensures forall a | a in acts ::
      a.RequestParent? && a.index == index && (a.parent == message.parent1 || a.parent == message.parent2)
  {
    [RequestParent(message.parent1, index)]
      + (if message.parent1 != message.parent2 then [RequestParent(message.parent2, index)] else [])
  }

  /** Where a new message goes besides the propagator: a message that
      answered a request has its parents requested in turn, any other is
      handed to the broadcaster with its source. */
  function Routing(s: State, e: Event, id: MessageId, message: Message): (acts: seq<Action>)
    ensures forall a | a in acts :: a.RequestParent? || a == Broadcast(e.from, e.packet)
    ensures Broadcast(e.from, e.packet) in acts <==> id !in s.requested
  {
    if id in s.requested then RequestParents(message, s.requested[id].index)
    else [Broadcast(e.from, e.packet)]
  }

  /** A new milestone is handed to the milestone validator. */
  function Validation(id: MessageId, message: Message): (acts: seq<Action>)
    ensures forall a | a in acts :: a == ValidateMilestone(id)
    ensures acts != [] <==> message.payload == Some(Milestone)
  {
    if message.payload == Some(Milestone) then [ValidateMilestone(id)] else []
  }

  /** Handling of a newly stored message: acknowledged, counted, its request
      consumed, propagated, then routed and validated. */
  function OnNew(s: State, e: Event, tangle: map<MessageId, Stored>, id: MessageId, message: Message): Step {
    Step(State(tangle, s.requested - {id}, s.metrics.(newMessages := s.metrics.newMessages + 1), s.peerKnownMessages),
         Notify(e, NotifyOk(id)) + [Propagate(id)] + Routing(s, e, id, message) + Validation(id, message))
  }

  /** Handling of a message the tangle already holds. */
  function OnKnown(s: State, e: Event, id: MessageId): Step {
    var metrics := s.metrics.(knownMessages := s.metrics.knownMessages + 1);
    var peers :=
      match e.from
      case Some(peer) =>
        if peer in s.peerKnownMessages then s.peerKnownMessages[peer := s.peerKnownMessages[peer] + 1]
        else s.peerKnownMessages
      case None => s.peerKnownMessages;
    Step(s.(metrics := metrics, peerKnownMessages := peers), Notify(e, NotifyOk(id)))
  }

  /** One event of the worker loop. The id is computed before the proof of
      work check, as in the source; it only matters once that check passes. */
  function Process(cfg: Config, codec: Codec, now: nat, s: State, e: Event): Step
  {
    match codec.unpack(e.packet)
    case None => Reject(s, e, InvalidMessage)
    case Some(message) =>
      if message.networkId != cfg.networkId then
        Reject(s, e, IncompatibleNetworkId(message.networkId, cfg.networkId))
      else
        var messageId := codec.digest(e.packet);
        if e.powScore < cfg.minimumPowScore then
          Reject(s, e, InsufficientPowScore(e.powScore, cfg.minimumPowScore))
        else
          var metadata := MessageMetadata(now, messageId in s.requested);
          var insertion := Insert(s.tangle, messageId, message, metadata);
          match insertion.inserted
          case Some(stored) => OnNew(s, e, insertion.tangle, messageId, stored)
          case None => OnKnown(s, e, messageId)
  }

  // ---------------------------------------------------------------------
  // Properties of one step
  // ---------------------------------------------------------------------

  /** Whatever the event, the tangle only gains the event's own id, a
      request can only be consumed for that id, and exactly one of the three
      counters goes up; the tangle grows by one exactly when the new-message
      counter does. */
  lemma ProcessFrame(cfg: Config, codec: Codec, now: nat, s: State, e: Event)
    ensures var r := Process(cfg, codec, now, s, e);
      && TangleGrows(s.tangle, r.state.tangle)
      && r.state.tangle.Keys <= s.tangle.Keys + {codec.digest(e.packet)}
      && RequestsShrink(s.requested, r.state.requested)
      && s.requested.Keys - r.state.requested.Keys <= {codec.digest(e.packet)}
      && TotalMessages(r.state.metrics) == TotalMessages(s.metrics) + 1
      && s.metrics.invalidMessages <= r.state.metrics.invalidMessages
      && s.metrics.newMessages <= r.state.metrics.newMessages
      && s.metrics.knownMessages <= r.state.metrics.knownMessages
      && |r.state.tangle| == |s.tangle| + (r.state.metrics.newMessages - s.metrics.newMessages)
  {
    var r := Process(cfg, codec, now, s, e);
    if IsNew(cfg, codec, s, e) {
      var id := codec.digest(e.packet);
      var tangle := s.tangle[id := Stored(codec.unpack(e.packet).value, MessageMetadata(now, id in s.requested))];
      ProcessNew(cfg, codec, now, s, e);
      assert r.state.tangle == tangle && |tangle| == |s.tangle| + 1;
    } else {
      ProcessNotNew(cfg, codec, now, s, e);
      assert r.state.metrics.newMessages == s.metrics.newMessages by {
        if Admissible(cfg, codec, e) {
          assert r == OnKnown(s, e, codec.digest(e.packet));
        }
      }
    }
  }

  /** An admissible event with an unseen id takes the new-message path. */
  lemma ProcessNew(cfg: Config, codec: Codec, now: nat, s: State, e: Event)
    requires IsNew(cfg, codec, s, e)
    ensures var id := codec.digest(e.packet);
      var message := codec.unpack(e.packet).value;
      Process(cfg, codec, now, s, e)
        == OnNew(s, e, s.tangle[id := Stored(message, MessageMetadata(now, id in s.requested))], id, message)
  {
  }

  /** Every other event leaves the tangle and the requests alone and only replies. */
  lemma ProcessNotNew(cfg: Config, codec: Codec, now: nat, s: State, e: Event)
    requires !IsNew(cfg, codec, s, e)
    ensures var r := Process(cfg, codec, now, s, e);
      && r.state.tangle == s.tangle
      && r.state.requested == s.requested
      && forall a | a in r.actions :: IsReply(a)
  {
  }

  lemma {:induction false} NoReplies(acts: seq<Action>)
    requires forall a | a in acts :: !IsReply(a)
    ensures Replies(acts) == 0
  {
    if |acts| > 0 {
      assert acts[0] in acts;
      NoReplies(acts[1..]);
    }
  }

  lemma OnNewRepliesOnce(s: State, e: Event, tangle: map<MessageId, Stored>, id: MessageId, message: Message)
    ensures Replies(OnNew(s, e, tangle, id, message).actions) == (if e.notifier then 1 else 0)
  {
    var notify := Notify(e, NotifyOk(id));
    var routing := Routing(s, e, id, message);
    var validation := Validation(id, message);
    assert Replies([Propagate(id)]) == 0 by { NoReplies([Propagate(id)]); }
    assert Replies(routing) == 0 by { NoReplies(routing); }
    assert Replies(validation) == 0 by { NoReplies(validation); }
    assert OnNew(s, e, tangle, id, message).actions == notify + [Propagate(id)] + routing + validation;
    RepliesAppend(notify + [Propagate(id)] + routing, validation);
    RepliesAppend(notify + [Propagate(id)], routing);
    RepliesAppend(notify, [Propagate(id)]);
  }

  /** The actions a new message's step is sure to contain. */
  lemma OnNewSends(s: State, e: Event, tangle: map<MessageId, Stored>, id: MessageId, message: Message)
    ensures var acts := OnNew(s, e, tangle, id, message).actions;
      && (e.notifier ==> NotifyOk(id) in acts)
      && Propagate(id) in acts
      && (id !in s.requested ==> Broadcast(e.from, e.packet) in acts)
      && (message.payload == Some(Milestone) ==> ValidateMilestone(id) in acts)
      && (id in s.requested ==>
            && RequestParent(message.parent1, s.requested[id].index) in acts
            && RequestParent(message.parent2, s.requested[id].index) in acts)
  {
    var notify := Notify(e, NotifyOk(id));
    var routing := Routing(s, e, id, message);
    var validation := Validation(id, message);
    var acts := notify + [Propagate(id)] + routing + validation;
    assert OnNew(s, e, tangle, id, message).actions == acts;
    if id in s.requested {
      assert routing == RequestParents(message, s.requested[id].index);
    }
    if validation != [] {
      assert acts[|acts| - 1] == validation[0];
    }
    if e.notifier {
      assert acts[0] == NotifyOk(id);
    }
  }

  /** Every action of a new message's step, classified; none other is sent. */
  lemma OnNewSendsOnly(s: State, e: Event, tangle: map<MessageId, Stored>, id: MessageId, message: Message)
    ensures var acts := OnNew(s, e, tangle, id, message).actions;
      forall a | a in acts ::
        || (a == NotifyOk(id) && e.notifier) || a == Propagate(id)
        || (a == Broadcast(e.from, e.packet) && id !in s.requested)
        || (a == ValidateMilestone(id) && message.payload == Some(Milestone))
        || (a.RequestParent? && id in s.requested && a.index == s.requested[id].index
            && (a.parent == message.parent1 || a.parent == message.parent2))
  {
    var notify := Notify(e, NotifyOk(id));
    var routing := Routing(s, e, id, message);
    var validation := Validation(id, message);
    assert OnNew(s, e, tangle, id, message).actions == notify + [Propagate(id)] + routing + validation;
    if id in s.requested {
      assert routing == RequestParents(message, s.requested[id].index);
    }
  }

  /** A new message's step never sends the same action twice: in particular
      a parent named twice is requested once. */
  lemma OnNewDistinct(s: State, e: Event, tangle: map<MessageId, Stored>, id: MessageId, message: Message)
    ensures Distinct(OnNew(s, e, tangle, id, message).actions)
  {
    var notify := Notify(e, NotifyOk(id));
    var routing := Routing(s, e, id, message);
    var validation := Validation(id, message);
    if id in s.requested {
      assert routing == RequestParents(message, s.requested[id].index);
    }
    DistinctConcat(notify, [Propagate(id)]);
    DistinctConcat(notify + [Propagate(id)], routing);
    DistinctConcat(notify + [Propagate(id)] + routing, validation);
    assert OnNew(s, e, tangle, id, message).actions == notify + [Propagate(id)] + routing + validation;
  }

  /** Every path answers a present notifier exactly once, and an absent one never. */
  lemma ProcessRepliesOnce(cfg: Config, codec: Codec, now: nat, s: State, e: Event)
    ensures Replies(Process(cfg, codec, now, s, e).actions) == (if e.notifier then 1 else 0)
  {
    if IsNew(cfg, codec, s, e) {
      var id := codec.digest(e.packet);
      var message := codec.unpack(e.packet).value;
      ProcessNew(cfg, codec, now, s, e);
      OnNewRepliesOnce(s, e, s.tangle[id := Stored(message, MessageMetadata(now, id in s.requested))], id, message);
    }
  }

  /** A packet that does not decode is counted invalid, answered with an
      error, and touches nothing else. */
  lemma RejectsUndecodable(cfg: Config, codec: Codec, now: nat, s: State, e: Event)
    requires codec.unpack(e.packet).None?
    ensures Process(cfg, codec, now, s, e).state
              == s.(metrics := s.metrics.(invalidMessages := s.metrics.invalidMessages + 1))
    ensures Process(cfg, codec, now, s, e).actions == (if e.notifier then [NotifyErr(InvalidMessage)] else [])
  {
  }

  /** A message of another network is counted invalid and answered with an
      error naming both ids; the tangle and the requests are not touched. */
  lemma RejectsForeignNetwork(cfg: Config, codec: Codec, now: nat, s: State, e: Event)
    requires codec.unpack(e.packet).Some?
    requires codec.unpack(e.packet).value.networkId != cfg.networkId
    ensures Process(cfg, codec, now, s, e).state
              == s.(metrics := s.metrics.(invalidMessages := s.metrics.invalidMessages + 1))
    ensures Process(cfg, codec, now, s, e).actions
              == (if e.notifier
                  then [NotifyErr(IncompatibleNetworkId(codec.unpack(e.packet).value.networkId, cfg.networkId))]
                  else [])
  {
  }

  /** A message below the minimum score is rejected before the requests are
      read or the tangle is written. */
  lemma RejectsInsufficientPow(cfg: Config, codec: Codec, now: nat, s: State, e: Event)
    requires codec.unpack(e.packet).Some? && codec.unpack(e.packet).value.networkId == cfg.networkId
    requires e.powScore < cfg.minimumPowScore
    ensures Process(cfg, codec, now, s, e).state
              == s.(metrics := s.metrics.(invalidMessages := s.metrics.invalidMessages + 1))
    ensures Process(cfg, codec, now, s, e).actions
              == (if e.notifier then [NotifyErr(InsufficientPowScore(e.powScore, cfg.minimumPowScore))] else [])
  {
  }

  /** Exactly the inadmissible events are counted invalid, and they leave the
      tangle, the requests and the peer counters as they were. */
  lemma InvalidIffInadmissible(cfg: Config, codec: Codec, now: nat, s: State, e: Event)
    ensures var r := Process(cfg, codec, now, s, e);
      && (r.state.metrics.invalidMessages == s.metrics.invalidMessages + 1 <==> !Admissible(cfg, codec, e))
      && (!Admissible(cfg, codec, e) ==>
            r.state.tangle == s.tangle && r.state.requested == s.requested
            && r.state.peerKnownMessages == s.peerKnownMessages)
  {
  }

  /** The stored metadata records whether the id was requested before the
      insertion, and the arrival time. */
  lemma RequestedFlagRecordsLookup(cfg: Config, codec: Codec, now: nat, s: State, e: Event)
    requires IsNew(cfg, codec, s, e)
    ensures var id := codec.digest(e.packet);
      && id in Process(cfg, codec, now, s, e).state.tangle
      && Process(cfg, codec, now, s, e).state.tangle[id]
           == Stored(codec.unpack(e.packet).value, MessageMetadata(now, id in s.requested))
  {
  }

  /** A new message is acknowledged, propagated and counted; its request, if
      any, is consumed and its parents requested with the same index, and
      otherwise the packet is broadcast with its source; no action is sent
      twice, so parents that coincide are requested once. */
  lemma AcceptsNewMessage(cfg: Config, codec: Codec, now: nat, s: State, e: Event)
    requires IsNew(cfg, codec, s, e)
    ensures var id := codec.digest(e.packet);
      var message := codec.unpack(e.packet).value;
      var r := Process(cfg, codec, now, s, e);
      && (NotifyOk(id) in r.actions <==> e.notifier)
      && Propagate(id) in r.actions
      && r.state.metrics == s.metrics.(newMessages := s.metrics.newMessages + 1)
      && r.state.requested == s.requested - {id}
      && r.state.peerKnownMessages == s.peerKnownMessages
      && (id in s.requested ==>
            && RequestParent(message.parent1, s.requested[id].index) in r.actions
            && RequestParent(message.parent2, s.requested[id].index) in r.actions)
      && (forall a | a in r.actions && a.RequestParent? ::
            id in s.requested && a.index == s.requested[id].index
            && (a.parent == message.parent1 || a.parent == message.parent2))
      && (Broadcast(e.from, e.packet) in r.actions <==> id !in s.requested)
      && Distinct(r.actions)
  {
    var id := codec.digest(e.packet);
    var message := codec.unpack(e.packet).value;
    var tangle := s.tangle[id := Stored(message, MessageMetadata(now, id in s.requested))];
    ProcessNew(cfg, codec, now, s, e);
    OnNewSends(s, e, tangle, id, message);
    OnNewSendsOnly(s, e, tangle, id, message);
    OnNewDistinct(s, e, tangle, id, message);
  }

  /** The milestone validator hears of a message exactly when it is newly
      stored and carries a milestone payload, and only of that message. */
  lemma MilestoneOnlyOnNewInsert(cfg: Config, codec: Codec, now: nat, s: State, e: Event)
    ensures var r := Process(cfg, codec, now, s, e);
      (exists a :: a in r.actions && a.ValidateMilestone?)
        <==> IsNew(cfg, codec, s, e) && codec.unpack(e.packet).value.payload == Some(Milestone)
    ensures var r := Process(cfg, codec, now, s, e);
      forall a | a in r.actions && a.ValidateMilestone? :: a.id == codec.digest(e.packet)
  {
    if IsNew(cfg, codec, s, e) {
      var id := codec.digest(e.packet);
      var message := codec.unpack(e.packet).value;
      var tangle := s.tangle[id := Stored(message, MessageMetadata(now, id in s.requested))];
      ProcessNew(cfg, codec, now, s, e);
      OnNewSends(s, e, tangle, id, message);
      OnNewSendsOnly(s, e, tangle, id, message);
    } else {
      ProcessNotNew(cfg, codec, now, s, e);
    }
  }

  /** The broadcaster gets a packet exactly when its message is newly stored
      without having been requested. */
  lemma BroadcastOnlyUnrequestedNew(cfg: Config, codec: Codec, now: nat, s: State, e: Event)
    ensures var r := Process(cfg, codec, now, s, e);
      (exists a :: a in r.actions && a.Broadcast?)
        <==> IsNew(cfg, codec, s, e) && codec.digest(e.packet) !in s.requested
  {
    if IsNew(cfg, codec, s, e) {
      var id := codec.digest(e.packet);
      var message := codec.unpack(e.packet).value;
      var tangle := s.tangle[id := Stored(message, MessageMetadata(now, id in s.requested))];
      ProcessNew(cfg, codec, now, s, e);
      OnNewSends(s, e, tangle, id, message);
      OnNewSendsOnly(s, e, tangle, id, message);
    } else {
      ProcessNotNew(cfg, codec, now, s, e);
    }
  }

  /** A message already in the tangle is counted known (for the sending peer
      too, when that peer is tracked), acknowledged with its id, and changes
      neither the tangle nor the requests; nothing is propagated, broadcast
      or requested. */
  lemma DuplicateIsAcknowledged(cfg: Config, codec: Codec, now: nat, s: State, e: Event)
    requires Admissible(cfg, codec, e) && codec.digest(e.packet) in s.tangle
    ensures var r := Process(cfg, codec, now, s, e);
      && r.state.tangle == s.tangle
      && r.state.requested == s.requested
      && r.state.metrics == s.metrics.(knownMessages := s.metrics.knownMessages + 1)
      && (forall peer | peer in s.peerKnownMessages ::
            peer in r.state.peerKnownMessages
            && r.state.peerKnownMessages[peer]
                 == s.peerKnownMessages[peer] + (if e.from == Some(peer) then 1 else 0))
      && r.state.peerKnownMessages.Keys == s.peerKnownMessages.Keys
      && r.actions == (if e.notifier then [NotifyOk(codec.digest(e.packet))] else [])
  {
  }

  lemma OnNewPropagatesOnce(s: State, e: Event, tangle: map<MessageId, Stored>, x: MessageId, message: Message, id: MessageId)
    ensures multiset(OnNew(s, e, tangle, x, message).actions)[Propagate(id)] == (if id == x then 1 else 0)
  {
    var notify := Notify(e, NotifyOk(x));
    var routing := Routing(s, e, x, message);
    var validation := Validation(x, message);
    assert Propagate(id) !in notify && Propagate(id) !in routing && Propagate(id) !in validation;
  }

  /** The message propagated by a step is exactly the one it added to the
      tangle, and a request disappears exactly when its message is propagated. */
  lemma PropagatesExactlyTheNewId(cfg: Config, codec: Codec, now: nat, s: State, e: Event, id: MessageId)
    ensures var r := Process(cfg, codec, now, s, e);
      multiset(r.actions)[Propagate(id)] == (if id in r.state.tangle && id !in s.tangle then 1 else 0)
    ensures var r := Process(cfg, codec, now, s, e);
      id in s.requested ==> (id !in r.state.requested <==> Propagate(id) in r.actions)
  {
    if IsNew(cfg, codec, s, e) {
      var x := codec.digest(e.packet);
      var message := codec.unpack(e.packet).value;
      ProcessNew(cfg, codec, now, s, e);
      OnNewPropagatesOnce(s, e, s.tangle[x := Stored(message, MessageMetadata(now, x in s.requested))], x, message, id);
    } else {
      ProcessNotNew(cfg, codec, now, s, e);
    }
  }

  /** Processing the same event twice: the second time the message is known,
      the tangle and the requests stay as the first time left them, and only
      the acknowledgement is sent again. */
  lemma ReprocessingIsIdempotent(cfg: Config, codec: Codec, now: nat, later: nat, s: State, e: Event)
    requires Admissible(cfg, codec, e)
    ensures var first := Process(cfg, codec, now, s, e);
      var second := Process(cfg, codec, later, first.state, e);
      && second.state.tangle == first.state.tangle
      && second.state.requested == first.state.requested
      && second.actions == (if e.notifier then [NotifyOk(codec.digest(e.packet))] else [])
  {
    var first := Process(cfg, codec, now, s, e);
    assert codec.digest(e.packet) in first.state.tangle;
    DuplicateIsAcknowledged(cfg, codec, later, first.state, e);
  }
}
