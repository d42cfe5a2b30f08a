/**
 * The worker loop as a whole: events processed one after another against
 * the state the previous event left, until the queue is exhausted.
 */
module ProcessorRuns {
  import opened Processor

  /** A queued event and the clock reading taken when it is handled. */
  datatype Arrival = Arrival(event: Event, now: nat)

  /** The state after every arrival, and all actions in order. Each event
      adds one to exactly one counter, and the tangle grows by one entry per
      new message. */
  function Run(cfg: Config, codec: Codec, s: State, arrivals: seq<Arrival>): (r: Step)
    ensures TangleGrows(s.tangle, r.state.tangle)
    ensures RequestsShrink(s.requested, r.state.requested)
    ensures TotalMessages(r.state.metrics) == TotalMessages(s.metrics) + |arrivals|
    ensures s.metrics.invalidMessages <= r.state.metrics.invalidMessages
    ensures s.metrics.newMessages <= r.state.metrics.newMessages
    ensures s.metrics.knownMessages <= r.state.metrics.knownMessages
    ensures |r.state.tangle| == |s.tangle| + (r.state.metrics.newMessages - s.metrics.newMessages)
    decreases |arrivals|
  {
    if |arrivals| == 0 then Step(s, [])
    else
      var first := Process(cfg, codec, arrivals[0].now, s, arrivals[0].event);
      ProcessFrame(cfg, codec, arrivals[0].now, s, arrivals[0].event);
      var rest := Run(cfg, codec, first.state, arrivals[1..]);
      Step(rest.state, first.actions + rest.actions)
  }

  /** The number of arrivals whose submitter awaits a reply. */
  function Notified(arrivals: seq<Arrival>): nat {
    if |arrivals| == 0 then 0
    else (if arrivals[0].event.notifier then 1 else 0) + Notified(arrivals[1..])
  }

  /** Every submitter waiting for a reply gets exactly one, whatever happens
      to its message. */
  lemma {:induction false} RunRepliesPerNotifier(cfg: Config, codec: Codec, s: State, arrivals: seq<Arrival>)
    ensures Replies(Run(cfg, codec, s, arrivals).actions) == Notified(arrivals)
    decreases |arrivals|
  {
    if |arrivals| > 0 {
      var first := Process(cfg, codec, arrivals[0].now, s, arrivals[0].event);
      var rest := Run(cfg, codec, first.state, arrivals[1..]);
      ProcessRepliesOnce(cfg, codec, arrivals[0].now, s, arrivals[0].event);
      RunRepliesPerNotifier(cfg, codec, first.state, arrivals[1..]);
      RepliesAppend(first.actions, rest.actions);
    }
  }

  /** A message id is propagated once if the run added it to the tangle, and
      never otherwise: duplicates are never propagated twice. */
  lemma {:induction false} RunPropagatesEachNewIdOnce(cfg: Config, codec: Codec, s: State, arrivals: seq<Arrival>, id: MessageId)
    ensures var r := Run(cfg, codec, s, arrivals);
      multiset(r.actions)[Propagate(id)] == (if id in r.state.tangle && id !in s.tangle then 1 else 0)
    decreases |arrivals|
  {
    if |arrivals| > 0 {
      var first := Process(cfg, codec, arrivals[0].now, s, arrivals[0].event);
      var rest := Run(cfg, codec, first.state, arrivals[1..]);
      PropagatesExactlyTheNewId(cfg, codec, arrivals[0].now, s, arrivals[0].event, id);
      RunPropagatesEachNewIdOnce(cfg, codec, first.state, arrivals[1..], id);
      assert multiset(first.actions + rest.actions) == multiset(first.actions) + multiset(rest.actions);
    }
  }

  /** An outstanding request is gone at the end of a run exactly when its
      message was propagated during the run. */
  lemma {:induction false} RunConsumesRequestOnAcceptance(cfg: Config, codec: Codec, s: State, arrivals: seq<Arrival>, id: MessageId)
    requires id in s.requested
    ensures var r := Run(cfg, codec, s, arrivals);
      id !in r.state.requested <==> Propagate(id) in r.actions
    decreases |arrivals|
  {
    if |arrivals| > 0 {
      var first := Process(cfg, codec, arrivals[0].now, s, arrivals[0].event);
      var rest := Run(cfg, codec, first.state, arrivals[1..]);
      PropagatesExactlyTheNewId(cfg, codec, arrivals[0].now, s, arrivals[0].event, id);
      if id in first.state.requested {
        RunConsumesRequestOnAcceptance(cfg, codec, first.state, arrivals[1..], id);
      }
    }
  }
}
