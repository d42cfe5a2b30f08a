# Bee: query-peer selection and message ingestion, in Dafny

This project models two sequential decision procedures of the Bee node and
proves what they promise.

1. **Autopeering query selection** (`bee-network/bee-autopeering/src/discovery/query.rs`).
   - The reverify tick picks the oldest active peer.
   - The query tick picks the latest verified peer plus one of the three
     "heaviest" remaining peers: those whose last answer brought the most new
     peers.
   - The heaviest three are found by a single-pass fold with ten guarded arms.
   - The model proves several properties of this fold:
     - it fills its slots in order;
     - it keeps them in ascending order;
     - it holds exactly `min(k, 3)` peers after `k` inputs;
     - it keeps input peers only;
     - no peer it leaves out is heavier than the lightest peer it keeps.
   - It follows that the two `unwrap`s in that code can never fail.
   - The random index is a parameter `r` with `r < min(|verified| - 1, 3)`.
2. **The message processor loop body** (`bee-protocol/src/worker/message/processor.rs`).
   - One ingestion event is applied to a state made of the tangle, the
     requested-messages map, the protocol counters and the per-peer known
     counters.
   - The step yields the new state and the list of messages sent to the
     notifier, propagator, broadcaster, message requester and milestone
     validator.
   - The reject paths are proved, as are the new and known branches.
   - Three per-event properties are proved:
     - exactly one reply when a notifier is present;
     - parent de-duplication;
     - broadcast only of unrequested new messages.
   - Over a whole run of events, two more are proved:
     - every id is propagated at most once, and only when it is new;
     - a request disappears exactly when its message is accepted.

Modules: `Wrappers` (Option), `Seqs` (Distinct), `Query`, `QueryExamples` (the source's
test scenarios), `Processor` (one event), `ProcessorRuns` (a queue of events).

Two abstractions stand in for code this model does not contain:
- Message decoding and the Blake2b digest are the two function-valued fields
  of `Codec`. Nothing is assumed about them except that the digest has 32 bytes.
- The proof-of-work score is a `real`.

The step function `Processor.Process` models the loop body at
processor.rs:83-221. It dispatches to `Reject` (lines 92-142), `OnNew`
(lines 150-210) and `OnKnown` (lines 211-221). These four functions carry
no postconditions of their own. What they do is stated by the lemmas in the
table below: `ProcessFrame`, `ProcessNotNew`, the `Rejects*` lemmas,
`AcceptsNewMessage`, `DuplicateIsAcknowledged` and the others. Three smaller
parts do have rows of their own:
- `Notify`, used on every path: the replies sent through `notify_err` and `notify_message_id` (lines 231-241);
- `Routing`, part of `OnNew`: the match on the requested-messages map (lines 165-193);
- `Validation`, part of `OnNew`: the match on the payload (lines 195-210).

## Model

| member | source | states |
|---|---|---|
| Query.PeerToReverify | bee-network/bee-autopeering/src/discovery/query.rs:66-68 | None exactly when the active list has no oldest entry; otherwise the id of that oldest entry, which is a member of the list |
| Query.ReverifyTick | bee-network/bee-autopeering/src/discovery/query.rs:29-62 | at most one verification is started; none exactly when the active list is empty; the one started is for the oldest peer |
| Query.Place | bee-network/bee-autopeering/src/discovery/query.rs:128-156 | one fold step keeps the slots filled in order x, y, z, fills one more unless all three are full, and keeps them ascending in new-peer count; every guarded unwrap touches a filled slot |
| Query.PlaceFills | bee-network/bee-autopeering/src/discovery/query.rs:133-145 | while a slot is free, the step keeps every peer it had and adds the newcomer |
| Query.PlaceEvicts | bee-network/bee-autopeering/src/discovery/query.rs:146-153 | on a full triple the step drops exactly one peer (the newcomer if lighter than the lightest, else the lightest), and every kept peer weighs at least the dropped one and the old minimum |
| Query.Heaviest3 | bee-network/bee-autopeering/src/discovery/query.rs:125-156 | the fold's triple is filled in order, ascending, and holds exactly min(k, 3) peers after k inputs |
| Query.PlaceRanked | bee-network/bee-autopeering/src/discovery/query.rs:133-154 | one step preserves the rank bound: with k filled slots, at most k - 1 inputs are strictly heavier than x, k - 2 than y, k - 3 than z |
| Query.Heaviest3Ranked | bee-network/bee-autopeering/src/discovery/query.rs:125-156 | after the whole fold with k filled slots, at most k - 1 inputs are strictly heavier than x, k - 2 than y, k - 3 than z (so none than a full triple's z) |
| Query.Heaviest3KeepsInputs | bee-network/bee-autopeering/src/discovery/query.rs:125-156 | the kept peers form a sub-multiset of the inputs, so each slot holds a distinct input element |
| Query.Heaviest3KeepsFew | bee-network/bee-autopeering/src/discovery/query.rs:133-145 | with at most three inputs the fold keeps all of them |
| Query.Heaviest3KeepsTop | bee-network/bee-autopeering/src/discovery/query.rs:133-154 | every input the fold leaves out has at most as many new peers as the lightest kept peer |
| Query.ChosenSlotFilled | bee-network/bee-autopeering/src/discovery/query.rs:158-167 | for every r below min(k, 3) the chosen slot is filled, so the unwrap cannot fail; its peer is an input with fewer than 3 - r strictly heavier inputs |
| Query.SelectPeersToQuery | bee-network/bee-autopeering/src/discovery/query.rs:109-170 | below three verified peers: all their ids in order; otherwise exactly two ids: the head's, then that of a non-head peer with fewer than three strictly heavier non-head peers; how the pick depends on the random index is stated by the three lemmas below |
| Query.Slot | bee-network/bee-autopeering/src/discovery/query.rs:158-164 | a filled pick is one of the kept peers; on a triple filled in order, slot r is filled exactly when r is below the number of kept peers |
| Query.PicksAreKept | bee-network/bee-autopeering/src/discovery/query.rs:158-167 | from three verified peers on, every random index picks the id of a peer the fold kept |
| Query.KeptArePicked | bee-network/bee-autopeering/src/discovery/query.rs:158-167 | conversely, every peer the fold kept is picked by some random index in range |
| Query.DistinctIndicesPickDistinctPeers | bee-network/bee-autopeering/src/discovery/query.rs:158-167 | with unique peer ids, two different random indices pick two different peers |
| Query.SelectedIdsDistinct | bee-network/bee-autopeering/src/discovery/query.rs:124-169 | with unique peer ids the selected ids are pairwise distinct, so the heavy pick is never the latest peer |
| Query.QueryTick | bee-network/bee-autopeering/src/discovery/query.rs:73-105 | one discovery per selected id, in order, the first for the latest peer; none exactly when no peer is verified; min(n, 2) in all |
| Query.QueryTickDistinct | bee-network/bee-autopeering/src/discovery/query.rs:73-105 | with unique peer ids no peer is queried twice in one tick |
| QueryExamples.ThreePeers | bee-network/bee-autopeering/src/discovery/query.rs:212-225 | three peers weighted by index: peer 0 first, then peer 1 or 2, for every random index |
| QueryExamples.TenPeers | bee-network/bee-autopeering/src/discovery/query.rs:227-245 | ten peers weighted by index: peer 0 first, then peer 7, 8 or 9 |
| QueryExamples.TenPeersRotated | bee-network/bee-autopeering/src/discovery/query.rs:247-259 | after two forward rotations: the entry at index 0 first, then the entry at index 1, 8 or 9 |
| QueryExamples.TieKeepsLaterPeer | bee-network/bee-autopeering/src/discovery/query.rs:147-149 | a newcomer equal in weight to the lightest kept peer replaces it: the later peer wins the tie |
| Processor.Notify | bee-protocol/src/worker/message/processor.rs:231-241 | a present notifier gets exactly the given reply, once; an absent one gets nothing |
| Processor.Routing | bee-protocol/src/worker/message/processor.rs:165-193 | every action is a parent request or the broadcast of the packet with its source; the broadcast is sent exactly when the id was not requested |
| Processor.Validation | bee-protocol/src/worker/message/processor.rs:195-210 | only `ValidateMilestone(id)` is sent, and it is sent exactly for a milestone payload |
| Processor.Insert | bee-protocol/src/worker/message/processor.rs:150 | the message is stored exactly when its id is absent, with the given metadata; the tangle's keys become the old keys plus that id and no stored entry changes |
| Processor.RequestParents | bee-protocol/src/worker/message/processor.rs:165-182 | parent1 is requested first; parent2 is requested too; both requests carry the requester's index; one request when the parents coincide, two distinct ones otherwise |
| Processor.ProcessFrame | bee-protocol/src/worker/message/processor.rs:92-221 | the tangle only gains the event's own id and never changes a stored entry; only that id's request can be consumed; exactly one counter goes up by one; the tangle grows exactly when the new-messages counter does |
| Processor.ProcessNotNew | bee-protocol/src/worker/message/processor.rs:92-221 | any other event leaves the tangle and the requested messages unchanged and emits only notifier replies |
| Processor.OnNewRepliesOnce | bee-protocol/src/worker/message/processor.rs:150-210 | the new-message branch replies exactly once when a notifier is present, and otherwise never |
| Processor.OnNewSends | bee-protocol/src/worker/message/processor.rs:150-203 | the new-message branch sends the Ok reply (with a notifier) and the propagation; it broadcasts when unrequested, validates a milestone, and requests both parents when requested |
| Processor.OnNewSendsOnly | bee-protocol/src/worker/message/processor.rs:150-210 | the new-message branch sends nothing else: each action is one of those, under its condition |
| Processor.OnNewDistinct | bee-protocol/src/worker/message/processor.rs:150-203 | the new-message branch never sends the same action twice; a parent named twice is requested once |
| Processor.ProcessRepliesOnce | bee-protocol/src/worker/message/processor.rs:97-220 | every path replies exactly once when a notifier is present, and otherwise never |
| Processor.RejectsUndecodable | bee-protocol/src/worker/message/processor.rs:92-101 | an undecodable packet only raises the invalid counter and sends the InvalidMessage error to a present notifier |
| Processor.RejectsForeignNetwork | bee-protocol/src/worker/message/processor.rs:104-115 | a foreign network id only raises the invalid counter and sends the error naming both ids to a present notifier |
| Processor.RejectsInsufficientPow | bee-protocol/src/worker/message/processor.rs:117-142 | a score below the minimum only raises the invalid counter and sends the error naming score and minimum; requested messages and tangle are untouched |
| Processor.InvalidIffInadmissible | bee-protocol/src/worker/message/processor.rs:92-142 | the invalid counter rises exactly for inadmissible events, which leave tangle, requests and peer counters unchanged |
| Processor.RequestedFlagRecordsLookup | bee-protocol/src/worker/message/processor.rs:144-150 | the stored metadata of a new message says whether its id was requested before the insertion, and records the arrival time |
| Processor.AcceptsNewMessage | bee-protocol/src/worker/message/processor.rs:150-193 | a new message is acknowledged exactly when a notifier is present and is propagated; only the new-messages counter rises; its request is removed; parents are requested with the request's index if it was requested; the packet is broadcast with its source exactly when it was not; no action is sent twice, so parents that coincide are requested once (line 173) |
| Processor.MilestoneOnlyOnNewInsert | bee-protocol/src/worker/message/processor.rs:195-203 | the milestone validator is sent something exactly when the message is newly stored with a milestone payload, and only that message's id |
| Processor.BroadcastOnlyUnrequestedNew | bee-protocol/src/worker/message/processor.rs:184-192 | a broadcast happens exactly when the message is newly stored and was not requested |
| Processor.DuplicateIsAcknowledged | bee-protocol/src/worker/message/processor.rs:211-221 | a known message leaves tangle and requests unchanged, raises the known counter and the sending peer's counter if that peer is tracked, and sends only the Ok reply |
| Processor.OnNewPropagatesOnce | bee-protocol/src/worker/message/processor.rs:159-161 | the new-message branch propagates its own id exactly once and no other id |
| Processor.PropagatesExactlyTheNewId | bee-protocol/src/worker/message/processor.rs:150-193 | a step propagates an id once if it added that id to the tangle and otherwise never; a request disappears exactly when its id is propagated |
| Processor.ReprocessingIsIdempotent | bee-protocol/src/worker/message/processor.rs:150-221 | processing the same admissible event again changes neither tangle nor requests and sends only the Ok reply |
| ProcessorRuns.Run | bee-protocol/src/worker/message/processor.rs:83-222 | over a queue of events the tangle only grows, requests only shrink (parent requests are emitted, not recorded in the map), the counters rise by exactly one per event, and the tangle grows by the number of new messages |
| ProcessorRuns.RunRepliesPerNotifier | bee-protocol/src/worker/message/processor.rs:83-222 | a run sends as many replies as its events had notifiers |
| ProcessorRuns.RunPropagatesEachNewIdOnce | bee-protocol/src/worker/message/processor.rs:83-222 | over a run each id is propagated once if the run added it to the tangle, and never otherwise |
| ProcessorRuns.RunConsumesRequestOnAcceptance | bee-protocol/src/worker/message/processor.rs:83-222 | an outstanding request is gone at the end of a run exactly when its message was propagated during the run |

## Left out

- The spawned tasks of `reverify_fn` and `query_fn`: verification, discovery and peer removal. Their code (`manager::begin_verification`, `begin_discovery`, `remove_peer_from_active_list`) is not part of this model. Each tick returns the verifications or discoveries it would start.
- `manager::get_verified_peers` and the `ActivePeersList` internals are not part of this model.
  - The verified peers are an input sequence, newest first.
  - The oldest active peer is the last entry of the active list.
  - The forward rotation in the test scenarios is written out as "the last entry moves to the front".
- `thread_rng().gen_range(0..len)` becomes the parameter `r`. Its uniform distribution is not modelled.
- `Message::unpack` and Blake2b are foreign library code. They are uninterpreted functions in `Codec`.
- The pow score is an `f64`; the model uses `real`. NaN, for which `pow_score < minimum` is false, is not modelled.
- Counters are unbounded naturals; the wrap-around of the source's integer counters is not modelled.
- `helper::request_message` is not part of this model. It is an emitted `RequestParent(parent, index)` action, and its own checks and its effect on the requested-messages map are not modelled.
- The channel sends are emitted actions. Send failures only log, so they are not modelled. Neither are logging and the async loop plumbing.
- The `Indexation` payload branch has no effect in the source and has none in the model.
- In the source, other workers can change the requested-messages map between the lookup (line 144) and the removal (line 165). The model processes one event atomically, so the flag and the routing always agree.
- Two behaviours worth noting:
  - The message id is computed before the proof-of-work check (lines 117-124), not after all checks. It has no effect on the state.
  - On a tie in new-peer count the fold keeps the later peer (lines 139, 145 and 149), not the earlier one. `QueryExamples.TieKeepsLaterPeer` shows an instance.
