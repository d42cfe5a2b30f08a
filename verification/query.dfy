/**
 * Target selection of the autopeering discovery scheduler: which peer the
 * reverify tick pings, and which peers the query tick asks for new peers.
 *
 * The active peer list is taken newest first (index 0 is the peer verified
 * most recently), so its oldest entry is its last one. The subset of verified
 * peers is an input: how the list computes it is not part of this model.
 */
module Query {
  import opened Wrappers
  import opened Seqs

  /** Opaque identity of an autopeering peer; only equality is used. */
  datatype PeerId = PeerId(key: nat)

  /** An active peer with the two metrics the scheduler reads. */
  datatype ActivePeer = ActivePeer(id: PeerId, verifiedCount: nat, lastNewPeers: nat)

  /** A job a scheduler tick spawns (and never awaits). */
  datatype Task = Verification(peer: PeerId) | Discovery(peer: PeerId)

  function Min(a: int, b: int): int {
    if a <= b then a else b
  }

  /** The ids of `peers`, in order. */
  function Ids(peers: seq<ActivePeer>): (ids: seq<PeerId>)
    ensures |ids| == |peers|
    ensures forall i :: 0 <= i < |peers| ==> ids[i] == peers[i].id
  {
    seq(|peers|, i requires 0 <= i < |peers| => peers[i].id)
  }

  /** No two peers of the list share an id. */
  predicate UniqueIds(peers: seq<ActivePeer>) {
    Distinct(Ids(peers))
  }

  // ---------------------------------------------------------------------
  // Reverification
  // ---------------------------------------------------------------------

  /** The oldest entry of the active list, if there is one. */
  function Oldest(active: seq<ActivePeer>): Option<ActivePeer> {
    if |active| == 0 then None else Some(active[|active| - 1])
  }

  /** The peer the reverify tick pings: the id of the oldest active peer. */
  function PeerToReverify(active: seq<ActivePeer>): (r: Option<PeerId>)
    ensures r.None? <==> active == []
    ensures r.Some? ==> r.value == active[|active| - 1].id
    ensures r.Some? ==> exists p :: p in active && p.id == r.value
  {
    match Oldest(active)
    case None => None
    case Some(p) => Some(p.id)
  }

  /** One reverify tick: at most one verification, of the oldest peer, and none on an empty list. */
  function ReverifyTick(active: seq<ActivePeer>): (tasks: seq<Task>)
    ensures |tasks| <= 1
    ensures tasks == [] <==> active == []
    ensures forall t | t in tasks :: t == Verification(active[|active| - 1].id)
  {
    match PeerToReverify(active)
    case None => []
    case Some(peer) => [Verification(peer)]
  }

  // ---------------------------------------------------------------------
  // The "heaviest three" fold
  // ---------------------------------------------------------------------

  /** The fold's accumulator: three optional peers, meant to be ascending by `lastNewPeers`. */
  datatype Top3 = Top3(x: Option<ActivePeer>, y: Option<ActivePeer>, z: Option<ActivePeer>)

  const NoneYet := Top3(None, None, None)

  function SlotBag(slot: Option<ActivePeer>): multiset<ActivePeer> {
    if slot.Some? then multiset{slot.value} else multiset{}
  }

  /** The peers held by the filled slots. */
  function Kept(t: Top3): multiset<ActivePeer> {
    SlotBag(t.x) + SlotBag(t.y) + SlotBag(t.z)
  }

  /** The number of filled slots. */
  function Size(t: Top3): nat {
    (if t.x.Some? then 1 else 0) + (if t.y.Some? then 1 else 0) + (if t.z.Some? then 1 else 0)
  }

  /** No filled slot follows an empty one. */
  predicate FilledInOrder(t: Top3) {
    (t.y.Some? ==> t.x.Some?) && (t.z.Some? ==> t.y.Some?)
  }

  /** The filled slots are nondecreasing in `lastNewPeers`: x <= y <= z. */
  predicate Ascending(t: Top3) {
    && (t.x.Some? && t.y.Some? ==> t.x.value.lastNewPeers <= t.y.value.lastNewPeers)
    && (t.y.Some? && t.z.Some? ==> t.y.value.lastNewPeers <= t.z.value.lastNewPeers)
  }

  /** The metric of a slot, which must be filled (the source unwraps it). */
  function Num(slot: Option<ActivePeer>): nat
    requires slot.Some?
  {
    slot.value.lastNewPeers
  }

  /** The peer a step onto a full triple discards: the newcomer when it is
      lighter than the lightest kept peer, otherwise that lightest peer. */
  function Evicted(t: Top3, p: ActivePeer): ActivePeer
    requires t.x.Some?
  {
    if p.lastNewPeers < Num(t.x) then p else t.x.value
  }

  /** One step of the fold: the ten guarded arms, in source order. Every
      `Num` below is an unwrap; Dafny checks each is applied to a filled slot
      for every accumulator, whatever its shape. */
  function Place(t: Top3, p: ActivePeer): (r: Top3)
    ensures FilledInOrder(t) ==> FilledInOrder(r) && Size(r) == Min(Size(t) + 1, 3)
    ensures FilledInOrder(t) && Ascending(t) ==> Ascending(r)
  {
    var n := p.lastNewPeers;
    if t.x.None? then Top3(Some(p), t.y, t.z)
    else if t.y.None? && n < Num(t.x) then Top3(Some(p), t.x, t.z)
    else if t.y.None? && n >= Num(t.x) then Top3(t.x, Some(p), t.z)
    else if t.z.None? && n < Num(t.x) then Top3(Some(p), t.x, t.y)
    else if t.z.None? && n < Num(t.y) then Top3(t.x, Some(p), t.y)
    else if t.z.None? && n >= Num(t.y) then Top3(t.x, t.y, Some(p))
    else if n < Num(t.x) then t
    else if n < Num(t.y) then Top3(Some(p), t.y, t.z)
    else if n < Num(t.z) then Top3(t.y, Some(p), t.z)
    else Top3(t.y, t.z, Some(p))
  }

  /** While the triple is not full, a step keeps every peer it held and adds the newcomer. */
  lemma PlaceFills(t: Top3, p: ActivePeer)
    requires FilledInOrder(t) && Size(t) < 3
    ensures Kept(Place(t, p)) == Kept(t) + multiset{p}
  {
    var n := p.lastNewPeers;
    if t.x.None? {
      assert Place(t, p) == Top3(Some(p), None, None);
    } else if t.y.None? {
      var a := t.x.value;
      assert Kept(t) == multiset{a};
      if n < a.lastNewPeers {
        assert Place(t, p) == Top3(Some(p), Some(a), None);
      } else {
        assert Place(t, p) == Top3(Some(a), Some(p), None);
      }
    } else {
      var (a, b) := (t.x.value, t.y.value);
      assert Kept(t) == multiset{a} + multiset{b};
      if n < a.lastNewPeers {
        assert Place(t, p) == Top3(Some(p), Some(a), Some(b));
      } else if n < b.lastNewPeers {
        assert Place(t, p) == Top3(Some(a), Some(p), Some(b));
      } else {
        assert Place(t, p) == Top3(Some(a), Some(b), Some(p));
      }
    }
  }

  /** Once the triple is full, a step discards exactly the evicted peer, which
      is no heavier than anything kept, and the lightest kept metric never drops. */
  lemma PlaceEvicts(t: Top3, p: ActivePeer)
    requires FilledInOrder(t) && Ascending(t) && Size(t) == 3
    ensures Kept(Place(t, p)) + multiset{Evicted(t, p)} == Kept(t) + multiset{p}
    ensures forall q | q in Kept(Place(t, p)) :: Num(t.x) <= q.lastNewPeers && Evicted(t, p).lastNewPeers <= q.lastNewPeers
  {
    var n := p.lastNewPeers;
    var (a, b, c) := (t.x.value, t.y.value, t.z.value);
    assert t == Top3(Some(a), Some(b), Some(c));
    assert Kept(t) == multiset{a} + multiset{b} + multiset{c};
    if n < a.lastNewPeers {
      assert Place(t, p) == t;
    } else if n < b.lastNewPeers {
      assert Place(t, p) == Top3(Some(p), Some(b), Some(c));
    } else if n < c.lastNewPeers {
      assert Place(t, p) == Top3(Some(b), Some(p), Some(c));
    } else {
      assert Place(t, p) == Top3(Some(b), Some(c), Some(p));
    }
  }

  /** The single left-to-right pass over the non-latest verified peers. */
  function Heaviest3(rest: seq<ActivePeer>): (t: Top3)
    ensures FilledInOrder(t) && Ascending(t)
    ensures Size(t) == Min(|rest|, 3)
  {
    if |rest| == 0 then NoneYet
    else Place(Heaviest3(rest[..|rest| - 1]), rest[|rest| - 1])
  }

  /** A nonempty list is its prefix plus its last peer, also as a bag. */
  lemma SplitLast(rest: seq<ActivePeer>)
    requires |rest| > 0
    ensures rest == rest[..|rest| - 1] + [rest[|rest| - 1]]
    ensures multiset(rest) == multiset(rest[..|rest| - 1]) + multiset{rest[|rest| - 1]}
  {
    assert rest == rest[..|rest| - 1] + [rest[|rest| - 1]];
  }

  /** How many peers of `s` have strictly more new peers than `v`. */
  function CountHeavier(s: seq<ActivePeer>, v: nat): nat {
    if |s| == 0 then 0
    else CountHeavier(s[..|s| - 1], v) + (if s[|s| - 1].lastNewPeers > v then 1 else 0)
  }

  lemma {:induction false} CountHeavierBounded(s: seq<ActivePeer>, v: nat)
    ensures CountHeavier(s, v) <= |s|
  {
    if |s| > 0 {
      CountHeavierBounded(s[..|s| - 1], v);
    }
  }

  lemma {:induction false} CountHeavierAntitone(s: seq<ActivePeer>, v: nat, w: nat)
    requires v <= w
    ensures CountHeavier(s, w) <= CountHeavier(s, v)
  {
    if |s| > 0 {
      CountHeavierAntitone(s[..|s| - 1], v, w);
    }
  }

  /** Each kept slot has fewer strictly heavier peers in `s` than slots above it. */
  predicate Ranked(s: seq<ActivePeer>, t: Top3) {
    && (t.x.Some? ==> CountHeavier(s, Num(t.x)) + 1 <= Size(t))
    && (t.y.Some? ==> CountHeavier(s, Num(t.y)) + 2 <= Size(t))
    && (t.z.Some? ==> CountHeavier(s, Num(t.z)) + 3 <= Size(t))
  }

  lemma PlaceRanked(s: seq<ActivePeer>, t: Top3, p: ActivePeer)
    requires FilledInOrder(t) && Ascending(t) && Size(t) == Min(|s|, 3)
    requires Ranked(s, t)
    ensures Ranked(s + [p], Place(t, p))
  {
    var s' := s + [p];
    assert s'[..|s'| - 1] == s;
    var n := p.lastNewPeers;
    CountHeavierBounded(s, n);
    if t.x.Some? && Num(t.x) <= n {
      CountHeavierAntitone(s, Num(t.x), n);
    }
    if t.y.Some? && Num(t.y) <= n {
      CountHeavierAntitone(s, Num(t.y), n);
    }
    if t.z.Some? && Num(t.z) <= n {
      CountHeavierAntitone(s, Num(t.z), n);
    }
  }

  /** Rank property of the fold: the peer in slot i (of k filled slots) is
      outweighed by at most k - 1 - i peers of the input. */
  lemma {:induction false} Heaviest3Ranked(rest: seq<ActivePeer>)
    ensures Ranked(rest, Heaviest3(rest))
  {
    if |rest| > 0 {
      var s := rest[..|rest| - 1];
      Heaviest3Ranked(s);
      SplitLast(rest);
      PlaceRanked(s, Heaviest3(s), rest[|rest| - 1]);
    }
  }

  /** The kept peers are input peers, each kept slot holding a distinct input
      element. */
  lemma {:induction false} Heaviest3KeepsInputs(rest: seq<ActivePeer>)
    ensures Kept(Heaviest3(rest)) <= multiset(rest)
  {
    if |rest| > 0 {
      var s := rest[..|rest| - 1];
      var p := rest[|rest| - 1];
      Heaviest3KeepsInputs(s);
      var t := Heaviest3(s);
      SplitLast(rest);
      if Size(t) < 3 {
        PlaceFills(t, p);
      } else {
        PlaceEvicts(t, p);
      }
      SubBagStep(Kept(t), Kept(Place(t, p)), s, p);
    }
  }

  /** A bag inside the bag of `s`, plus one peer, lies inside the bag of `s + [p]`. */
  lemma SubBagStep(k: multiset<ActivePeer>, k': multiset<ActivePeer>, s: seq<ActivePeer>, p: ActivePeer)
    requires k <= multiset(s)
    requires k' <= k + multiset{p}
    ensures k' <= multiset(s + [p])
  {
    assert multiset(s + [p]) == multiset(s) + multiset{p};
    forall q ensures k'[q] <= multiset(s + [p])[q] {
      assert k[q] <= multiset(s)[q];
      assert k'[q] <= (k + multiset{p})[q];
    }
  }

  /** While there are at most three peers, the fold keeps all of them. */
  lemma {:induction false} Heaviest3KeepsFew(rest: seq<ActivePeer>)
    requires |rest| <= 3
    ensures Kept(Heaviest3(rest)) == multiset(rest)
  {
    if |rest| > 0 {
      var s := rest[..|rest| - 1];
      var p := rest[|rest| - 1];
      var t := Heaviest3(s);
      Heaviest3KeepsFew(s);
      PlaceFills(t, p);
      assert Kept(Heaviest3(rest)) == Kept(t) + multiset{p};
      SplitLast(rest);
    }
  }

  /** Multiset bookkeeping of one step onto a full triple: what is left out
      after the step is what was left out before, plus the evicted peer. */
  lemma LeftOutStep(k: multiset<ActivePeer>, k': multiset<ActivePeer>, s: seq<ActivePeer>, p: ActivePeer, e: ActivePeer)
    requires k <= multiset(s)
    requires k' + multiset{e} == k + multiset{p}
    ensures multiset(s + [p]) - k' == (multiset(s) - k) + multiset{e}
  {
    assert multiset(s + [p]) == multiset(s) + multiset{p};
    forall q ensures (multiset(s + [p]) - k')[q] == ((multiset(s) - k) + multiset{e})[q] {
      assert k[q] <= multiset(s)[q];
      assert (k' + multiset{e})[q] == (k + multiset{p})[q];
    }
  }

  /** Top-3 property of the fold: no input peer left out of the triple is
      heavier than the lightest kept one, slot x. */
  lemma {:induction false} Heaviest3KeepsTop(rest: seq<ActivePeer>)
    ensures forall d | d in multiset(rest) - Kept(Heaviest3(rest)) :: d.lastNewPeers <= Num(Heaviest3(rest).x)
  {
    if |rest| > 0 {
      var s := rest[..|rest| - 1];
      var p := rest[|rest| - 1];
      SplitLast(rest);
      var t, t' := Heaviest3(s), Heaviest3(rest);
      if Size(t) < 3 {
        Heaviest3KeepsFew(rest);
      } else {
        Heaviest3KeepsTop(s);
        Heaviest3KeepsInputs(s);
        PlaceEvicts(t, p);
        LeftOutStep(Kept(t), Kept(t'), s, p, Evicted(t, p));
        assert t'.x.value in Kept(t');
      }
    }
  }

  /** The slot the random index picks. */
  function Slot(t: Top3, r: nat): (slot: Option<ActivePeer>)
    requires r < 3
    ensures slot.Some? ==> slot.value in Kept(t)
    ensures FilledInOrder(t) ==> (slot.Some? <==> r < Size(t))
  {
    if r == 0 then t.x else if r == 1 then t.y else t.z
  }

  /** For any index below `min(|rest|, 3)` the picked slot is filled, so the
      unwrap after the random pick cannot fail; the pick is a heavy input peer. */
  lemma ChosenSlotFilled(rest: seq<ActivePeer>, r: nat)
    requires r < Min(|rest|, 3)
    ensures Slot(Heaviest3(rest), r).Some?
    ensures Slot(Heaviest3(rest), r).value in Kept(Heaviest3(rest))
    ensures Slot(Heaviest3(rest), r).value in rest
    ensures CountHeavier(rest, Slot(Heaviest3(rest), r).value.lastNewPeers) + r < 3
  {
    var t := Heaviest3(rest);
    var chosen := Slot(t, r);
    assert chosen.Some? && chosen.value in Kept(t) && CountHeavier(rest, chosen.value.lastNewPeers) + r < 3 by {
      Heaviest3Ranked(rest);
      if r == 0 {
        assert chosen == t.x;
      } else if r == 1 {
        assert chosen == t.y;
      } else {
        assert chosen == t.z;
      }
    }
    assert chosen.value in multiset(rest) by {
      Heaviest3KeepsInputs(rest);
    }
  }

  // ---------------------------------------------------------------------
  // Query target selection
  // ---------------------------------------------------------------------

  /** The peers to query: all verified peers when there are fewer than three,
      else the latest one plus one of the heaviest three of the others, picked
      by the random index `r` in `0..min(|verified| - 1, 3)`. */
  function SelectPeersToQuery(verified: seq<ActivePeer>, r: nat): (ids: seq<PeerId>)
    requires |verified| >= 3 ==> r < Min(|verified| - 1, 3)
    ensures |verified| < 3 ==> |ids| == |verified| && forall i :: 0 <= i < |verified| ==> ids[i] == verified[i].id
    ensures |verified| >= 3 ==> |ids| == 2 && ids[0] == verified[0].id
    ensures |verified| >= 3 ==>
              exists p :: p in verified[1..] && ids[1] == p.id && CountHeavier(verified[1..], p.lastNewPeers) < 3
  {
    if |verified| < 3 then Ids(verified)
    else
      var latest := verified[0].id;
      var rest := verified[1..];
      var heaviest3 := Heaviest3(rest);
      ChosenSlotFilled(rest, r);
      var heaviest := Slot(heaviest3, r).value.id;
      [latest, heaviest]
  }

  /** With unique peer ids, no peer is queried twice in one tick; in
      particular the two picks of a large list differ. */
  lemma SelectedIdsDistinct(verified: seq<ActivePeer>, r: nat)
    requires |verified| >= 3 ==> r < Min(|verified| - 1, 3)
    requires UniqueIds(verified)
    ensures Distinct(SelectPeersToQuery(verified, r))
  {
    var ids := SelectPeersToQuery(verified, r);
    if |verified| >= 3 {
      var p :| p in verified[1..] && ids[1] == p.id && CountHeavier(verified[1..], p.lastNewPeers) < 3;
      var k :| 0 <= k < |verified| - 1 && verified[1..][k] == p;
      assert verified[k + 1] == p;
    }
  }

  /** Every peer of a list with unique ids occurs in it once. */
  lemma {:induction false} UniqueIdsOccurOnce(s: seq<ActivePeer>, p: ActivePeer)
    requires UniqueIds(s)
    ensures multiset(s)[p] <= 1
  {
    if |s| > 0 {
      var init := s[..|s| - 1];
      SplitLast(s);
      assert UniqueIds(init);
      UniqueIdsOccurOnce(init, p);
      if s[|s| - 1] == p {
        assert forall k | 0 <= k < |init| :: init[k].id != p.id;
      }
    }
  }

  /** Each random index picks a kept peer of the triple. */
  lemma PicksAreKept(verified: seq<ActivePeer>, r: nat)
    requires |verified| >= 3 && r < Min(|verified| - 1, 3)
    ensures exists p :: p in Kept(Heaviest3(verified[1..])) && SelectPeersToQuery(verified, r)[1] == p.id
  {
    ChosenSlotFilled(verified[1..], r);
  }

  /** Each kept peer of the triple is the pick of some random index, so the
      picks over all indices are exactly the kept peers. */
  lemma KeptArePicked(verified: seq<ActivePeer>, p: ActivePeer)
    requires |verified| >= 3 && p in Kept(Heaviest3(verified[1..]))
    ensures exists r: nat :: r < Min(|verified| - 1, 3) && SelectPeersToQuery(verified, r)[1] == p.id
  {
    var rest := verified[1..];
    var t := Heaviest3(rest);
    var r: nat := if t.x == Some(p) then 0 else if t.y == Some(p) then 1 else 2;
    assert Slot(t, r) == Some(p);
    assert r < Size(t) && Size(t) == Min(|verified| - 1, 3);
    ChosenSlotFilled(rest, r);
    assert SelectPeersToQuery(verified, r)[1] == p.id;
  }

  /** With unique peer ids, different random indices pick different peers:
      the index really chooses among the kept three. */
  lemma DistinctIndicesPickDistinctPeers(verified: seq<ActivePeer>, r1: nat, r2: nat)
    requires |verified| >= 3
    requires r1 < Min(|verified| - 1, 3) && r2 < Min(|verified| - 1, 3) && r1 != r2
    requires UniqueIds(verified)
    ensures SelectPeersToQuery(verified, r1)[1] != SelectPeersToQuery(verified, r2)[1]
  {
    var rest := verified[1..];
    var t := Heaviest3(rest);
    ChosenSlotFilled(rest, r1);
    ChosenSlotFilled(rest, r2);
    var a := Slot(t, r1).value;
    var b := Slot(t, r2).value;
    assert UniqueIds(rest);
    assert a != b by {
      if a == b {
        assert Kept(t)[a] >= 2;
        Heaviest3KeepsInputs(rest);
        UniqueIdsOccurOnce(rest, a);
      }
    }
    var i :| 0 <= i < |rest| && rest[i] == a;
    var j :| 0 <= j < |rest| && rest[j] == b;
    assert i != j;
  }

  /** One query tick: one discovery per selected peer, in selection order; none
      exactly when there is no verified peer. */
  function QueryTick(verified: seq<ActivePeer>, r: nat): (tasks: seq<Task>)
    requires |verified| >= 3 ==> r < Min(|verified| - 1, 3)
    ensures tasks == [] <==> verified == []
    ensures |tasks| == Min(|verified|, 2)
    ensures forall i :: 0 <= i < |tasks| ==> tasks[i].Discovery? && tasks[i].peer == SelectPeersToQuery(verified, r)[i]
    ensures |tasks| > 0 ==> tasks[0] == Discovery(verified[0].id)
  {
    var peers := SelectPeersToQuery(verified, r);
    seq(|peers|, i requires 0 <= i < |peers| => Discovery(peers[i]))
  }

  /** With unique peer ids, no peer gets two discovery tasks in one tick. */
  lemma QueryTickDistinct(verified: seq<ActivePeer>, r: nat)
    requires |verified| >= 3 ==> r < Min(|verified| - 1, 3)
    requires UniqueIds(verified)
    ensures Distinct(QueryTick(verified, r))
  {
    SelectedIdsDistinct(verified, r);
  }
}
