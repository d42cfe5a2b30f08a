/**
 * The selection scenarios the query module's own tests describe, worked out
 * on concrete peer lists for every value of the random index, plus the
 * tie-break the fold actually performs.
 */
module QueryExamples {
  import opened Wrappers
  import opened Query

  /** A verified peer with id `i` and `v` new peers in its last answer. */
  function Peer(i: nat, v: nat): ActivePeer {
    ActivePeer(PeerId(i), 1, v)
  }

  /** The peer at index i of the test lists, which reported i new peers. */
  function Rung(i: nat): ActivePeer {
    Peer(i, i)
  }

  /** Triples with one, two or three filled slots, lightest first. */
  function One(a: ActivePeer): Top3 {
    Top3(Some(a), None, None)
  }

  function Two(a: ActivePeer, b: ActivePeer): Top3 {
    Top3(Some(a), Some(b), None)
  }

  function Three(a: ActivePeer, b: ActivePeer, c: ActivePeer): Top3 {
    Top3(Some(a), Some(b), Some(c))
  }

  /** The list used by the tests: the peer at index i reported i new peers. */
  function Ladder(n: nat): (peers: seq<ActivePeer>)
    ensures |peers| == n
    ensures forall i :: 0 <= i < n ==> peers[i] == Rung(i)
  {
    seq(n, i requires 0 <= i => Rung(i))
  }

  /** The active list's forward rotation: the last entry moves to the front. */
  function RotateForwards(peers: seq<ActivePeer>): (rotated: seq<ActivePeer>)
    ensures |rotated| == |peers|
    ensures |peers| > 0 ==> rotated[0] == peers[|peers| - 1] && rotated[1..] == peers[..|peers| - 1]
  {
    if |peers| == 0 then peers else [peers[|peers| - 1]] + peers[..|peers| - 1]
  }

  /** `Ladder(10)` after two forward rotations. */
  function Rotated10(): seq<ActivePeer> {
    RotateForwards(RotateForwards(Ladder(10)))
  }

  /** The rotated ladder, entry by entry: its new-peer counts read 8, 9, 0, ..., 7. */
  lemma Rotated10Entries()
    ensures Rotated10() == [Rung(8), Rung(9), Rung(0), Rung(1), Rung(2), Rung(3), Rung(4), Rung(5), Rung(6), Rung(7)]
  {
    var once := RotateForwards(Ladder(10));
    assert once == [Rung(9), Rung(0), Rung(1), Rung(2), Rung(3), Rung(4), Rung(5), Rung(6), Rung(7), Rung(8)];
  }

  /** One step of the fold: appending a peer places it into the prefix's triple. */
  lemma Replay(prefix: seq<ActivePeer>, p: ActivePeer)
    ensures Heaviest3(prefix + [p]) == Place(Heaviest3(prefix), p)
  {
    assert (prefix + [p])[..|prefix|] == prefix;
  }

  /** The fold over the two non-head peers of `Ladder(3)`. */
  lemma ThreeFold()
    ensures Heaviest3(Ladder(3)[1..]) == Two(Rung(1), Rung(2))
  {
    var rest := Ladder(3)[1..];
    assert rest == [Rung(1), Rung(2)];
    var s0: seq<ActivePeer> := [];
    var s1 := s0 + [Rung(1)];
    assert Heaviest3(s1) == One(Rung(1)) by { Replay(s0, Rung(1)); }
    var s2 := s1 + [Rung(2)];
    assert Heaviest3(s2) == Two(Rung(1), Rung(2)) by { Replay(s1, Rung(2)); }
    assert rest == s2;
  }

  /** Three peers: the latest is queried, and one of the other two. */
  lemma ThreePeers(r: nat)
    requires r < 2
    ensures var ids := SelectPeersToQuery(Ladder(3), r);
      |ids| == 2 && ids[0] == PeerId(0) && (ids[1] == PeerId(1) || ids[1] == PeerId(2))
  {
    ThreeFold();
  }

  /** The fold over the nine non-head peers of `Ladder(10)`. */
  lemma TenFold()
    ensures Heaviest3(Ladder(10)[1..]) == Three(Rung(7), Rung(8), Rung(9))
  {
    var rest := Ladder(10)[1..];
    assert rest == [Rung(1), Rung(2), Rung(3), Rung(4), Rung(5), Rung(6), Rung(7), Rung(8), Rung(9)];
    var s0: seq<ActivePeer> := [];
    var s1 := s0 + [Rung(1)];
    assert Heaviest3(s1) == One(Rung(1)) by { Replay(s0, Rung(1)); }
    var s2 := s1 + [Rung(2)];
    assert Heaviest3(s2) == Two(Rung(1), Rung(2)) by { Replay(s1, Rung(2)); }
    var s3 := s2 + [Rung(3)];
    assert Heaviest3(s3) == Three(Rung(1), Rung(2), Rung(3)) by { Replay(s2, Rung(3)); }
    var s4 := s3 + [Rung(4)];
    assert Heaviest3(s4) == Three(Rung(2), Rung(3), Rung(4)) by { Replay(s3, Rung(4)); }
    var s5 := s4 + [Rung(5)];
    assert Heaviest3(s5) == Three(Rung(3), Rung(4), Rung(5)) by { Replay(s4, Rung(5)); }
    var s6 := s5 + [Rung(6)];
    assert Heaviest3(s6) == Three(Rung(4), Rung(5), Rung(6)) by { Replay(s5, Rung(6)); }
    var s7 := s6 + [Rung(7)];
    assert Heaviest3(s7) == Three(Rung(5), Rung(6), Rung(7)) by { Replay(s6, Rung(7)); }
    var s8 := s7 + [Rung(8)];
    assert Heaviest3(s8) == Three(Rung(6), Rung(7), Rung(8)) by { Replay(s7, Rung(8)); }
    var s9 := s8 + [Rung(9)];
    assert Heaviest3(s9) == Three(Rung(7), Rung(8), Rung(9)) by { Replay(s8, Rung(9)); }
    assert rest == s9;
  }

  /** Ten peers: besides the latest, one of the three heaviest (indices 7, 8, 9). */
  lemma TenPeers(r: nat)
    requires r < 3
    ensures var ids := SelectPeersToQuery(Ladder(10), r);
      |ids| == 2 && ids[0] == PeerId(0) && (ids[1] == PeerId(7) || ids[1] == PeerId(8) || ids[1] == PeerId(9))
  {
    TenFold();
  }

  /** The fold over the nine non-head peers of the twice rotated `Ladder(10)`. */
  lemma RotatedFold()
    ensures Heaviest3(Rotated10()[1..]) == Three(Rung(6), Rung(7), Rung(9))
  {
    var rest := Rotated10()[1..];
    Rotated10Entries();
    assert rest == [Rung(9), Rung(0), Rung(1), Rung(2), Rung(3), Rung(4), Rung(5), Rung(6), Rung(7)];
    var s0: seq<ActivePeer> := [];
    var s1 := s0 + [Rung(9)];
    assert Heaviest3(s1) == One(Rung(9)) by { Replay(s0, Rung(9)); }
    var s2 := s1 + [Rung(0)];
    assert Heaviest3(s2) == Two(Rung(0), Rung(9)) by { Replay(s1, Rung(0)); }
    var s3 := s2 + [Rung(1)];
    assert Heaviest3(s3) == Three(Rung(0), Rung(1), Rung(9)) by { Replay(s2, Rung(1)); }
    var s4 := s3 + [Rung(2)];
    assert Heaviest3(s4) == Three(Rung(1), Rung(2), Rung(9)) by { Replay(s3, Rung(2)); }
    var s5 := s4 + [Rung(3)];
    assert Heaviest3(s5) == Three(Rung(2), Rung(3), Rung(9)) by { Replay(s4, Rung(3)); }
    var s6 := s5 + [Rung(4)];
    assert Heaviest3(s6) == Three(Rung(3), Rung(4), Rung(9)) by { Replay(s5, Rung(4)); }
    var s7 := s6 + [Rung(5)];
    assert Heaviest3(s7) == Three(Rung(4), Rung(5), Rung(9)) by { Replay(s6, Rung(5)); }
    var s8 := s7 + [Rung(6)];
    assert Heaviest3(s8) == Three(Rung(5), Rung(6), Rung(9)) by { Replay(s7, Rung(6)); }
    var s9 := s8 + [Rung(7)];
    assert Heaviest3(s9) == Three(Rung(6), Rung(7), Rung(9)) by { Replay(s8, Rung(7)); }
    assert rest == s9;
  }

  /** The same ten peers after two forward rotations: the latest entry is
      still the one queried first, and the heavy pick is the entry now at
      index 1, 8 or 9. */
  lemma TenPeersRotated(r: nat)
    requires r < 3
    ensures var peers := Rotated10();
      var ids := SelectPeersToQuery(peers, r);
      && |ids| == 2 && ids[0] == peers[0].id
      && (ids[1] == peers[1].id || ids[1] == peers[8].id || ids[1] == peers[9].id)
  {
    Rotated10Entries();
    RotatedFold();
  }

  /** On a tie with the lightest kept peer the fold keeps the later peer:
      peer 4 replaces peer 1 although both reported one new peer. */
  lemma TieKeepsLaterPeer()
    ensures Heaviest3([Rung(1), Rung(2), Rung(3), Peer(4, 1)]) == Three(Peer(4, 1), Rung(2), Rung(3))
  {
    var rest := [Rung(1), Rung(2), Rung(3), Peer(4, 1)];
    assert rest == [Rung(1), Rung(2), Rung(3), Peer(4, 1)];
    var s0: seq<ActivePeer> := [];
    var s1 := s0 + [Rung(1)];
    assert Heaviest3(s1) == One(Rung(1)) by { Replay(s0, Rung(1)); }
    var s2 := s1 + [Rung(2)];
    assert Heaviest3(s2) == Two(Rung(1), Rung(2)) by { Replay(s1, Rung(2)); }
    var s3 := s2 + [Rung(3)];
    assert Heaviest3(s3) == Three(Rung(1), Rung(2), Rung(3)) by { Replay(s2, Rung(3)); }
    var s4 := s3 + [Peer(4, 1)];
    assert Heaviest3(s4) == Three(Peer(4, 1), Rung(2), Rung(3)) by { Replay(s3, Peer(4, 1)); }
    assert rest == s4;
  }
}
