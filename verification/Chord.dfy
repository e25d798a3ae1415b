/** Chord ring arithmetic of chord.c, for every ring of 2^m positions with m from 1 to 8: ids are 8 bits wide and
    chord.h invites changing M_BITS. */
module Chord {

  // ---------- Ring arithmetic ----------

  function Pow2(k: nat): (r: nat)
    ensures r > 0
  {
    if k == 0 then 1 else 2 * Pow2(k - 1)
  }

  lemma {:induction false} Pow2Monotone(a: nat, b: nat)
    requires a <= b
    ensures Pow2(a) <= Pow2(b)
    decreases b - a
  {
    if a < b {
      Pow2Monotone(a, b - 1);
    }
  }

  lemma KeyspaceFits(m: nat)
    requires 1 <= m <= 8
    ensures 2 <= Pow2(m) <= 256
  {
    Pow2Monotone(1, m);
    Pow2Monotone(m, 8);
    assert Pow2(4) == 16;
    assert Pow2(8) == 256;
  }

  /** Conversion to uint8_t and to uint16_t. */
  function U8(x: nat): nat { x % 0x100 }

  function U16(x: nat): nat { x % 0x1_0000 }

  /** What finger_start and finger_interval_end return for a finger that does not exist. */
  const NO_FINGER: nat := 255

  /** (chord_id_t)(((uint16_t)node + d) % size). */
  function StepOn(size: nat, node: nat, d: nat): nat
    requires size > 0
  {
    U8((U16(node) + d) % size)
  }

  /** finger_start with M_BITS == m. */
  function FingerStart(m: nat, node: nat, finger: nat): nat {
    if finger < 1 || finger > m then NO_FINGER else StepOn(Pow2(m), node, Pow2(finger - 1))
  }

  /** finger_interval_end with M_BITS == m. */
  function FingerEnd(m: nat, node: nat, finger: nat): nat {
    if finger < 1 || finger > m then NO_FINGER else StepOn(Pow2(m), node, Pow2(finger))
  }

  /** Steps from a to b, walking clockwise on a ring of size positions. */
  function Clockwise(size: nat, a: nat, b: nat): nat
    requires a < size && b < size
  {
    if a <= b then b - a else b + size - a
  }

  /** The same walk, with at least one step: from a node to itself it is a full turn. */
  function Ahead(size: nat, a: nat, b: nat): nat
    requires a < size && b < size
  {
    if a == b then size else Clockwise(size, a, b)
  }

  function Wrap(size: nat, a: nat, d: nat): nat
    requires a < size && d <= size
  {
    if a + d < size then a + d else a + d - size
  }

  lemma MultipleAtLeast(q: nat, k: nat, size: nat)
    ensures q >= k ==> q * size >= k * size
  {
  }

  lemma ModIsWrap(size: nat, a: nat, d: nat)
    requires a < size && d <= size
    ensures (a + d) % size == Wrap(size, a, d)
  {
    var q := (a + d) / size;
    assert a + d == q * size + (a + d) % size;
    MultipleAtLeast(q, 1, size);
    MultipleAtLeast(q, 2, size);
  }

  lemma CastsLoseNothing(size: nat, node: nat, d: nat)
    requires 0 < size <= 256 && node < size && d <= size
    ensures StepOn(size, node, d) == Wrap(size, node, d) < size
  {
    assert U16(node) == node;
    ModIsWrap(size, node, d);
    assert U8(Wrap(size, node, d)) == Wrap(size, node, d);
  }

  lemma FingerLengths(m: nat, finger: nat)
    requires 1 <= m <= 8 && 1 <= finger <= m
    ensures Pow2(finger) == 2 * Pow2(finger - 1) <= Pow2(m) <= 256
  {
    KeyspaceFits(m);
    Pow2Monotone(finger, m);
  }

  /** The narrowing casts lose nothing: both ends are plain steps on the ring. */
  lemma FingersAreSteps(m: nat, node: nat, finger: nat)
    requires 1 <= m <= 8 && node < Pow2(m) && 1 <= finger <= m
    ensures Pow2(finger) == 2 * Pow2(finger - 1) <= Pow2(m)
    ensures FingerStart(m, node, finger) == Wrap(Pow2(m), node, Pow2(finger - 1)) < Pow2(m)
    ensures FingerEnd(m, node, finger) == Wrap(Pow2(m), node, Pow2(finger)) < Pow2(m)
  {
    FingerLengths(m, finger);
    CastsLoseNothing(Pow2(m), node, Pow2(finger - 1));
    CastsLoseNothing(Pow2(m), node, Pow2(finger));
  }

  /** The key lies in the circular interval [start, end). */
  predicate InInterval(size: nat, key: nat, start: nat, end: nat)
    requires key < size && start < size && end < size
  {
    Clockwise(size, start, key) < Clockwise(size, start, end)
  }

  /** A key lies in a finger's interval exactly when its distance from the node lies in [2^(i-1), 2^i). */
  lemma IntervalIsDistance(m: nat, node: nat, finger: nat, key: nat)
    requires 1 <= m <= 8 && node < Pow2(m) && 1 <= finger <= m && key < Pow2(m)
    ensures FingerStart(m, node, finger) < Pow2(m) && FingerEnd(m, node, finger) < Pow2(m)
    ensures InInterval(Pow2(m), key, FingerStart(m, node, finger), FingerEnd(m, node, finger))
        <==> Pow2(finger - 1) <= Clockwise(Pow2(m), node, key) < Pow2(finger)
  {
    FingersAreSteps(m, node, finger);
  }

  /** Every distance below 2^m lies in one of the bands. */
  lemma {:induction false} BandOf(m: nat, d: nat) returns (i: nat)
    requires 1 <= d < Pow2(m)
    ensures 1 <= i <= m && Pow2(i - 1) <= d < Pow2(i)
  {
    if d >= Pow2(m - 1) {
      i := m;
    } else {
      i := BandOf(m - 1, d);
    }
  }

  lemma BandUnique(d: nat, i: nat, f: nat)
    requires i >= 1 && f >= 1 && Pow2(i - 1) <= d < Pow2(i)
    ensures Pow2(f - 1) <= d < Pow2(f) <==> f == i
  {
    if f < i { Pow2Monotone(f, i - 1); }
    if i < f { Pow2Monotone(i, f - 1); }
  }

  /** The intervals join up: each ends where the next starts, and the last ends at the node itself. */
  lemma IntervalsJoin(m: nat, node: nat, finger: nat)
    requires 1 <= m <= 8 && node < Pow2(m) && 1 <= finger <= m
    ensures FingerEnd(m, node, finger) == if finger < m then FingerStart(m, node, finger + 1) else node
  {
    FingersAreSteps(m, node, finger);
  }

  /** The finger intervals tile the ring: every key but the node's own lies in the interval of exactly one
      finger, and the node's own key lies in none. */
  lemma FingersTile(m: nat, node: nat, key: nat) returns (i: nat)
    requires 1 <= m <= 8 && node < Pow2(m) && key < Pow2(m)
    ensures key != node ==> 1 <= i <= m
    ensures forall f :: 1 <= f <= m ==>
              && FingerStart(m, node, f) < Pow2(m) && FingerEnd(m, node, f) < Pow2(m)
              && (InInterval(Pow2(m), key, FingerStart(m, node, f), FingerEnd(m, node, f)) <==> key != node && f == i)
  {
    i := 0;
    if key != node {
      i := BandOf(m, Clockwise(Pow2(m), node, key));
    }
    forall f | 1 <= f <= m
      ensures FingerStart(m, node, f) < Pow2(m) && FingerEnd(m, node, f) < Pow2(m)
      ensures InInterval(Pow2(m), key, FingerStart(m, node, f), FingerEnd(m, node, f)) <==> key != node && f == i
    {
      IntervalIsDistance(m, node, f, key);
      if key != node {
        BandUnique(Clockwise(Pow2(m), node, key), i, f);
      }
    }
  }

  // ---------- Successors ----------

  /** Peers in strictly increasing order, all on the ring. */
  ghost predicate SortedPeers(size: nat, peers: seq<nat>) {
    && (forall j, k :: 0 <= j < k < |peers| ==> peers[j] < peers[k])
    && (forall k :: 0 <= k < |peers| ==> peers[k] < size)
  }

  /** The position that find_successor_linear stops at: the first id not below the key, or the first peer. */
  ghost predicate StopsAt(key: nat, peers: seq<nat>, j: nat) {
    && j < |peers|
    && if exists k :: 0 <= k < |peers| && peers[k] >= key
       then peers[j] >= key && forall k :: 0 <= k < j ==> peers[k] < key
       else j == 0
  }

  /** The peer that find_successor_linear returns. */
  ghost predicate IsSuccessor(key: nat, peers: seq<nat>, peer: nat) {
    exists j :: 0 <= j < |peers| && StopsAt(key, peers, j) && peer == peers[j]
  }

  /** find_successor_linear. */
  method FindSuccessor(key: nat, peers: seq<nat>) returns (peer: nat)
    requires peers != []
    ensures IsSuccessor(key, peers, peer)
  {
    for i := 0 to |peers|
      invariant forall k :: 0 <= k < i ==> peers[k] < key
    {
      if peers[i] >= key {
        assert StopsAt(key, peers, i);
        return peers[i];
      }
    }
    assert StopsAt(key, peers, 0);
    peer := peers[0];
  }

  /** On sorted peers the search finds the peer that is nearest clockwise from the key. */
  lemma SuccessorIsNearest(size: nat, key: nat, peers: seq<nat>, j: nat)
    requires SortedPeers(size, peers) && key < size && StopsAt(key, peers, j)
    ensures forall k :: 0 <= k < |peers| ==> Clockwise(size, key, peers[j]) <= Clockwise(size, key, peers[k])
  {
  }

  lemma StopsAtUnique(key: nat, peers: seq<nat>, j: nat, k: nat)
    requires StopsAt(key, peers, j) && StopsAt(key, peers, k)
    ensures j == k
  {
  }

  function Predecessor(peers: seq<nat>, j: nat): nat
    requires j < |peers|
  {
    if j == 0 then peers[|peers| - 1] else peers[j - 1]
  }

  /** The key lies in the circular interval (from, to]; a lone peer owns the whole ring. */
  predicate InArc(size: nat, from: nat, key: nat, to: nat)
    requires from < size && key < size && to < size
  {
    from == to || (key != from && Clockwise(size, from, key) <= Clockwise(size, from, to))
  }

  /** Key ownership partitions the ring: the search maps a key to peer j exactly when the key lies in
      (predecessor of j, peer j]; every key is mapped to some peer, and to one only. */
  lemma OwnershipIsArc(size: nat, key: nat, peers: seq<nat>, j: nat)
    requires SortedPeers(size, peers) && key < size && j < |peers|
    ensures StopsAt(key, peers, j) <==> InArc(size, Predecessor(peers, j), key, peers[j])
  {
    if j > 0 {
      assert peers[j - 1] < peers[j];
    } else if |peers| > 1 {
      assert peers[0] < peers[|peers| - 1];
    }
    assert forall k :: 0 <= k < |peers| ==> peers[k] <= peers[|peers| - 1];
  }

  lemma {:induction false} EveryKeyHasOwner(size: nat, key: nat, peers: seq<nat>) returns (j: nat)
    requires SortedPeers(size, peers) && key < size && peers != []
    ensures j < |peers| && InArc(size, Predecessor(peers, j), key, peers[j])
    ensures forall k :: 0 <= k < |peers| && k != j ==> !InArc(size, Predecessor(peers, k), key, peers[k])
  {
    j := StopFrom(key, peers, 0);
    OwnershipIsArc(size, key, peers, j);
    forall k | 0 <= k < |peers| && k != j ensures !InArc(size, Predecessor(peers, k), key, peers[k]) {
      OwnershipIsArc(size, key, peers, k);
      if StopsAt(key, peers, k) { StopsAtUnique(key, peers, j, k); }
    }
  }

  lemma {:induction false} StopFrom(key: nat, peers: seq<nat>, i: nat) returns (j: nat)
    requires peers != [] && i <= |peers| && forall k :: 0 <= k < i ==> peers[k] < key
    ensures StopsAt(key, peers, j)
    decreases |peers| - i
  {
    if i == |peers| {
      j := 0;
    } else if peers[i] >= key {
      j := i;
    } else {
      j := StopFrom(key, peers, i + 1);
    }
  }

  // ---------- Finger tables ----------

  datatype Finger = Finger(start: nat, end: nat, successor: nat)

  /** chord_node, for a ring of 2^bits positions. */
  class ChordNode {
    const bits: nat
    var id: nat
    var predecessor: nat
    var successor: nat
    const fingers: array<Finger>

    constructor (bits: nat, id: nat, predecessor: nat, successor: nat)
      ensures this.bits == bits && this.id == id && this.predecessor == predecessor && this.successor == successor
      ensures fresh(fingers) && fingers.Length == bits
    {
      this.bits, this.id, this.predecessor, this.successor := bits, id, predecessor, successor;
      fingers := new Finger[bits](_ => Finger(0, 0, 0));
    }

    /** calculate_fingertable: a node that knows only its successor. */
    method CalculateFingers()
      requires fingers.Length == bits
      modifies fingers
      ensures forall i :: 0 <= i < bits ==>
                fingers[i] == Finger(FingerStart(bits, id, i + 1), FingerEnd(bits, id, i + 1), successor)
    {
      for i := 0 to bits
        invariant forall k :: 0 <= k < i ==>
                    fingers[k] == Finger(FingerStart(bits, id, k + 1), FingerEnd(bits, id, k + 1), successor)
      {
        fingers[i] := Finger(FingerStart(bits, id, i + 1), FingerEnd(bits, id, i + 1), successor);
      }
    }

    /** calculate_fingertable_known_nodes: with no peers the table stays as it is. */
    method CalculateFingersKnown(peers: seq<nat>)
      requires fingers.Length == bits
      modifies fingers
      ensures peers == [] ==> fingers[..] == old(fingers[..])
      ensures peers != [] ==> forall i :: 0 <= i < bits ==> FingerKnown(bits, id, peers, i, fingers[i])
    {
      if peers == [] { return; }
      for i := 0 to bits
        invariant forall k :: 0 <= k < i ==> FingerKnown(bits, id, peers, k, fingers[k])
      {
        var start := FingerStart(bits, id, i + 1);
        var peer := FindSuccessor(start, peers);
        fingers[i] := Finger(start, FingerEnd(bits, id, i + 1), peer);
      }
    }
  }

  /** Entry i of a table built from a peer list. */
  ghost predicate FingerKnown(m: nat, node: nat, peers: seq<nat>, i: nat, f: Finger) {
    && f.start == FingerStart(m, node, i + 1) && f.end == FingerEnd(m, node, i + 1)
    && IsSuccessor(f.start, peers, f.successor)
  }

  lemma DistanceFromStart(size: nat, node: nat, d: nat, p: nat)
    requires node < size && p < size && 0 < d < size
    ensures Clockwise(size, Wrap(size, node, d), p) ==
              if d <= Ahead(size, node, p) then Ahead(size, node, p) - d else Ahead(size, node, p) + size - d
  {
  }

  /** The peer nearest to the position d steps ahead of a live node is the first one at distance d or more. */
  lemma NearestFromStart(size: nat, node: nat, d: nat, peers: seq<nat>, j: nat)
    requires SortedPeers(size, peers) && node in peers && 0 < d < size
    requires node < size && StopsAt(Wrap(size, node, d), peers, j)
    ensures d <= Ahead(size, node, peers[j]) <= size
    ensures forall k :: 0 <= k < |peers| && d <= Ahead(size, node, peers[k]) ==>
              Ahead(size, node, peers[j]) <= Ahead(size, node, peers[k])
  {
    var start := Wrap(size, node, d);
    var own :| 0 <= own < |peers| && peers[own] == node;
    SuccessorIsNearest(size, start, peers, j);
    DistanceFromStart(size, node, d, peers[j]);
    DistanceFromStart(size, node, d, peers[own]);
    forall k | 0 <= k < |peers| && d <= Ahead(size, node, peers[k])
      ensures Ahead(size, node, peers[j]) <= Ahead(size, node, peers[k])
    {
      DistanceFromStart(size, node, d, peers[k]);
    }
  }

  /** Walking clockwise from a peer list's own node, a finger's successor is the first peer at distance 2^(i-1) or
      more, the node itself counting as a full turn away. */
  lemma FingerIsFirstLivePeer(m: nat, node: nat, peers: seq<nat>, i: nat, f: Finger)
    requires 1 <= m <= 8 && i < m && SortedPeers(Pow2(m), peers) && node in peers && FingerKnown(m, node, peers, i, f)
    ensures node < Pow2(m) && f.successor in peers && f.successor < Pow2(m)
    ensures Pow2(i) <= Ahead(Pow2(m), node, f.successor) <= Pow2(m)
    ensures forall k :: 0 <= k < |peers| && Pow2(i) <= Ahead(Pow2(m), node, peers[k]) ==>
              Ahead(Pow2(m), node, f.successor) <= Ahead(Pow2(m), node, peers[k])
  {
    FingersAreSteps(m, node, i + 1);
    var j :| 0 <= j < |peers| && StopsAt(f.start, peers, j) && f.successor == peers[j];
    NearestFromStart(Pow2(m), node, Pow2(i), peers, j);
  }

  /** Finger successors are ordered: later fingers point no less far around the ring. */
  lemma FingerSuccessorsOrdered(m: nat, node: nat, peers: seq<nat>, i: nat, f: Finger, k: nat, g: Finger)
    requires 1 <= m <= 8 && i <= k < m && SortedPeers(Pow2(m), peers) && node in peers
    requires FingerKnown(m, node, peers, i, f) && FingerKnown(m, node, peers, k, g)
    ensures node < Pow2(m) && f.successor < Pow2(m) && g.successor < Pow2(m)
    ensures Ahead(Pow2(m), node, f.successor) <= Ahead(Pow2(m), node, g.successor)
  {
    Pow2Monotone(i, k);
    FingerIsFirstLivePeer(m, node, peers, i, f);
    FingerIsFirstLivePeer(m, node, peers, k, g);
  }
}
