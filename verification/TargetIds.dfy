/**
  Reserving a target id that is free at two sites (web/static/target.js), each of which
  answers with its smallest free id above a given one (db/db/src/target.ec).
*/
module TargetIds {
  const FIRST := 8000
  const LAST := 49999
  const ROUNDS := 50

  datatype Option<+T> = None | Some(value: T)

  predicate InRange(id: int) {
    FIRST <= id <= LAST
  }

  predicate FreeAt(taken: set<int>, id: int) {
    InRange(id) && id !in taken
  }

  /** newTargetId: the smallest free id above `after`, if there is one. */
  function NewTargetId(taken: set<int>, after: int): (id: Option<int>)
    ensures id.Some? ==> id.value > after && FreeAt(taken, id.value)
    ensures forall i :: after < i && (id.Some? ==> i < id.value) ==> !FreeAt(taken, i)
    decreases LAST - after
  {
    var next := if after < FIRST then FIRST else after + 1;
    if next > LAST then None
    else if next !in taken then Some(next)
    else NewTargetId(taken, next)
  }

  /** How the other site answers: with a free id, only whether an id exists there, or not at all. */
  datatype Peer = Allocates | LooksUp | Silent

  /** What the other site is understood to answer to `candidate`. */
  function PeerId(peer: Peer, taken: set<int>, candidate: int): int {
    var free := NewTargetId(taken, candidate - 1);
    if peer == Allocates && free.Some? then free.value
    else if peer == Silent then candidate
    else if candidate in taken then candidate + 1 else candidate
  }

  datatype Outcome = Reserved(id: int) | NoneFree | GaveUp

  /** Taken at the other site only. */
  function OnlyThere(here: set<int>, there: set<int>): set<int> {
    set i | i in there && InRange(i) && i !in here
  }

  predicate FreeAtBoth(here: set<int>, there: set<int>, id: int) {
    FreeAt(here, id) && FreeAt(there, id)
  }

  /** No id below the limit is free at both. */
  ghost predicate NoneBelow(here: set<int>, there: set<int>, limit: int) {
    forall i :: i < limit ==> !FreeAtBoth(here, there, i)
  }

  /** The candidate grows in every round that does not end the search, and passes over no common free id. */
  lemma RoundPassesNothing(here: set<int>, there: set<int>, peer: Peer, candidate: int)
    requires FreeAt(here, candidate) && PeerId(peer, there, candidate) != candidate
    requires NoneBelow(here, there, candidate)
    ensures FreeAt(here, candidate) && candidate in there
    ensures PeerId(peer, there, candidate) > candidate
    ensures var next := NewTargetId(here, PeerId(peer, there, candidate) - 1);
            if next.Some? then next.value > candidate && NoneBelow(here, there, next.value)
            else forall i :: !FreeAtBoth(here, there, i)
  {
  }

  /**
    A site that allocates answers its least free id from the candidate on; one that only
    looks ids up agrees exactly when the candidate does not exist there; a silent one
    cannot object.
  */
  lemma PeerAnswers(peer: Peer, there: set<int>, candidate: int)
    ensures var id := PeerId(peer, there, candidate);
            && (peer == Allocates && (exists i :: i >= candidate && FreeAt(there, i)) ==>
                  id >= candidate && FreeAt(there, id) && forall i :: candidate <= i < id ==> !FreeAt(there, i))
            && (peer == LooksUp ==> id == if candidate in there then candidate + 1 else candidate)
            && (peer == Silent ==> id == candidate)
  {
  }

  lemma AgreementIsFree(there: set<int>, peer: Peer, candidate: int)
    requires InRange(candidate) && PeerId(peer, there, candidate) == candidate
    ensures FreeAt(there, candidate) || peer == Silent
  {
  }

  lemma OneMore(here: set<int>, there: set<int>, met: set<int>, id: int)
    requires FreeAt(here, id) && id in there && id !in met && met <= OnlyThere(here, there)
    ensures |met + {id}| == |met| + 1 && met + {id} <= OnlyThere(here, there)
  {
  }

  lemma NoFewer(met: set<int>, all: set<int>)
    requires met <= all
    ensures |met| <= |all|
  {
    assert all == met + (all - met);
  }

  /**
    startNewTarget, with the round that ended it. A reserved id is free here, no smaller id
    is free at both sites, and it is the one that site agreed to in that round; it is taken
    there if and only if the site was silent in that round and holds it. The search ends
    without one only when no id is free at both, or after 50 rounds, each of which met
    another id that is free here but taken there.
  */
  method StartNewTarget(here: set<int>, there: set<int>, peers: nat -> Peer) returns (r: Outcome, round: nat)
    ensures match r
            case Reserved(id) =>
              && FreeAt(here, id) && NoneBelow(here, there, id)
              && round < ROUNDS && PeerId(peers(round), there, id) == id
              && (!FreeAt(there, id) <==> peers(round) == Silent && id in there)
            case NoneFree => forall i :: !FreeAtBoth(here, there, i)
            case GaveUp => |OnlyThere(here, there)| >= ROUNDS
  {
    round := 0;
    var first := NewTargetId(here, FIRST - 1);
    if first.None? {
      return NoneFree, round;
    }
    var candidate := first.value;
    ghost var met: set<int> := {};
    while round < ROUNDS
      invariant round <= ROUNDS
      invariant FreeAt(here, candidate) && NoneBelow(here, there, candidate)
      invariant |met| == round && met <= OnlyThere(here, there)
      invariant forall i :: i in met ==> i < candidate
    {
      var peerId := PeerId(peers(round), there, candidate);
      if peerId == candidate {
        AgreementIsFree(there, peers(round), candidate);
        return Reserved(candidate), round;
      }
      RoundPassesNothing(here, there, peers(round), candidate);
      OneMore(here, there, met, candidate);
      met := met + {candidate};
      var next := NewTargetId(here, peerId - 1);
      if next.None? {
        return NoneFree, round;
      }
      candidate, round := next.value, round + 1;
    }
    NoFewer(met, OnlyThere(here, there));
    r := GaveUp;
  }
}
