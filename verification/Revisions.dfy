/**
 * Revision compare-and-swap: what interleaved writers with stale copies can do to one stored row.
 *
 * Every writer reads the row, later writes a value of its choice with the revision it read, and keeps
 * either its old copy or the one the write returned.
 */
module Revisions {
  import opened Common

  datatype Versioned<T> = Versioned(value: T, revision: nat)

  datatype Write<T> = Write(writer: nat, basis: Versioned<T>, value: T)

  /** The row, the writers' copies, every version the row ever held, and the writes accepted. */
  datatype Row<T> = Row(stored: Versioned<T>, copies: map<nat, Versioned<T>>, versions: seq<T>, accepted: seq<Write<T>>)

  datatype Event<T> = Read(writer: nat) | Save(writer: nat, value: T, adopt: bool)

  function Fresh<T>(initial: Versioned<T>): Row<T> {
    Row(initial, map[], [initial.value], [])
  }

  /** `UPDATE … WHERE revision = ?`: written with the next revision, or refused on a conflict. */
  function SaveRow<T>(stored: Versioned<T>, copy: Versioned<T>, value: T): Option<Versioned<T>> {
    if stored.revision == copy.revision then Some(Versioned(value, copy.revision + 1)) else None
  }

  function Apply<T>(r: Row<T>, e: Event<T>): Row<T> {
    match e
    case Read(w) => r.(copies := r.copies[w := r.stored])
    case Save(w, value, adopt) =>
      if w !in r.copies then r
      else
        match SaveRow(r.stored, r.copies[w], value)
        case None => r
        case Some(next) =>
          Row(next, if adopt then r.copies[w := next] else r.copies, r.versions + [value],
              r.accepted + [Write(w, r.copies[w], value)])
  }

  function Run<T>(initial: Versioned<T>, events: seq<Event<T>>): Row<T> {
    if events == [] then Fresh(initial) else Apply(Run(initial, events[..|events| - 1]), events[|events| - 1])
  }

  /** A copy is one of the versions the row held. */
  ghost predicate IsVersion<T>(initial: Versioned<T>, versions: seq<T>, v: Versioned<T>) {
    initial.revision <= v.revision < initial.revision + |versions| && v.value == versions[v.revision - initial.revision]
  }

  /** Accepted writes form a chain: the k-th read version k and made version k + 1. */
  ghost predicate Serial<T>(initial: Versioned<T>, r: Row<T>) {
    && |r.versions| == |r.accepted| + 1 && r.versions[0] == initial.value
    && r.stored == Versioned(r.versions[|r.accepted|], initial.revision + |r.accepted|)
    && (forall k :: 0 <= k < |r.accepted| ==>
          && r.accepted[k].basis == Versioned(r.versions[k], initial.revision + k)
          && r.accepted[k].value == r.versions[k + 1])
    && (forall w :: w in r.copies ==> IsVersion(initial, r.versions, r.copies[w]))
  }

  lemma {:induction false} RunIsSerial<T>(initial: Versioned<T>, events: seq<Event<T>>)
    ensures Serial(initial, Run(initial, events))
  {
    if events != [] {
      RunIsSerial(initial, events[..|events| - 1]);
      var before, after := Run(initial, events[..|events| - 1]), Run(initial, events);
      forall w | w in after.copies ensures IsVersion(initial, after.versions, after.copies[w]) {
        if w in before.copies {
          assert IsVersion(initial, before.versions, before.copies[w]);
        }
      }
    }
  }

  /**
   * A write is accepted exactly when its writer's copy still is the stored row, value and revision; a
   * refused one changes nothing.
   */
  lemma AcceptedOnCurrent<T>(initial: Versioned<T>, events: seq<Event<T>>, w: nat, value: T, adopt: bool)
    requires w in Run(initial, events).copies
    ensures
      var before := Run(initial, events);
      var after := Apply(before, Save(w, value, adopt));
      && (before.copies[w] == before.stored ==>
            after.stored == Versioned(value, before.stored.revision + 1)
            && after.accepted == before.accepted + [Write(w, before.stored, value)])
      && (before.copies[w] != before.stored ==> after == before)
  {
    RunIsSerial(initial, events);
    var before := Run(initial, events);
    assert IsVersion(initial, before.versions, before.copies[w]);
  }

  /** The row after the accepted writes alone, each applied to what the one before it left. */
  function Serially<T>(initial: Versioned<T>, writes: seq<Write<T>>): Versioned<T> {
    if writes == [] then initial
    else Versioned(writes[|writes| - 1].value, Serially(initial, writes[..|writes| - 1]).revision + 1)
  }

  lemma {:induction false} SeriallyEnds<T>(initial: Versioned<T>, writes: seq<Write<T>>)
    ensures Serially(initial, writes).revision == initial.revision + |writes|
    ensures Serially(initial, writes).value == if writes == [] then initial.value else writes[|writes| - 1].value
  {
    if writes != [] {
      SeriallyEnds(initial, writes[..|writes| - 1]);
    }
  }

  /**
   * Any interleaving leaves the row as its accepted writes would one after the other, each writer
   * having read exactly what the write before it left; the revision counts them.
   */
  lemma Serialises<T>(initial: Versioned<T>, events: seq<Event<T>>)
    ensures
      var r := Run(initial, events);
      && r.stored == Serially(initial, r.accepted)
      && r.stored.revision == initial.revision + |r.accepted|
      && forall k :: 0 <= k < |r.accepted| ==> r.accepted[k].basis == Serially(initial, r.accepted[..k])
  {
    RunIsSerial(initial, events);
    var r := Run(initial, events);
    SeriallyEnds(initial, r.accepted);
    forall k | 0 <= k < |r.accepted| ensures r.accepted[k].basis == Serially(initial, r.accepted[..k]) {
      SeriallyEnds(initial, r.accepted[..k]);
      assert k > 0 ==> r.accepted[k - 1].value == r.versions[k];
    }
  }
}
