/** The merge step of `loadEvents`: the participant events are copied, then
    every organizer event and every creator event is pushed unless an event
    with the same id is already in the list. */
module EventMerge {
  import opened Store

  /** The ids carried by a list of events. */
  function Ids(events: seq<EventData>): set<string> {
    set k | 0 <= k < |events| :: events[k].id
  }

  /** No two events of the list share an id. */
  predicate DistinctIds(events: seq<EventData>) {
    forall i, j :: 0 <= i < j < |events| ==> events[i].id != events[j].id
  }

  /** The first event of the list whose id is `id`, if any. */
  function FirstWithId(events: seq<EventData>, id: string): Option<EventData> {
    if events == [] then None
    else if events[0].id == id then Some(events[0])
    else FirstWithId(events[1..], id)
  }

  /** `acc` after one `forEach` over `more` that pushes each event whose id is
      not yet in the list.  Defined from the last element backwards, which is
      how the loop's progress reads. */
  function AppendMissing(acc: seq<EventData>, more: seq<EventData>): seq<EventData>
    decreases |more|
  {
    if more == [] then acc
    else
      var done := AppendMissing(acc, more[..|more| - 1]);
      var e := more[|more| - 1];
      if e.id in Ids(done) then done else done + [e]
  }

  /** The aggregated view: participant events, then the organizer events, then
      the creator events, each pushed only when its id is new. */
  function Merge(participant: seq<EventData>, organizer: seq<EventData>, creator: seq<EventData>): seq<EventData> {
    AppendMissing(AppendMissing(participant, organizer), creator)
  }

  /** Reference definition of the same filter, from the front: keep an event
      exactly when its id has not been seen before. */
  function FirstsOf(seen: set<string>, events: seq<EventData>): seq<EventData>
    decreases |events|
  {
    if events == [] then []
    else if events[0].id in seen then FirstsOf(seen, events[1..])
    else [events[0]] + FirstsOf(seen + {events[0].id}, events[1..])
  }

  // ---------------------------------------------------------------------
  // The loops of loadEvents

  /** The duplicate test of the merge: a linear scan for an event of the list
      carrying `id`. */
  method ContainsId(events: seq<EventData>, id: string) returns (found: bool)
    ensures found <==> id in Ids(events)
  {
    var k := 0;
    while k < |events|
      invariant 0 <= k <= |events|
      invariant forall j :: 0 <= j < k ==> events[j].id != id
    {
      if events[k].id == id {
        return true;
      }
      k := k + 1;
    }
    return false;
  }

  /** One `forEach` that pushes the events of `more` whose id is not yet in
      `all`. */
  method PushMissing(all: seq<EventData>, more: seq<EventData>) returns (grown: seq<EventData>)
    ensures grown == AppendMissing(all, more)
  {
    grown := all;
    var i := 0;
    while i < |more|
      invariant 0 <= i <= |more|
      invariant grown == AppendMissing(all, more[..i])
    {
      var present := ContainsId(grown, more[i].id);
      if !present {
        grown := grown + [more[i]];
      }
      assert more[..i + 1][..i] == more[..i];
      i := i + 1;
    }
    assert more[..|more|] == more;
  }

  /** The three query results combined as `loadEvents` combines them. */
  method MergeEvents(participant: seq<EventData>, organizer: seq<EventData>, creator: seq<EventData>)
    returns (all: seq<EventData>)
    ensures all == Merge(participant, organizer, creator)
    ensures |participant| <= |all| && all[..|participant|] == participant
    ensures Ids(all) == Ids(participant) + Ids(organizer) + Ids(creator)
    ensures DistinctIds(participant) ==> DistinctIds(all)
  {
    all := PushMissing(participant, organizer);
    all := PushMissing(all, creator);
    MergeShape(participant, organizer, creator);
    MergeIds(participant, organizer, creator);
    MergeDistinct(participant, organizer, creator);
  }

  // ---------------------------------------------------------------------
  // Facts about ids

  lemma IdsAppend(a: seq<EventData>, b: seq<EventData>)
    ensures Ids(a + b) == Ids(a) + Ids(b)
  {
    forall x | x in Ids(a + b) ensures x in Ids(a) + Ids(b) {
      var k :| 0 <= k < |a + b| && (a + b)[k].id == x;
      if k < |a| { assert a[k].id == x; } else { assert b[k - |a|].id == x; }
    }
    forall x | x in Ids(a) + Ids(b) ensures x in Ids(a + b) {
      if x in Ids(a) {
        var k :| 0 <= k < |a| && a[k].id == x;
        assert (a + b)[k].id == x;
      } else {
        var k :| 0 <= k < |b| && b[k].id == x;
        assert (a + b)[|a| + k].id == x;
      }
    }
  }

  lemma IdsSingle(e: EventData)
    ensures Ids([e]) == {e.id}
  {
    assert [e][0].id == e.id;
  }

  lemma IdsCons(e: EventData, rest: seq<EventData>)
    ensures Ids([e] + rest) == {e.id} + Ids(rest)
  {
    IdsAppend([e], rest);
    IdsSingle(e);
  }

  /** Every id of the pushed-onto list is in the list's ids or in the new ones, and conversely. */
  lemma {:induction false} AppendMissingIds(acc: seq<EventData>, more: seq<EventData>)
    ensures Ids(AppendMissing(acc, more)) == Ids(acc) + Ids(more)
    decreases |more|
  {
    if more != [] {
      var init, e := more[..|more| - 1], more[|more| - 1];
      assert more == init + [e];
      AppendMissingIds(acc, init);
      IdsAppend(init, [e]);
      IdsSingle(e);
      var done := AppendMissing(acc, init);
      if e.id !in Ids(done) {
        IdsAppend(done, [e]);
      }
    }
  }

  // ---------------------------------------------------------------------
  // The reference definition

  lemma {:induction false} FirstsOfSnoc(seen: set<string>, events: seq<EventData>, e: EventData)
    ensures FirstsOf(seen, events + [e])
         == FirstsOf(seen, events) + (if e.id in seen + Ids(events) then [] else [e])
    decreases |events|
  {
    if events == [] {
      assert Ids(events) == {};
      assert events + [e] == [e];
      assert [e][1..] == [];
    } else {
      var x, rest := events[0], events[1..];
      assert events == [x] + rest;
      assert (events + [e])[0] == x;
      assert (events + [e])[1..] == rest + [e];
      IdsCons(x, rest);
      if x.id in seen {
        FirstsOfSnoc(seen, rest, e);
        assert seen + Ids(events) == seen + Ids(rest);
      } else {
        FirstsOfSnoc(seen + {x.id}, rest, e);
        assert seen + {x.id} + Ids(rest) == seen + Ids(events);
      }
    }
  }

  /** Pushing missing events onto `acc` appends exactly the first occurrence
      of every id not already in `acc`, in their original order. */
  lemma {:induction false} AppendMissingIsFirsts(acc: seq<EventData>, more: seq<EventData>)
    ensures AppendMissing(acc, more) == acc + FirstsOf(Ids(acc), more)
    decreases |more|
  {
    if more == [] {
    } else {
      var init, e := more[..|more| - 1], more[|more| - 1];
      assert more == init + [e];
      AppendMissingIsFirsts(acc, init);
      AppendMissingIds(acc, init);
      FirstsOfSnoc(Ids(acc), init, e);
    }
  }

  lemma {:induction false} FirstsOfIds(seen: set<string>, events: seq<EventData>)
    ensures Ids(FirstsOf(seen, events)) == Ids(events) - seen
    decreases |events|
  {
    if events == [] {
      assert Ids(events) == {};
    } else {
      var x, rest := events[0], events[1..];
      assert events == [x] + rest;
      IdsCons(x, rest);
      if x.id in seen {
        FirstsOfIds(seen, rest);
      } else {
        FirstsOfIds(seen + {x.id}, rest);
        IdsCons(x, FirstsOf(seen + {x.id}, rest));
      }
    }
  }

  lemma {:induction false} FirstsOfDistinct(seen: set<string>, events: seq<EventData>)
    ensures DistinctIds(FirstsOf(seen, events))
    decreases |events|
  {
    if events != [] {
      var x, rest := events[0], events[1..];
      if x.id in seen {
        FirstsOfDistinct(seen, rest);
      } else {
        var tail := FirstsOf(seen + {x.id}, rest);
        FirstsOfDistinct(seen + {x.id}, rest);
        FirstsOfIds(seen + {x.id}, rest);
        forall j | 0 <= j < |tail| ensures tail[j].id != x.id {
          assert tail[j].id in Ids(tail);
        }
      }
    }
  }

  lemma {:induction false} FirstsOfElements(seen: set<string>, events: seq<EventData>)
    ensures forall e :: e in FirstsOf(seen, events) ==> e in events
    decreases |events|
  {
    if events != [] {
      FirstsOfElements(seen, events[1..]);
      FirstsOfElements(seen + {events[0].id}, events[1..]);
    }
  }

  lemma DistinctAppend(a: seq<EventData>, b: seq<EventData>)
    requires DistinctIds(a) && DistinctIds(b) && Ids(a) !! Ids(b)
    ensures DistinctIds(a + b)
  {
    forall i, j | 0 <= i < j < |a + b| ensures (a + b)[i].id != (a + b)[j].id {
      if i < |a| && |a| <= j {
        assert a[i].id in Ids(a);
        assert b[j - |a|].id in Ids(b);
      }
    }
  }

  // ---------------------------------------------------------------------
  // Properties of the merge

  /** The merged list is the participant list unchanged, followed by the
      organizer events whose id is new, then the creator events whose id is
      new, each in query order with only the first copy of an id kept. */
  lemma MergeShape(participant: seq<EventData>, organizer: seq<EventData>, creator: seq<EventData>)
    ensures Merge(participant, organizer, creator)
         == participant
          + FirstsOf(Ids(participant), organizer)
          + FirstsOf(Ids(participant) + Ids(organizer), creator)
  {
    AppendMissingIsFirsts(participant, organizer);
    AppendMissingIds(participant, organizer);
    AppendMissingIsFirsts(AppendMissing(participant, organizer), creator);
  }

  /** Every id of the three lists occurs in the merge, and no other. */
  lemma MergeIds(participant: seq<EventData>, organizer: seq<EventData>, creator: seq<EventData>)
    ensures Ids(Merge(participant, organizer, creator))
         == Ids(participant) + Ids(organizer) + Ids(creator)
  {
    AppendMissingIds(participant, organizer);
    AppendMissingIds(AppendMissing(participant, organizer), creator);
  }

  /** Every merged event is an event of one of the three lists. */
  lemma MergeElements(participant: seq<EventData>, organizer: seq<EventData>, creator: seq<EventData>)
    ensures forall e :: e in Merge(participant, organizer, creator)
                    ==> e in participant || e in organizer || e in creator
  {
    MergeShape(participant, organizer, creator);
    FirstsOfElements(Ids(participant), organizer);
    FirstsOfElements(Ids(participant) + Ids(organizer), creator);
  }

  /** With distinct participant ids, the merge has pairwise distinct ids. */
  lemma MergeDistinct(participant: seq<EventData>, organizer: seq<EventData>, creator: seq<EventData>)
    ensures DistinctIds(participant) ==> DistinctIds(Merge(participant, organizer, creator))
  {
    if DistinctIds(participant) {
      var f1 := FirstsOf(Ids(participant), organizer);
      var f2 := FirstsOf(Ids(participant) + Ids(organizer), creator);
      MergeShape(participant, organizer, creator);
      FirstsOfDistinct(Ids(participant), organizer);
      FirstsOfDistinct(Ids(participant) + Ids(organizer), creator);
      FirstsOfIds(Ids(participant), organizer);
      FirstsOfIds(Ids(participant) + Ids(organizer), creator);
      DistinctAppend(participant, f1);
      IdsAppend(participant, f1);
      DistinctAppend(participant + f1, f2);
    }
  }

  /** The participant list is copied without any check, so the merge is free
      of duplicate ids exactly when the participant list is: duplicates among
      the participant events survive, all others are dropped. */
  lemma MergeDistinctExactly(participant: seq<EventData>, organizer: seq<EventData>, creator: seq<EventData>)
    ensures DistinctIds(Merge(participant, organizer, creator)) <==> DistinctIds(participant)
  {
    MergeDistinct(participant, organizer, creator);
    var merged := Merge(participant, organizer, creator);
    MergeShape(participant, organizer, creator);
    assert merged[..|participant|] == participant;
    if DistinctIds(merged) {
      forall i, j | 0 <= i < j < |participant| ensures participant[i].id != participant[j].id {
        assert participant[i] == merged[i] && participant[j] == merged[j];
      }
    }
  }

  lemma {:induction false} FirstWithIdAppend(a: seq<EventData>, b: seq<EventData>, id: string)
    ensures FirstWithId(a + b, id) == if id in Ids(a) then FirstWithId(a, id) else FirstWithId(b, id)
    decreases |a|
  {
    if a == [] {
      assert a + b == b;
      assert Ids(a) == {};
    } else {
      assert (a + b)[1..] == a[1..] + b;
      IdsCons(a[0], a[1..]);
      assert a == [a[0]] + a[1..];
      FirstWithIdAppend(a[1..], b, id);
    }
  }

  lemma {:induction false} FirstWithIdAbsent(events: seq<EventData>, id: string)
    ensures FirstWithId(events, id).None? <==> id !in Ids(events)
    decreases |events|
  {
    if events == [] {
      assert Ids(events) == {};
    } else {
      assert events == [events[0]] + events[1..];
      IdsCons(events[0], events[1..]);
      FirstWithIdAbsent(events[1..], id);
    }
  }

  lemma {:induction false} AppendMissingFirst(acc: seq<EventData>, more: seq<EventData>, id: string)
    ensures FirstWithId(AppendMissing(acc, more), id) == FirstWithId(acc + more, id)
    decreases |more|
  {
    if more == [] {
      assert acc + more == acc;
    } else {
      var init, e := more[..|more| - 1], more[|more| - 1];
      var done := AppendMissing(acc, init);
      assert acc + more == (acc + init) + [e];
      AppendMissingFirst(acc, init, id);
      AppendMissingIds(acc, init);
      IdsAppend(acc, init);
      FirstWithIdAppend(acc + init, [e], id);
      FirstWithIdAbsent(done, id);
      FirstWithIdAbsent(acc + init, id);
      if e.id !in Ids(done) {
        FirstWithIdAppend(done, [e], id);
      }
    }
  }

  /** For every id, the first merged event with that id is the first event
      with that id across the participant, organizer and creator lists taken
      in that order: the earliest copy wins. */
  lemma MergeFirstCopyWins(participant: seq<EventData>, organizer: seq<EventData>, creator: seq<EventData>, id: string)
    ensures FirstWithId(Merge(participant, organizer, creator), id)
         == FirstWithId(participant + organizer + creator, id)
  {
    var half := AppendMissing(participant, organizer);
    AppendMissingFirst(half, creator, id);
    FirstWithIdAppend(half, creator, id);
    FirstWithIdAppend(participant + organizer, creator, id);
    AppendMissingFirst(participant, organizer, id);
    AppendMissingIds(participant, organizer);
    IdsAppend(participant, organizer);
  }

  /** Merging the organizer and creator lists again into an already merged
      list adds nothing. */
  lemma MergeIdempotent(participant: seq<EventData>, organizer: seq<EventData>, creator: seq<EventData>)
    ensures AppendMissing(Merge(participant, organizer, creator), organizer + creator)
         == Merge(participant, organizer, creator)
  {
    var merged := Merge(participant, organizer, creator);
    MergeIds(participant, organizer, creator);
    IdsAppend(organizer, creator);
    AppendMissingIsFirsts(merged, organizer + creator);
    FirstsOfSeen(Ids(merged), organizer + creator);
  }

  lemma {:induction false} FirstsOfSeen(seen: set<string>, events: seq<EventData>)
    requires Ids(events) <= seen
    ensures FirstsOf(seen, events) == []
    decreases |events|
  {
    if events != [] {
      assert events == [events[0]] + events[1..];
      IdsCons(events[0], events[1..]);
      FirstsOfSeen(seen, events[1..]);
    }
  }
}
