/** The ordered list of record ids the publication keeps for the current
    page, and the two edits the filtered cursor's change feed makes to it:
    `push` on `added`, `_.without` on `removed`. */
module IdLists {

  /** A record id (Mongo `_id`). */
  type Id = string

  /** Underscore's `_.without(ids, id)`: a new list with every occurrence of
      `id` dropped. Each other id keeps all its occurrences. */
  function Without(ids: seq<Id>, id: Id): (r: seq<Id>)
    ensures multiset(r) == multiset(ids)[id := 0]
  {
    if ids == [] then []
    else
      assert ids == [ids[0]] + ids[1..];
      if ids[0] == id then Without(ids[1..], id)
      else [ids[0]] + Without(ids[1..], id)
  }

  /** `_.without` keeps the relative order of what it keeps: it is applied
      piecewise to any split of the list. */
  lemma {:induction false} WithoutDistributes(a: seq<Id>, b: seq<Id>, id: Id)
    ensures Without(a + b, id) == Without(a, id) + Without(b, id)
  {
    if a == [] {
      assert a + b == b;
    } else {
      assert (a + b)[0] == a[0];
      assert (a + b)[1..] == a[1..] + b;
      WithoutDistributes(a[1..], b, id);
    }
  }

  /** Removing an id that is not in the list leaves the list as it was. */
  lemma {:induction false} WithoutAbsent(ids: seq<Id>, id: Id)
    requires id !in ids
    ensures Without(ids, id) == ids
  {
    if ids != [] {
      assert id !in ids[1..];
      WithoutAbsent(ids[1..], id);
      assert ids == [ids[0]] + ids[1..];
    }
  }

  /** A change event delivered by the filtered cursor's `observeChanges`. */
  datatype FeedEvent = AddedId(id: Id) | RemovedId(id: Id)

  /** The list after one event, once initialization is over: an added id is
      appended with no duplicate check, a removed id is dropped everywhere. */
  function Apply(ids: seq<Id>, e: FeedEvent): seq<Id>
  {
    match e
    case AddedId(id) => ids + [id]
    case RemovedId(id) => Without(ids, id)
  }

  function Replay(ids: seq<Id>, events: seq<FeedEvent>): seq<Id>
    decreases |events|
  {
    if events == [] then ids else Replay(Apply(ids, events[0]), events[1..])
  }

  /** The set of matching ids as the data store sees it, after the events. */
  function ReplaySet(s: set<Id>, events: seq<FeedEvent>): set<Id>
    decreases |events|
  {
    if events == [] then s
    else
      var e := events[0];
      ReplaySet(if e.AddedId? then s + {e.id} else s - {e.id}, events[1..])
  }

  /** The feed only reports an id as added when it was not already there. */
  predicate Consistent(s: set<Id>, events: seq<FeedEvent>)
    decreases |events|
  {
    events != [] ==>
      var e := events[0];
      && (e.AddedId? ==> e.id !in s)
      && Consistent(if e.AddedId? then s + {e.id} else s - {e.id}, events[1..])
  }

  ghost predicate NoDuplicates(ids: seq<Id>)
  {
    forall x :: multiset(ids)[x] <= 1
  }

  function Elements(ids: seq<Id>): set<Id>
  {
    set x | x in ids
  }

  /** Replaying a feed that never re-adds a present id, starting from a list
      without duplicates, keeps the list free of duplicates and makes it hold
      exactly the ids the data store currently matches. */
  lemma {:induction false} ReplayTracksMatches(ids: seq<Id>, events: seq<FeedEvent>)
    requires NoDuplicates(ids)
    requires Consistent(Elements(ids), events)
    ensures NoDuplicates(Replay(ids, events))
    ensures Elements(Replay(ids, events)) == ReplaySet(Elements(ids), events)
    decreases |events|
  {
    if events != [] {
      var e := events[0];
      var next := Apply(ids, e);
      var s' := if e.AddedId? then Elements(ids) + {e.id} else Elements(ids) - {e.id};
      if e.AddedId? {
        assert multiset(next) == multiset(ids) + multiset{e.id};
        forall x ensures multiset(next)[x] <= 1 {
          if x == e.id {
            assert x !in multiset(ids);
          }
        }
      }
      forall x ensures x in next <==> x in s' {
        assert x in next <==> x in multiset(next);
        assert x in ids <==> x in multiset(ids);
      }
      assert Elements(next) == s';
      ReplayTracksMatches(next, events[1..]);
    }
  }
}
