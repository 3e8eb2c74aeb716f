/** The browser's bounded list of recently handled event IDs. */
module RecentIds {
  import opened Contract
  import opened Tables

  function Other(id: EventId): EventId -> bool { (x: EventId) => x != id }

  function Last<T>(s: seq<T>, cap: nat): seq<T> {
    if |s| <= cap then s else s[|s| - cap..]
  }

  /** The handled ID moves to the end; the oldest ones fall off beyond the capacity. */
  function Remember(recent: seq<EventId>, cap: nat, id: EventId): (r: seq<EventId>)
    ensures |r| <= cap
    ensures cap >= 1 ==> |r| >= 1 && r[|r| - 1] == id
  {
    Last(Filter(recent, Other(id)) + [id], cap)
  }

  ghost predicate Distinct(s: seq<EventId>) {
    forall i, j :: 0 <= i < j < |s| ==> s[i] != s[j]
  }

  lemma DistinctConcat(a: seq<EventId>, b: seq<EventId>)
    requires Distinct(a) && Distinct(b)
    requires forall x :: x in a ==> x !in b
    ensures Distinct(a + b)
  {
    forall i, j | 0 <= i < j < |a + b|
      ensures (a + b)[i] != (a + b)[j]
    {
      if i < |a| <= j {
        assert a[i] in a && b[j - |a|] in b;
      }
    }
  }

  lemma {:induction false} FilterKeepsDistinct(recent: seq<EventId>, id: EventId)
    requires Distinct(recent)
    ensures Distinct(Filter(recent, Other(id)))
  {
    if recent != [] {
      var head := if recent[0] != id then [recent[0]] else [];
      FilterKeepsDistinct(recent[1..], id);
      FilterFromRows(recent[1..], Other(id));
      forall x | x in recent[1..]
        ensures x != recent[0]
      {
      }
      DistinctConcat(head, Filter(recent[1..], Other(id)));
    }
  }

  /** What a deduplicator holds: distinct IDs within capacity. */
  ghost predicate WellKept(recent: seq<EventId>, cap: nat) {
    |recent| <= cap && Distinct(recent)
  }

  lemma RememberWellKept(recent: seq<EventId>, cap: nat, id: EventId)
    requires WellKept(recent, cap)
    ensures WellKept(Remember(recent, cap, id), cap)
  {
    FilterKeepsDistinct(recent, id);
    FilterKeeps(recent, Other(id));
    var rest := Filter(recent, Other(id));
    forall x | x in rest
      ensures x != id
    {
      var i :| 0 <= i < |rest| && rest[i] == x;
      assert Other(id)(rest[i]);
    }
    DistinctConcat(rest, [id]);
  }

  /** A known ID is taken out of its one place. */
  lemma TakenOut(recent: seq<EventId>, id: EventId) returns (i: nat)
    requires Distinct(recent) && id in recent
    ensures i < |recent| && recent[i] == id && Filter(recent, Other(id)) == recent[..i] + recent[i + 1..]
  {
    i :| 0 <= i < |recent| && recent[i] == id;
    var before, behind := recent[..i], recent[i + 1..];
    assert recent == before + [id] + behind;
    FilterSuffix(before, Other(id), 0);
    FilterSuffix(behind, Other(id), 0);
    FilterNone([id], Other(id));
    hide Filter;
    FilterConcat(before, [id], Other(id));
    FilterConcat(before + [id], behind, Other(id));
  }

  /** What is remembered: the ID last; before it all the others in order while there is room, else all but the oldest. */
  lemma RememberForgetsOldest(recent: seq<EventId>, cap: nat, id: EventId)
    requires WellKept(recent, cap) && cap >= 1
    ensures var after := Remember(recent, cap, id);
            && (id !in recent ==> after == (if |recent| < cap then recent else recent[1..]) + [id])
            && (id in recent ==> exists i :: 0 <= i < |recent| && recent[i] == id && after == recent[..i] + recent[i + 1..] + [id])
  {
    if id !in recent {
      FilterSuffix(recent, Other(id), 0);
      hide Filter;
    } else {
      hide Filter, Distinct;
      var i := TakenOut(recent, id);
      assert |recent[..i] + recent[i + 1..]| == |recent| - 1;
    }
  }

  class Deduplicator {
    var recent: seq<EventId>
    const cap: nat

    ghost predicate Valid()
      reads this
    {
      cap >= 1 && WellKept(recent, cap)
    }

    constructor (cap: nat)
      requires 1 <= cap <= 1_000
      ensures Valid() && recent == [] && this.cap == cap
    {
      this.cap := cap;
      recent := [];
    }

    method RememberEvent(id: EventId)
      requires Valid()
      modifies this`recent
      ensures Valid() && recent == Remember(old(recent), cap, id)
    {
      RememberWellKept(recent, cap, id);
      recent := Last(Filter(recent, Other(id)) + [id], cap);
    }

    /** Skips a known event; otherwise runs the handler and remembers the event only if it completed. */
    method Handle(id: EventId, handlerCompletes: bool) returns (duplicate: bool, completed: bool)
      requires Valid()
      modifies this`recent
      ensures Valid()
      ensures duplicate == (id in old(recent)) && completed == (!duplicate && handlerCompletes)
      ensures recent == if completed then Remember(old(recent), cap, id) else old(recent)
    {
      duplicate, completed := id in recent, false;
      if !duplicate && handlerCompletes {
        RememberEvent(id);
        completed := true;
      }
    }
  }
}
