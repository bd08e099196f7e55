/** The history of a lease: token n is the one drawn for the n-th claim, so `claims[n]` is the row claimed. */
module Leases {
  import opened Wrappers

  // The token of a row's latest claim.
  function Latest<T(==)>(claims: seq<T>, id: T): (token: Option<nat>)
    ensures token.Some? ==> token.value < |claims| && claims[token.value] == id
  {
    if claims == [] then None
    else if claims[|claims| - 1] == id then Some(|claims| - 1)
    else Latest(claims[..|claims| - 1], id)
  }

  lemma LatestAfterClaim<T>(claims: seq<T>, id: T, other: T)
    ensures Latest(claims + [id], other) == if other == id then Some(|claims|) else Latest(claims, other)
  {
    assert (claims + [id])[..|claims|] == claims;
  }

  // ----- Fencing -----

  // A row holds a token and a deadline exactly while it is busy; then the token is that of its latest claim,
  // which has not completed, and a latest claim that has not completed keeps it busy.
  predicate IsFenced(busy: bool, token: Option<nat>, deadline: Option<int>, latest: Option<nat>, done: seq<nat>) {
    && (busy <==> token.Some?)
    && (busy <==> deadline.Some?)
    && (busy <==> latest.Some? && latest.value !in done)
    && (busy ==> token == latest)
  }

  // Claims are of known rows, and no claim has completed twice.
  ghost predicate AreKept<T>(claims: seq<T>, done: seq<nat>, ids: set<T>) {
    && (forall n :: 0 <= n < |claims| ==> claims[n] in ids)
    && (forall n :: 0 <= n < |done| ==> done[n] < |claims|)
    && (forall m, n :: 0 <= m < n < |done| ==> done[m] != done[n])
  }

  // ----- The first of the due rows -----

  ghost predicate IsFirst<T(!new)>(ids: set<T>, before: (T, T) -> bool, id: T) {
    id in ids && forall other :: other in ids ==> before(id, other)
  }

  ghost predicate IsOrder<T(!new)>(ids: set<T>, before: (T, T) -> bool) {
    && (forall a, b :: a in ids && b in ids ==> before(a, b) || before(b, a))
    && (forall a, b, c :: a in ids && b in ids && c in ids && before(a, b) && before(b, c) ==> before(a, c))
  }

  lemma {:induction false} FirstExists<T(!new)>(ids: set<T>, before: (T, T) -> bool)
    requires ids != {} && IsOrder(ids, before)
    ensures exists id :: IsFirst(ids, before, id)
  {
    var some :| some in ids;
    assert before(some, some);
    if ids == {some} {
      assert IsFirst(ids, before, some);
    } else {
      FirstExists(ids - {some}, before);
      var first :| IsFirst(ids - {some}, before, first);
      var best := if before(first, some) then first else some;
      forall other | other in ids
        ensures before(best, other)
      {
        assert other == some || other in ids - {some};
      }
      assert IsFirst(ids, before, best);
    }
  }

  // The same, spelled out.
  lemma FirstIsThere<T(!new)>(ids: set<T>, before: (T, T) -> bool)
    requires ids != {} && IsOrder(ids, before)
    ensures exists id :: id in ids && forall other :: other in ids ==> before(id, other)
  {
    FirstExists(ids, before);
    var id :| IsFirst(ids, before, id);
    assert id in ids && forall other :: other in ids ==> before(id, other);
  }

  // A pass has taken these ids, each once and in order, and those still due come after them.
  ghost predicate InTurn<T(!new)>(ids: seq<T>, due: set<T>, done: set<T>, before: (T, T) -> bool) {
    && (forall id :: id in ids <==> id in done)
    && (forall i, j :: 0 <= i < j < |ids| ==> ids[i] != ids[j] && before(ids[i], ids[j]))
    && (forall i, id :: 0 <= i < |ids| && id in due && id !in done ==> before(ids[i], id))
  }

  lemma NextInTurn<T(!new)>(ids: seq<T>, id: T, due: set<T>, done: set<T>, before: (T, T) -> bool)
    requires InTurn(ids, due, done, before) && id in due && id !in done
    requires forall other :: other in due && other !in done ==> before(id, other)
    ensures InTurn(ids + [id], due, done + {id}, before)
  {
  }

  lemma {:induction false} DistinctAreCounted<T>(ids: seq<T>, done: set<T>)
    requires forall i, j :: 0 <= i < j < |ids| ==> ids[i] != ids[j]
    requires forall id :: id in ids <==> id in done
    ensures |ids| == |done|
  {
    if ids == [] {
      assert done == {};
    } else {
      var n := |ids| - 1;
      forall id
        ensures id in ids[..n] <==> id in done - {ids[n]}
      {
        if id in done - {ids[n]} {
          assert id in ids;
        }
      }
      assert ids[n] in done;
      DistinctAreCounted(ids[..n], done - {ids[n]});
    }
  }
}
