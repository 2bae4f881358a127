/** A route whose pass fails does not disturb the others: the pass goes on as if the route had not been listed. */
module FailureIsolation {
  import opened Common
  import opened Fleet
  import opened Reconciliation
  import opened Projection

  lemma NothingJoins(s: Summary)
    ensures Join(s, NOTHING) == s
  {
    assert s.routes + [] == s.routes && s.packages + [] == s.packages && s.trucksMoved + [] == s.trucksMoved;
    assert s.trucksReleased + [] == s.trucksReleased && s.trucksReconciled + [] == s.trucksReconciled;
    assert s.corrections + [] == s.corrections;
  }

  lemma FailedPass(w: World, rid: int, now: Time, s: Summary)
    requires Closed(w) && rid in w.routes && Blocked(w, rid, now)
    ensures WorldAfter(w, rid, now) == w && Join(s, SummaryOf(w, rid, now)) == s
  {
    NothingJoins(s);
  }

  /** In any world whose references are known, routes that share trucks or packages included: a route that fails when
      its turn comes leaves the same world and the same report as a pass that never visits it. */
  lemma {:induction false} FailedRouteIsAsIfAbsent(w: World, ids: seq<int>, i: nat, now: Time)
    requires Closed(w) && forall k :: 0 <= k < |ids| ==> ids[k] in w.routes
    requires i < |ids| && Blocked(Pass(w, ids[..i], now).0, ids[i], now)
    ensures Pass(w, ids, now) == Pass(w, RemoveAt(ids, i), now)
  {
    hide Blocked, WorldAfter, SummaryOf, Join, Closed;
    var n := |ids| - 1;
    if i == n {
      assert RemoveAt(ids, i) == ids[..n];
      FailedPass(Pass(w, ids[..n], now).0, ids[n], now, Pass(w, ids[..n], now).1);
    } else {
      assert ids[..n][..i] == ids[..i];
      FailedRouteIsAsIfAbsent(w, ids[..n], i, now);
      var rest := RemoveAt(ids, i);
      assert rest[|rest| - 1] == ids[n] && rest[..|rest| - 1] == RemoveAt(ids[..n], i);
    }
  }

  /** The listed routes whose pass will succeed, judged before any pass. */
  function Succeeding(w: World, ids: seq<int>, now: Time): (r: seq<int>)
    requires Closed(w) && forall k :: 0 <= k < |ids| ==> ids[k] in w.routes
    ensures forall k :: 0 <= k < |r| ==> r[k] in w.routes && !Blocked(w, r[k], now)
  {
    if ids == [] then []
    else
      var n := |ids| - 1;
      Succeeding(w, ids[..n], now) + if Blocked(w, ids[n], now) then [] else [ids[n]]
  }

  /** In a linked world the failing routes are known before the pass, and the pass is the pass over the others. */
  lemma {:induction false} FailuresAreForeseen(w: World, ids: seq<int>, now: Time)
    requires Linked(w) && Enumerates(ids, w)
    ensures Pass(w, ids, now) == Pass(w, Succeeding(w, ids, now), now)
  {
    assert Closed(w);
    hide Blocked, WorldAfter, SummaryOf, Join, Closed, Linked, IsProjection;
    if ids != [] {
      var n := |ids| - 1;
      var v := Pass(w, ids[..n], now).0;
      FailuresAreForeseen(w, ids[..n], now);
      PassIsProjection(w, ids[..n], now);
      UntouchedYet(w, Elements(ids[..n]), ids[n], now, v);
      if Blocked(w, ids[n], now) {
        FailedPass(v, ids[n], now, Pass(w, ids[..n], now).1);
        assert Succeeding(w, ids, now) == Succeeding(w, ids[..n], now);
      } else {
        var rest := Succeeding(w, ids, now);
        assert rest[..|rest| - 1] == Succeeding(w, ids[..n], now);
      }
    }
  }
}
