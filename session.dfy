/**
  What a sequence of fetches does to the screen: the mount fetch followed by
  retries, each one settling before the next begins.
 */
module Session {
  import opened Wrappers
  import opened LocationProvider
  import opened ScreenState
  import opened Render

  /** An attempt that fails with an empty or absent message: it leaves `errorMsg` falsy. */
  predicate BlankFailure(r: Replies) {
    Result(r).Failed? && MessageText(Result(r).message) == ""
  }

  /** The number of attempts whose permission request is granted. */
  function GrantedCount(rs: seq<Replies>): nat
    decreases |rs|
  {
    if rs == [] then 0
    else (if PermissionGranted(rs[0].permission) then 1 else 0) + GrantedCount(rs[1..])
  }

  /** Attempt `i` succeeds and no later attempt does. */
  predicate LastSuccess(rs: seq<Replies>, i: nat)
    requires i < |rs|
  {
    Result(rs[i]).Located? && forall j :: i < j < |rs| ==> !Result(rs[j]).Located?
  }

  /** Attempt `i` fails and no later attempt does. */
  predicate LastFailure(rs: seq<Replies>, i: nat)
    requires i < |rs|
  {
    Result(rs[i]).Failed? && forall j :: i < j < |rs| ==> !Result(rs[j]).Failed?
  }

  /** While a fetch is in flight the loading view shows, whatever the other cells hold. */
  lemma InFlightShowsLoading(c: Cells)
    ensures View(Began(c)) == LoadingView(LoadingCaption)
  {
  }

  /** After any fetch, loading is off and the loading view is gone. */
  lemma {:induction false} RunSettles(c: Cells, rs: seq<Replies>)
    requires rs != []
    ensures !RunFetches(c, rs).loading
    ensures !View(RunFetches(c, rs)).LoadingView?
    decreases |rs|
  {
    if |rs| > 1 {
      RunSettles(Fetched(c, rs[0]), rs[1..]);
    }
  }

  /** A refused permission: no position request, the fixed message, the location kept. */
  lemma DeniedFetch(c: Cells, r: Replies)
    requires r.permission.Status? && r.permission.status != Granted
    ensures Calls(r) == [RequestPermission]
    ensures Fetched(c, r) == Cells(false, DeniedMessage, c.location)
    ensures View(Fetched(c, r)) == ErrorView(DeniedMessage, RetryLabel)
  {
  }

  /** A success after an error stores the sample but keeps showing the old error. */
  lemma SuccessKeepsErrorView(c: Cells, r: Replies)
    requires c.errorMsg != ""
    requires Result(r).Located?
    ensures Fetched(c, r).location == Some(Result(r).sample)
    ensures View(Fetched(c, r)) == ErrorView(c.errorMsg, RetryLabel)
  {
  }

  /** A failure with an empty or absent message skips the error view. */
  lemma BlankFailureSkipsErrorView(c: Cells, r: Replies)
    requires BlankFailure(r)
    ensures Fetched(c, r).location == c.location
    ensures View(Fetched(c, r)).MapScreen?
  {
  }

  /**
    The error is sticky: once `errorMsg` is set, fetches that never fail
    with a blank message keep it set, so the map view is never selected.
   */
  lemma {:induction false} ErrorSticky(c: Cells, rs: seq<Replies>)
    requires c.errorMsg != ""
    requires forall i :: 0 <= i < |rs| ==> !BlankFailure(rs[i])
    ensures RunFetches(c, rs).errorMsg != ""
    ensures !View(RunFetches(c, rs)).MapScreen?
    decreases |rs|
  {
    if rs != [] {
      assert !BlankFailure(rs[0]);
      var d := Fetched(c, rs[0]);
      assert d.errorMsg != "";
      forall i | 0 <= i < |rs[1..]|
        ensures !BlankFailure(rs[1..][i])
      {
        assert rs[1..][i] == rs[i + 1];
      }
      ErrorSticky(d, rs[1..]);
    }
  }

  /** Stickiness needs its side condition: denied, then located, then a blank failure shows the map. */
  lemma BlankFailureEndsStickiness(s: Sample)
    ensures var rs := [
        Replies(Status(Denied), Position(s)),
        Replies(Status(Granted), Position(s)),
        Replies(Status(Granted), PositionThrew(None))];
      View(RunFetches(Initial(), rs)) == MapScreen(Some(MapFor(s)))
  {
    var rs := [
      Replies(Status(Denied), Position(s)),
      Replies(Status(Granted), Position(s)),
      Replies(Status(Granted), PositionThrew(None))];
    var c1 := Fetched(Initial(), rs[0]);
    assert c1.errorMsg == DeniedMessage;
    var c2 := Fetched(c1, rs[1]);
    assert c2.location == Some(s);
    var c3 := Fetched(c2, rs[2]);
    assert c3 == Cells(false, "", Some(s));
    assert RunFetches(c2, rs[2..]) == c3;
    assert RunFetches(c1, rs[1..]) == RunFetches(c2, rs[2..]);
  }

  /**
    The location is never cleared: after a run it is the sample of the last
    successful attempt, or the one held before when no attempt succeeded.
   */
  lemma {:induction false} LocationIsLastSample(c: Cells, rs: seq<Replies>)
    ensures (forall i :: 0 <= i < |rs| ==> !Result(rs[i]).Located?) ==>
      RunFetches(c, rs).location == c.location
    ensures forall i :: 0 <= i < |rs| && LastSuccess(rs, i) ==>
      RunFetches(c, rs).location == Some(Result(rs[i]).sample)
    decreases |rs|
  {
    if rs != [] {
      var d := Fetched(c, rs[0]);
      LocationIsLastSample(d, rs[1..]);
      assert forall j :: 1 <= j < |rs| ==> rs[j] == rs[1..][j - 1];
    }
  }

  /**
    Only failures write the error message: after a run it is the message of
    the last failed attempt, or the one held before when none failed.
   */
  lemma {:induction false} ErrorIsLastFailure(c: Cells, rs: seq<Replies>)
    ensures (forall i :: 0 <= i < |rs| ==> !Result(rs[i]).Failed?) ==>
      RunFetches(c, rs).errorMsg == c.errorMsg
    ensures forall i :: 0 <= i < |rs| && LastFailure(rs, i) ==>
      RunFetches(c, rs).errorMsg == MessageText(Result(rs[i]).message)
    decreases |rs|
  {
    if rs != [] {
      var d := Fetched(c, rs[0]);
      ErrorIsLastFailure(d, rs[1..]);
      assert forall j :: 1 <= j < |rs| ==> rs[j] == rs[1..][j - 1];
    }
  }

  /**
    Every request of a run in order: one permission request per fetch, one
    position request per granted fetch, and each position request comes
    straight after a permission request.
   */
  lemma {:induction false} SessionCallOrder(rs: seq<Replies>)
    ensures multiset(SessionCalls(rs))[RequestPermission] == |rs|
    ensures multiset(SessionCalls(rs))[GetCurrentPosition] == GrantedCount(rs)
    ensures forall i :: 0 <= i < |SessionCalls(rs)| && SessionCalls(rs)[i] == GetCurrentPosition ==>
      0 < i && SessionCalls(rs)[i - 1] == RequestPermission
    decreases |rs|
  {
    if rs != [] {
      var head, rest := Calls(rs[0]), SessionCalls(rs[1..]);
      SessionCallOrder(rs[1..]);
      assert SessionCalls(rs) == head + rest;
      forall i | 0 <= i < |head + rest| && (head + rest)[i] == GetCurrentPosition
        ensures 0 < i && (head + rest)[i - 1] == RequestPermission
      {
        if i >= |head| {
          assert (head + rest)[i] == rest[i - |head|];
          if i > |head| {
            assert (head + rest)[i - 1] == rest[i - 1 - |head|];
          }
        }
      }
    }
  }
}
