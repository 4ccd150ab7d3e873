/**
 * What `loadAllHLSStream` accumulates from the merged per-entry publishers:
 * every `.success` value goes to the details list and every `.failure` to the
 * error list, each in the order the values arrive.
 */
module PlaylistFold {
  import opened Results
  import opened Errors
  import opened Models

  /** One value of the merged stream: a decoded entry, or the error that entry's request produced. */
  type Arrival = Result<PlaybackResponseModel, SwiftError>

  /** The details list after the given arrivals, in arrival order. */
  function Successes(arrivals: seq<Arrival>): seq<PlaybackResponseModel> {
    if arrivals == [] then []
    else
      var last := arrivals[|arrivals| - 1];
      Successes(arrivals[..|arrivals| - 1]) + (if last.Success? then [last.value] else [])
  }

  /** The error list after the given arrivals, in arrival order, each mapped to a `PlaybackAPIError`. */
  function Failures(arrivals: seq<Arrival>): seq<PlaybackAPIError> {
    if arrivals == [] then []
    else
      var last := arrivals[|arrivals| - 1];
      Failures(arrivals[..|arrivals| - 1]) + (if last.Failure? then [AsPlaybackAPIError(last.error)] else [])
  }

  /** Every arrival lands in exactly one of the two lists. */
  lemma {:induction false} PartitionCount(arrivals: seq<Arrival>)
    ensures |Successes(arrivals)| + |Failures(arrivals)| == |arrivals|
  {
    if arrivals != [] {
      PartitionCount(arrivals[..|arrivals| - 1]);
    }
  }

  /** The fold processes arrivals one after another: later arrivals are appended after earlier ones. */
  lemma {:induction false} FoldConcat(a: seq<Arrival>, b: seq<Arrival>)
    ensures Successes(a + b) == Successes(a) + Successes(b)
    ensures Failures(a + b) == Failures(a) + Failures(b)
  {
    if b == [] {
      assert a + b == a;
    } else {
      var init := b[..|b| - 1];
      assert (a + b)[..|a + b| - 1] == a + init;
      assert (a + b)[|a + b| - 1] == b[|b| - 1];
      FoldConcat(a, init);
    }
  }

  /** A decoded entry is in the details list exactly when it arrived as a success. */
  lemma {:induction false} SuccessMembership(arrivals: seq<Arrival>, d: PlaybackResponseModel)
    ensures d in Successes(arrivals) <==> Success(d) in arrivals
  {
    if arrivals != [] {
      var init := arrivals[..|arrivals| - 1];
      SuccessMembership(init, d);
      assert arrivals == init + [arrivals[|arrivals| - 1]];
    }
  }

  /** An error is in the error list exactly when some arrival failed with an error that maps to it. */
  lemma {:induction false} FailureMembership(arrivals: seq<Arrival>, e: PlaybackAPIError)
    ensures e in Failures(arrivals) <==>
      exists i :: 0 <= i < |arrivals| && arrivals[i].Failure? && AsPlaybackAPIError(arrivals[i].error) == e
  {
    if arrivals != [] {
      var n := |arrivals| - 1;
      var init := arrivals[..n];
      FailureMembership(init, e);
      if e in Failures(arrivals) && e !in Failures(init) {
        assert arrivals[n].Failure? && AsPlaybackAPIError(arrivals[n].error) == e;
      }
      if exists i :: 0 <= i < |arrivals| && arrivals[i].Failure? && AsPlaybackAPIError(arrivals[i].error) == e {
        var i :| 0 <= i < |arrivals| && arrivals[i].Failure? && AsPlaybackAPIError(arrivals[i].error) == e;
        if i < n {
          assert init[i] == arrivals[i];
        }
      }
    }
  }

  /** The error list is empty exactly when every arrival succeeded; then the details list holds every value in order. */
  lemma {:induction false} AllSucceeded(arrivals: seq<Arrival>)
    ensures Failures(arrivals) == [] <==> forall i :: 0 <= i < |arrivals| ==> arrivals[i].Success?
    ensures Failures(arrivals) == [] ==>
      |Successes(arrivals)| == |arrivals| &&
      forall i :: 0 <= i < |arrivals| ==> Successes(arrivals)[i] == arrivals[i].value
  {
    if arrivals != [] {
      var n := |arrivals| - 1;
      var init := arrivals[..n];
      AllSucceeded(init);
      PartitionCount(init);
      assert forall i :: 0 <= i < n ==> init[i] == arrivals[i];
    }
  }

  /**
   * Three arrivals whose middle arrival is an API error (the answer for an
   * unknown entry id, say): two details in arrival order and that one error.
   */
  lemma OneMissingEntry(a: PlaybackResponseModel, c: PlaybackResponseModel, notFound: PlaybackAPIError)
    requires notFound.ApiError?
    ensures Successes([Success(a), Failure(PlaybackAPI(notFound)), Success(c)]) == [a, c]
    ensures Failures([Success(a), Failure(PlaybackAPI(notFound)), Success(c)]) == [notFound]
  {
    var first: seq<Arrival> := [Success(a)];
    var second: seq<Arrival> := first + [Failure(PlaybackAPI(notFound))];
    var arrivals := second + [Success(c)];
    assert first[..0] == [];
    assert second[..1] == first;
    assert arrivals[..2] == second;
    assert Successes(first) == [a] && Failures(first) == [];
    assert Successes(second) == [a] && Failures(second) == [notFound];
    assert arrivals == [Success(a), Failure(PlaybackAPI(notFound)), Success(c)];
  }
}
