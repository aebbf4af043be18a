/** Properties of whole sessions: a connection driven through a sequence of
    `query` calls, then released, then checked. */
module Replay {
  import opened Values
  import opened Failures
  import opened PgMockClient
  import opened PgMock

  datatype Call = Call(sql: string, params: seq<Param>)

  /** Issue the calls in order, one `query` each, collecting what each call
      produced. A synchronous failure does not stop the later calls: the
      cursor it advanced stays advanced. */
  function Run(s: ClientState, calls: seq<Call>): (r: (ClientState, seq<QueryOutcome>))
    ensures |r.1| == |calls|
  {
    if calls == [] then (s, [])
    else
      var prev := Run(s, calls[..|calls| - 1]);
      var last := calls[|calls| - 1];
      var step := QueryStep(prev.0, last.sql, last.params);
      (step.next, prev.1 + [step.outcome])
  }

  /** A call meets an expectation when the mock accepts it there: any call
      meets a scripted error, and otherwise the SQL text must equal the
      scripted text and the parameters must satisfy the pattern (`[]` when
      absent). */
  predicate Meets(c: Call, e: Expectation) {
    e.result.Failed? || (c.sql == e.query && Satisfies(c.params, e.params.GetOr([])))
  }

  /** What the callback of a matching call receives for a scripted result. */
  function Delivered(result: ScriptedResult): QueryOutcome {
    match result
    case Failed(e) => DeliverError(e)
    case Rows(rows, rowCount) => DefaultResult(rows, rowCount)
  }

  predicate AnyFailed(script: seq<Expectation>) {
    exists i :: 0 <= i < |script| && script[i].result.Failed?
  }

  /** The cursor value after `k` calls. */
  function CursorAfter(k: nat): Option<nat> {
    if k == 0 then None else Some(k - 1)
  }

  /** On a connection that is not released, every call moves the cursor by
      exactly one place: it never decreases or skips, and the script and
      pool flags stay as they were. */
  lemma {:induction false} RunAdvancesCursor(s: ClientState, calls: seq<Call>)
    requires !Done(s)
    ensures var t := Run(s, calls).0;
      && Calls(t.callIndex) == Calls(s.callIndex) + |calls|
      && t.expectedCalls == s.expectedCalls
      && t.removedFromPool == s.removedFromPool && t.returnedToPool == s.returnedToPool
      && (s.errored ==> t.errored)
    decreases |calls|
  {
    if calls != [] {
      RunAdvancesCursor(s, calls[..|calls| - 1]);
    }
  }

  /** A call that meets the expectation under the cursor of an unreleased
      connection delivers that expectation's result and moves the cursor on. */
  lemma MeetingStep(script: seq<Expectation>, k: nat, errored: bool, c: Call)
    requires k < |script| && Meets(c, script[k])
    ensures QueryStep(ClientState(script, CursorAfter(k), errored, false, false), c.sql, c.params)
      == Step(ClientState(script, CursorAfter(k + 1), errored || script[k].result.Failed?, false, false),
              Delivered(script[k].result))
  {
  }

  lemma AnyFailedSnoc(script: seq<Expectation>, k: nat)
    requires k < |script|
    ensures AnyFailed(script[..k + 1]) == (AnyFailed(script[..k]) || script[k].result.Failed?)
  {
    assert script[..k + 1][k] == script[k];
    if AnyFailed(script[..k + 1]) && !script[k].result.Failed? {
      var j :| 0 <= j < k + 1 && script[..k + 1][j].result.Failed?;
      assert script[..k][j].result.Failed?;
    }
    if AnyFailed(script[..k]) {
      var j :| 0 <= j < k && script[..k][j].result.Failed?;
      assert script[..k + 1][j].result.Failed?;
    }
  }

  /** Issuing, on a fresh connection, calls that each meet the expectation
      at their position delivers each scripted result in order, leaves the
      cursor at the last call and marks the connection errored exactly when
      one of the expectations consumed was an error. */
  lemma {:induction false} ReplayPrefix(script: seq<Expectation>, calls: seq<Call>)
    requires |calls| <= |script|
    requires forall i :: 0 <= i < |calls| ==> Meets(calls[i], script[i])
    ensures var r := Run(Initial(script), calls);
      && r.0 == ClientState(script, CursorAfter(|calls|), AnyFailed(script[..|calls|]), false, false)
      && forall i :: 0 <= i < |calls| ==> r.1[i] == Delivered(script[i].result)
    decreases |calls|
  {
    var k := |calls|;
    if k == 0 {
      assert script[..0] == [];
    } else {
      var init := calls[..k - 1];
      assert forall i :: 0 <= i < |init| ==> init[i] == calls[i];
      ReplayPrefix(script, init);
      MeetingStep(script, k - 1, AnyFailed(script[..k - 1]), calls[k - 1]);
      AnyFailedSnoc(script, k - 1);
    }
  }

  /** A session that issues exactly as many queries as the script holds,
      each meeting the expectation at its position, and then releases the
      connection to the place its error status demands (removed after an
      error, returned otherwise) passes `assert`. Each query delivers its
      scripted result. */
  lemma FaithfulSessionPasses(script: seq<Expectation>, calls: seq<Call>)
    requires |calls| == |script|
    requires forall i :: 0 <= i < |calls| ==> Meets(calls[i], script[i])
    ensures var r := Run(Connected(Initial(script), None), calls);
      && (forall i :: 0 <= i < |script| ==> r.1[i] == Delivered(script[i].result))
      && r.0.errored == AnyFailed(script)
      && Verify(Released(r.0, AnyFailed(script))) == None
  {
    ReplayPrefix(script, calls);
    assert script[..|calls|] == script;
  }

  /** Stopping after fewer queries than the script holds fails `assert` on
      the count, released or not, naming the script length and the number of
      calls, whatever those calls were. */
  lemma FewerCallsFail(script: seq<Expectation>, calls: seq<Call>, remove: bool)
    requires |calls| < |script|
    ensures var t := Run(Initial(script), calls).0;
      && Verify(t) == Some(CountMismatch(|script|, |calls|))
      && Verify(Released(t, remove)) == Some(CountMismatch(|script|, |calls|))
  {
    RunAdvancesCursor(Initial(script), calls);
  }

  /** Once as many queries as the script holds have been issued, whatever
      they were, the next query fails at once with the count check: the
      script length against the number of calls including this one. */
  lemma OneCallTooMany(script: seq<Expectation>, calls: seq<Call>, sql: string, params: seq<Param>)
    requires |script| <= |calls|
    ensures var t := Run(Initial(script), calls).0;
      QueryStep(t, sql, params).outcome == Raise(CountMismatch(|script|, |calls| + 1))
  {
    RunAdvancesCursor(Initial(script), calls);
    QueryPastScript(Run(Initial(script), calls).0, sql, params);
  }

  /** Once the query count is right, the release decides `assert`: it
      passes exactly when the connection was removed after an error or
      returned without one, and each wrong choice, and no release at all, is
      reported with its own pool failure. */
  lemma ReleaseDecidesVerify(s: ClientState, remove: bool)
    requires !Done(s) && |s.expectedCalls| == Calls(s.callIndex)
    ensures Verify(Released(s, remove)) == None <==> remove == s.errored
    ensures s.errored && !remove ==> Verify(Released(s, remove)) == Some(PoolMismatch(ReturnedToPool, false))
    ensures !s.errored && remove ==> Verify(Released(s, remove)) == Some(PoolMismatch(RemovedFromPool, false))
    ensures Verify(s) == Some(PoolMismatch(if s.errored then RemovedFromPool else ReturnedToPool, true))
  {
  }

  /** Releasing in both directions always fails `assert`: on the count if
      that is wrong, and otherwise on the flag the error status forbids. */
  lemma DoubleReleaseFails(s: ClientState, first: bool, second: bool)
    requires first != second
    ensures Verify(Released(Released(s, first), second)).Some?
    ensures |s.expectedCalls| != Calls(s.callIndex) ==>
      Verify(Released(Released(s, first), second)) == Some(CountMismatch(|s.expectedCalls|, Calls(s.callIndex)))
    ensures |s.expectedCalls| == Calls(s.callIndex) ==>
      Verify(Released(Released(s, first), second))
        == Some(PoolMismatch(if s.errored then ReturnedToPool else RemovedFromPool, false))
  {
  }

  /** A connect error leaves an empty script and an errored connection;
      releasing with a truthy argument then passes `assert`, releasing
      without one fails with "not to be returned", and not releasing fails
      with "to be removed". */
  lemma ConnectErrorSession(e: Error)
    ensures var s := Connected(Initial([]), Some(e));
      && s.errored
      && Verify(Released(s, true)) == None
      && Verify(Released(s, false)) == Some(PoolMismatch(ReturnedToPool, false))
      && Verify(s) == Some(PoolMismatch(RemovedFromPool, true))
  {
  }
}
