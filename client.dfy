/** The mock connection: an ordered script of expected queries, a cursor
    into it, and three lifecycle flags. `ClientState` is the value of those
    fields; the functions over it specify `query` and `assert`, and the class
    `MockClient` updates the same fields in place. */
module PgMockClient {
  import opened Values
  import opened Failures

  datatype ClientState = ClientState(
    expectedCalls: seq<Expectation>,
    callIndex: Option<nat>,  // None until the first query
    errored: bool,
    removedFromPool: bool,
    returnedToPool: bool)

  /** What a `query` call hands back: a synchronous failure, or the value its
      callback will be given (an error in the error slot, or `null` and a
      result). */
  datatype QueryOutcome =
    | Raise(failure: Failure)
    | DeliverError(error: Error)
    | DeliverRows(rows: seq<Row>, rowCount: int)

  /** The state after one `query` call and what that call produced. */
  datatype Step = Step(next: ClientState, outcome: QueryOutcome)

  /** A fresh connection over a script. */
  function Initial(expectedCalls: seq<Expectation>): ClientState {
    ClientState(expectedCalls, None, false, false, false)
  }

  /** The number of `query` calls made so far; this is also the index the
      next call moves the cursor to. */
  function Calls(callIndex: Option<nat>): nat {
    match callIndex
    case None => 0
    case Some(i) => i + 1
  }

  /** Released in either direction. */
  predicate Done(s: ClientState) {
    s.removedFromPool || s.returnedToPool
  }

  function FirstOf(a: Option<Failure>, b: Option<Failure>): Option<Failure> {
    if a.Some? then a else b
  }

  /** The custom assertion 'to have expected query count'. */
  function CheckQueryCount(s: ClientState): (r: Option<Failure>)
    ensures r == None <==> |s.expectedCalls| == Calls(s.callIndex)
    ensures r.Some? ==> r.value == CountMismatch(|s.expectedCalls|, Calls(s.callIndex))
  {
    var expected, calls := |s.expectedCalls|, Calls(s.callIndex);
    if expected == calls then None else Some(CountMismatch(expected, calls))
  }

  /** The custom assertion '[not] to be removed from connection pool'; the
      `not` form is `expectedSet == false`. */
  function CheckRemoved(s: ClientState, expectedSet: bool): (r: Option<Failure>)
    ensures r == None <==> s.removedFromPool == expectedSet
    ensures r.Some? ==> r.value == PoolMismatch(RemovedFromPool, expectedSet)
  {
    if s.removedFromPool == expectedSet then None else Some(PoolMismatch(RemovedFromPool, expectedSet))
  }

  /** The custom assertion '[not] to be returned to connection pool'. */
  function CheckReturned(s: ClientState, expectedSet: bool): (r: Option<Failure>)
    ensures r == None <==> s.returnedToPool == expectedSet
    ensures r.Some? ==> r.value == PoolMismatch(ReturnedToPool, expectedSet)
  {
    if s.returnedToPool == expectedSet then None else Some(PoolMismatch(ReturnedToPool, expectedSet))
  }

  /** The connection's `assert`: the first failing check, or None. It passes
      exactly when every scripted query was issued and the connection was
      released to the right place for its error status: removed and not
      returned after an error, returned and not removed otherwise. A wrong
      count is reported first; then, after an error, "not to be returned"
      before "to be removed", and otherwise "not to be removed" before "to be
      returned". */
  function Verify(s: ClientState): (r: Option<Failure>)
    ensures r == None <==>
      |s.expectedCalls| == Calls(s.callIndex) &&
      if s.errored then s.removedFromPool && !s.returnedToPool
      else s.returnedToPool && !s.removedFromPool
    ensures r.Some? ==> HasOwnMessage(r.value)
    ensures |s.expectedCalls| != Calls(s.callIndex) ==>
      r == Some(CountMismatch(|s.expectedCalls|, Calls(s.callIndex)))
    ensures |s.expectedCalls| == Calls(s.callIndex) && s.errored ==>
      r == if s.returnedToPool then Some(PoolMismatch(ReturnedToPool, false))
           else if !s.removedFromPool then Some(PoolMismatch(RemovedFromPool, true))
           else None
    ensures |s.expectedCalls| == Calls(s.callIndex) && !s.errored ==>
      r == if s.removedFromPool then Some(PoolMismatch(RemovedFromPool, false))
           else if !s.returnedToPool then Some(PoolMismatch(ReturnedToPool, true))
           else None
  {
    FirstOf(CheckQueryCount(s),
      if s.errored then FirstOf(CheckReturned(s, false), CheckRemoved(s, true))
      else FirstOf(CheckRemoved(s, false), CheckReturned(s, true)))
  }

  /** The value a successful query delivers: absent (falsy) `rows` become `[]`, and
      a falsy (absent or zero) `rowCount` becomes the number of rows. */
  function DefaultResult(rows: Option<seq<Row>>, rowCount: Option<int>): (r: QueryOutcome)
    ensures r.DeliverRows? && r.rows == rows.GetOr([])
    ensures r.rowCount == if Truthy(rowCount) then rowCount.value else |r.rows|
    ensures r.rowCount == 0 ==> r.rows == []
  {
    var rs := rows.GetOr([]);
    DeliverRows(rs, if Truthy(rowCount) then rowCount.value else |rs|)
  }

  /** One `query(sql, params)` call. It never changes the script or the pool
      flags. A released connection is rejected with the state untouched;
      otherwise the cursor moves one place, from "unstarted" to 0 or from n
      to n + 1, whatever happens next, and `errored` becomes set exactly when
      a scripted error is delivered. */
  function QueryStep(s: ClientState, sql: string, params: seq<Param>): (r: Step)
    ensures r.next.expectedCalls == s.expectedCalls
    ensures r.next.removedFromPool == s.removedFromPool && r.next.returnedToPool == s.returnedToPool
    ensures r.next.errored == (s.errored || r.outcome.DeliverError?)
    ensures Done(s) ==> r == Step(s, Raise(UsedAfterDone))
    ensures !Done(s) ==> Calls(r.next.callIndex) == Calls(s.callIndex) + 1
  {
    if Done(s) then Step(s, Raise(UsedAfterDone))
    else
      var s' := s.(callIndex := Some(Calls(s.callIndex)));
      var i := Calls(s.callIndex);
      if i >= |s.expectedCalls| then
        Step(s', Raise(CheckQueryCount(s').value))
      else
        var data := s.expectedCalls[i];
        match data.result
        case Failed(e) => Step(s'.(errored := true), DeliverError(e))
        case Rows(rows, rowCount) =>
          var pattern := data.params.GetOr([]);
          if sql != data.query then Step(s', Raise(SqlMismatch(data.query, sql)))
          else if !Satisfies(params, pattern) then Step(s', Raise(ParamsMismatch(params, pattern)))
          else Step(s', DefaultResult(rows, rowCount))
  }

  /** After release, `query` fails synchronously and changes nothing. */
  lemma QueryAfterDone(s: ClientState, sql: string, params: seq<Param>)
    requires Done(s)
    ensures QueryStep(s, sql, params) == Step(s, Raise(UsedAfterDone))
  {
  }

  /** A call past the end of the script fails with the count check, naming
      the script length and the number of calls including this one, and the
      cursor stays advanced. */
  lemma QueryPastScript(s: ClientState, sql: string, params: seq<Param>)
    requires !Done(s) && Calls(s.callIndex) >= |s.expectedCalls|
    ensures QueryStep(s, sql, params).outcome == Raise(CountMismatch(|s.expectedCalls|, Calls(s.callIndex) + 1))
    ensures QueryStep(s, sql, params).next == s.(callIndex := Some(Calls(s.callIndex)))
  {
  }

  /** A scripted error is delivered through the callback, whatever the SQL
      text and parameters, and marks the connection errored. */
  lemma QueryScriptedError(s: ClientState, sql: string, params: seq<Param>)
    requires !Done(s) && Calls(s.callIndex) < |s.expectedCalls|
    requires s.expectedCalls[Calls(s.callIndex)].result.Failed?
    ensures QueryStep(s, sql, params).outcome == DeliverError(s.expectedCalls[Calls(s.callIndex)].result.error)
    ensures QueryStep(s, sql, params).next.errored
  {
  }

  /** Otherwise a call succeeds exactly when its SQL text equals the
      scripted text and its parameters satisfy the scripted pattern (`[]`
      when absent); the first mismatch is raised synchronously and nothing is
      delivered. */
  lemma QueryContentCheck(s: ClientState, sql: string, params: seq<Param>)
    requires !Done(s) && Calls(s.callIndex) < |s.expectedCalls|
    requires s.expectedCalls[Calls(s.callIndex)].result.Rows?
    ensures var data := s.expectedCalls[Calls(s.callIndex)];
            var pattern := data.params.GetOr([]);
            var outcome := QueryStep(s, sql, params).outcome;
            && (sql != data.query ==> outcome == Raise(SqlMismatch(data.query, sql)))
            && (sql == data.query && !Satisfies(params, pattern) ==> outcome == Raise(ParamsMismatch(params, pattern)))
            && (outcome.DeliverRows? <==> sql == data.query && Satisfies(params, pattern))
            && (outcome.DeliverRows? ==> outcome == DefaultResult(data.result.rows, data.result.rowCount))
            && QueryStep(s, sql, params).next.errored == s.errored
  {
  }

  /** The mock connection. The script is never reassigned; the cursor and
      the flags are updated in place. */
  class MockClient {
    const expectedCalls: seq<Expectation>
    var callIndex: Option<nat>
    var errored: bool
    var removedFromPool: bool
    var returnedToPool: bool

    function State(): ClientState
      reads this
    {
      ClientState(expectedCalls, callIndex, errored, removedFromPool, returnedToPool)
    }

    constructor (expectedCalls: seq<Expectation>)
      ensures State() == Initial(expectedCalls)
    {
      this.expectedCalls := expectedCalls;
      callIndex := None;
      errored := false;
      removedFromPool := false;
      returnedToPool := false;
    }

    /** `query(sql, params, callback)`: returns the synchronous failure or
        the value the callback would receive. The scripted expectation is
        an immutable value, so the copy the source takes before filling in
        defaults is the local `result`. */
    method Query(sql: string, params: seq<Param>) returns (outcome: QueryOutcome)
      modifies this`callIndex, this`errored
      ensures Step(State(), outcome) == QueryStep(old(State()), sql, params)
    {
      if removedFromPool || returnedToPool {
        return Raise(UsedAfterDone);
      }
      callIndex := Some(match callIndex case None => 0 case Some(i) => i + 1);
      var i := callIndex.value;
      if i >= |expectedCalls| {
        var count := CheckQueryCount(State());
        return Raise(count.value);
      }
      var data := expectedCalls[i];
      if data.result.Failed? {
        errored := true;
        return DeliverError(data.result.error);
      }
      if sql != data.query {
        return Raise(SqlMismatch(data.query, sql));
      }
      var pattern := data.params.GetOr([]);
      if !Satisfies(params, pattern) {
        return Raise(ParamsMismatch(params, pattern));
      }
      var result := data.result;
      if result.rows.None? {
        result := result.(rows := Some([]));
      }
      if !Truthy(result.rowCount) {
        result := result.(rowCount := Some(|result.rows.value|));
      }
      outcome := DeliverRows(result.rows.value, result.rowCount.value);
    }

    /** `assert()`: the count check, then the two pool checks for the
        connection's error status, stopping at the first failure. Reads the
        state only. */
    method Assert() returns (failure: Option<Failure>)
      ensures failure == Verify(State())
    {
      failure := CheckQueryCount(State());
      if failure.Some? {
        return;
      }
      if errored {
        failure := CheckReturned(State(), false);
        if failure.None? {
          failure := CheckRemoved(State(), true);
        }
      } else {
        failure := CheckRemoved(State(), false);
        if failure.None? {
          failure := CheckReturned(State(), true);
        }
      }
    }
  }
}
