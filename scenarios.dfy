/** Sessions from the repository's own test suite, driven through the classes:
    each method builds a pool, drives it as the test does, and states what
    the test expects to see. */
module Scenarios {
  import opened Values
  import opened Failures
  import opened PgMockClient
  import opened PgMock

  const PetsQuery := "SELECT * FROM pets"
  const Fido := Row(map["id" := Str("1"), "name" := Str("Fido")])

  /** A configured connect error reaches the connect callback as is. */
  method ConnectDeliversError(e: Error) returns (err: Option<Error>)
    ensures err == Some(e)
  {
    var mock := new PgMock(ConnectError(e));
    var client;
    err, client := mock.Connect();
  }

  /** One scripted query that is never issued: `assert` fails on the count. */
  method UnqueriedScriptFails() returns (failure: Option<Failure>)
    ensures failure == Some(CountMismatch(1, 0))
    ensures Message(failure.value) == "expected pg to be queried 1 time but it was queried 0 times."
  {
    var mock := new PgMock(Script([Expectation(PetsQuery, None, Rows(Some([Fido]), None))]));
    var err, client := mock.Connect();
    failure := mock.Assert();
    CountMessageExamples();
  }

  /** An empty script: the first query fails at once on the count. */
  method QueryOnEmptyScript(sql: string, params: seq<Param>) returns (outcome: QueryOutcome)
    ensures outcome == Raise(CountMismatch(0, 1))
    ensures Message(outcome.failure) == "expected pg to be queried 0 times but it was queried 1 time."
  {
    var mock := new PgMock(Script([]));
    var err, client := mock.Connect();
    outcome := client.Query(sql, params);
    CountMessageExamples();
  }

  /** The scripted rows are delivered with the row count filled in, and a
      connection returned to the pool passes `assert`. */
  method PetsSession() returns (outcome: QueryOutcome, failure: Option<Failure>)
    ensures outcome == DeliverRows([Fido], 1)
    ensures failure == None
  {
    var mock := new PgMock(Script([Expectation(PetsQuery, None, Rows(Some([Fido]), None))]));
    var err, client := mock.Connect();
    outcome := client.Query(PetsQuery, []);
    mock.ClientDone(false);
    failure := mock.Assert();
  }

  /** A `/^Fi/` pattern accepts "Fido" and refuses "Rex". The refused call
      still consumed its expectation, so after returning the connection
      `assert` passes either way. */
  method PatternParams(name: string) returns (outcome: QueryOutcome, failure: Option<Failure>)
    ensures outcome.DeliverRows? <==> "Fi" <= name
    ensures "Fi" <= name ==> outcome == DeliverRows([Fido], 1)
    ensures !("Fi" <= name) ==> outcome == Raise(ParamsMismatch([Str(name)], [StartsWith("Fi")]))
    ensures failure == None
  {
    var sql := "SELECT * FROM pets WHERE name = $1";
    var mock := new PgMock(Script([Expectation(sql, Some([StartsWith("Fi")]), Rows(Some([Fido]), None))]));
    var err, client := mock.Connect();
    outcome := client.Query(sql, [Str(name)]);
    assert Satisfies([Str(name)], [StartsWith("Fi")]) <==> "Fi" <= name by {
      assert MatchesParam([Str(name)][0], [StartsWith("Fi")][0]) <==> "Fi" <= name;
    }
    mock.ClientDone(false);
    failure := mock.Assert();
  }

  /** A query after release fails at once, before the script is consulted. */
  method QueryAfterRelease(remove: bool) returns (outcome: QueryOutcome)
    ensures outcome == Raise(UsedAfterDone)
    ensures Message(outcome.failure) == "Calling query on client after calling done."
  {
    var sql := "SELECT * FROM pets WHERE name = $1";
    var mock := new PgMock(Script([Expectation(sql, Some([StartsWith("Fi")]), Rows(Some([Fido]), None))]));
    var err, client := mock.Connect();
    mock.ClientDone(remove);
    outcome := client.Query(sql, [Str("Fido")]);
  }

  /** Release `release` (`None` means not released; otherwise the
      truthiness of the argument) and check. */
  method ReleaseAndCheck(mock: PgMock, release: Option<bool>) returns (failure: Option<Failure>)
    requires mock.connectCalled
    modifies mock.client`removedFromPool, mock.client`returnedToPool
    ensures failure == Verify(if release.Some? then Released(old(mock.client.State()), release.value) else old(mock.client.State()))
  {
    if release.Some? {
      mock.ClientDone(release.value);
    }
    failure := mock.Assert();
  }

  /** One query with an empty scripted result, then a release: only
      returning the connection passes. */
  method QueryThenRelease(release: Option<bool>) returns (failure: Option<Failure>)
    ensures failure == match release
      case Some(false) => None
      case Some(true) => Some(PoolMismatch(RemovedFromPool, false))
      case None => Some(PoolMismatch(ReturnedToPool, true))
    ensures release == None ==>
      Message(failure.value) == "expected client to be returned to connection pool."
  {
    var script := [Expectation(PetsQuery, None, Rows(None, None))];
    var mock := new PgMock(Script(script));
    var err, client := mock.Connect();
    var outcome := client.Query(PetsQuery, []);
    assert client.State() == ClientState(script, Some(0), false, false, false);
    failure := ReleaseAndCheck(mock, release);
    PoolMessageExamples();
  }

  /** One query whose scripted result is an error, then a release: only
      removing the connection passes. */
  method ErroredQueryThenRelease(e: Error, release: Option<bool>) returns (failure: Option<Failure>)
    ensures failure == match release
      case Some(true) => None
      case Some(false) => Some(PoolMismatch(ReturnedToPool, false))
      case None => Some(PoolMismatch(RemovedFromPool, true))
    ensures release == None ==>
      Message(failure.value) == "expected client to be removed from connection pool."
  {
    var script := [Expectation(PetsQuery, None, Failed(e))];
    var mock := new PgMock(Script(script));
    var err, client := mock.Connect();
    var outcome := client.Query(PetsQuery, []);
    assert client.State() == ClientState(script, Some(0), true, false, false);
    failure := ReleaseAndCheck(mock, release);
    PoolMessageExamples();
  }

  /** No queries at all: returning passes, removing or not releasing fails. */
  method EmptyScriptRelease(release: Option<bool>) returns (failure: Option<Failure>)
    ensures failure == match release
      case Some(false) => None
      case Some(true) => Some(PoolMismatch(RemovedFromPool, false))
      case None => Some(PoolMismatch(ReturnedToPool, true))
    ensures release == Some(true) ==>
      Message(failure.value) == "expected client not to be removed from connection pool."
    ensures release == None ==>
      Message(failure.value) == "expected client to be returned to connection pool."
  {
    var mock := new PgMock(Script([]));
    var err, client := mock.Connect();
    failure := ReleaseAndCheck(mock, release);
    PoolMessageExamples();
  }

  /** After a connect error: removing passes, returning fails with "not to
      be returned", not releasing fails with "to be removed". */
  method ConnectErrorRelease(e: Error, release: Option<bool>) returns (failure: Option<Failure>)
    ensures failure == match release
      case Some(true) => None
      case Some(false) => Some(PoolMismatch(ReturnedToPool, false))
      case None => Some(PoolMismatch(RemovedFromPool, true))
    ensures release == Some(false) ==>
      Message(failure.value) == "expected client not to be returned to connection pool."
    ensures release == None ==>
      Message(failure.value) == "expected client to be removed from connection pool."
  {
    var mock := new PgMock(ConnectError(e));
    var err, client := mock.Connect();
    failure := ReleaseAndCheck(mock, release);
    PoolMessageExamples();
  }
}
