/** The pool/factory: turns its configuration into a connect-time error or a
    script, owns the one connection it creates, and hands that connection
    out on `connect` together with a release callback. */
module PgMock {
  import opened Values
  import opened Failures
  import opened PgMockClient

  /** The constructor's argument: an `Error` instance, an array of
      expectations, or anything else. */
  datatype Options = ConnectError(error: Error) | Script(calls: seq<Expectation>) | Other

  /** The effect of `connect` on the connection: a configured connect error
      marks it errored at once; nothing else changes. */
  function Connected(s: ClientState, errorOnConnect: Option<Error>): (r: ClientState)
    ensures r.errored == (s.errored || errorOnConnect.Some?)
    ensures r.(errored := s.errored) == s
  {
    if errorOnConnect.Some? then s.(errored := true) else s
  }

  /** The effect of the release callback: a truthy argument sets
      `removedFromPool`, any other sets `returnedToPool`. Only that one flag
      changes, and a second release is not refused, so both flags can end up
      set. */
  function Released(s: ClientState, remove: bool): (r: ClientState)
    ensures Done(r)
    ensures r.removedFromPool == (s.removedFromPool || remove)
    ensures r.returnedToPool == (s.returnedToPool || !remove)
    ensures r.(removedFromPool := s.removedFromPool, returnedToPool := s.returnedToPool) == s
  {
    if remove then s.(removedFromPool := true) else s.(returnedToPool := true)
  }

  class PgMock {
    const errorOnConnect: Option<Error>
    const expectedCalls: seq<Expectation>
    const client: MockClient
    var connectCalled: bool

    /** An `Error` becomes the connect error with an empty script; an array
        becomes the script (a copy of the array) with no connect error;
        anything else gives neither. The one connection is created here,
        over the same script, before any `connect`. */
    constructor (options: Options)
      ensures errorOnConnect == if options.ConnectError? then Some(options.error) else None
      ensures expectedCalls == if options.Script? then options.calls else []
      ensures fresh(client) && client.State() == Initial(expectedCalls)
      ensures !connectCalled
    {
      var calls := if options.Script? then options.calls else [];
      errorOnConnect := if options.ConnectError? then Some(options.error) else None;
      expectedCalls := calls;
      client := new MockClient(calls);
      connectCalled := false;
    }

    /** `clientDoneCallback(arg)`, where `remove` is the truthiness of `arg`. */
    method ClientDone(remove: bool)
      modifies client`removedFromPool, client`returnedToPool
      ensures client.State() == Released(old(client.State()), remove)
    {
      if remove {
        client.removedFromPool := true;
      } else {
        client.returnedToPool := true;
      }
    }

    /** `connect(dbUrl, callback)`: returns the first two arguments the
        callback would receive, the error (or `null`) and the connection; the
        third is this object's `ClientDone`. */
    method Connect() returns (err: Option<Error>, conn: MockClient)
      modifies this`connectCalled, client`errored
      ensures connectCalled
      ensures err == errorOnConnect && conn == client
      ensures client.State() == Connected(old(client.State()), errorOnConnect)
    {
      connectCalled := true;
      if errorOnConnect.Some? {
        client.errored := true;
        err := errorOnConnect;
      } else {
        err := None;
      }
      conn := client;
    }

    /** `assert()`: nothing to check before `connect`; afterwards exactly the
        connection's own check. */
    method Assert() returns (failure: Option<Failure>)
      ensures failure == if connectCalled then Verify(client.State()) else None
    {
      if connectCalled {
        failure := client.Assert();
      } else {
        failure := None;
      }
    }
  }
}
