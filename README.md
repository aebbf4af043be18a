# pgmock in Dafny

pgmock is a scripted test double for a `pg`-style connection pool. A test
builds a `PgMock` from an ordered list of expected queries, or from an
`Error` to simulate a failed connect. It then calls `connect`, gets back one
mock connection (`PgMockClient`) and a release callback, issues queries,
releases the connection, and finally calls `assert`.

This project models that state machine:

- `values.dfy` (module `Values`): bound parameters, the patterns they are
  matched against, result rows, errors and one scripted `Expectation`.
- `failures.dfy` (module `Failures`): the failures the mock raises
  synchronously, and the exact text of the messages the client composes
  itself. Each such message names exactly one failure (`MessageInjective`).
- `client.dfy` (module `PgMockClient`): the connection's fields as a value
  (`ClientState`), with the spec functions for `query` (`QueryStep`) and
  `assert` (`Verify`). The class `MockClient` holds the same fields and
  updates them in place; its methods are proved against those functions.
- `pool.dfy` (module `PgMock`): the factory class `PgMock` (constructor,
  `connect`, the release callback `ClientDone`, `assert`). The effect of
  `connect` on the connection is the function `Connected`, and the effect
  of release is `Released`.
- `replay.dfy` (module `Replay`): whole sessions. A call meets an
  expectation when the mock accepts it there (`Meets`). Any sequence of
  calls that each meet their expectation, followed by the right release,
  passes `assert`. Stopping early fails on the count, whatever the calls
  were. So does a call past the end of the script, at once. Once the count
  is right, the release alone decides the pool checks. A double release
  always fails.
- `scenarios.dfy` (module `Scenarios`): the sessions of the repository's
  test suite, driven through the classes, each with the outcome and message
  text the test expects.

Three behaviours of the code that are easy to misread, and that the model
keeps as written:
- A falsy `rowCount` is replaced by the number of rows. Falsy means absent
  or `0`, not only absent.
- `rows` is replaced by `[]` when it is absent or falsy (`None` in the
  model). An array, even an empty one, is kept.
- Nothing stops a second release. Both pool flags can end up set, and
  `assert` then always fails (`Replay.DoubleReleaseFails`).

## Model

| member | source | states |
|---|---|---|
| `Failures.MessageInjective` | lib/PgMockClient.js:4-57 | the use-after-release, count and pool messages never coincide: equal messages mean equal failures |
| `Failures.CountMessageInjective` | lib/PgMockClient.js:11-18 | the count message determines both the expected and the actual number of calls |
| `Failures.PoolMessageInjective` | lib/PgMockClient.js:22-43 | the four pool messages are pairwise different, one per flag and direction |
| `Failures.CountMessageExamples` | lib/PgMockClient.js:11-18 | "1 time" is singular, "0 times" is plural, and the message ends with a full stop |
| `Failures.PoolMessageExamples` | lib/PgMockClient.js:29-40 | the text of each pool message is "expected client", then the `[not]` assertion name, then "." |
| `PgMockClient.CheckQueryCount` | lib/PgMockClient.js:4-20 | fails exactly when the script length differs from the number of calls, which is 0 before the first query, and then reports those two numbers |
| `PgMockClient.CheckRemoved` | lib/PgMockClient.js:22-32 | fails exactly when `removedFromPool` differs from what the (`not`) form expects, and then reports that flag and that form |
| `PgMockClient.CheckReturned` | lib/PgMockClient.js:33-43 | fails exactly when `returnedToPool` differs from what the (`not`) form expects, and then reports that flag and that form |
| `PgMockClient.Verify` | lib/PgMockClient.js:94-103 | passes if and only if the count is right and the connection was removed and not returned after an error, or returned and not removed otherwise. A wrong count is reported first, with both numbers. Then, after an error, "not to be returned" comes before "to be removed"; otherwise "not to be removed" comes before "to be returned". Every failure it reports has its own message |
| `PgMockClient.DefaultResult` | lib/PgMockClient.js:77-86 | absent or falsy rows become `[]`; a falsy row count becomes the number of rows, so a delivered count of 0 means no rows |
| `PgMockClient.QueryStep` | lib/PgMockClient.js:54-92 | `query` never changes the script or the pool flags. After release it changes nothing. Otherwise the cursor moves by exactly one. `errored` is set exactly when a scripted error is delivered |
| `PgMockClient.QueryAfterDone` | lib/PgMockClient.js:55-57 | after either release, `query` fails with the use-after-release failure and leaves the state as it was |
| `PgMockClient.QueryPastScript` | lib/PgMockClient.js:59-63 | a call past the script's end fails with the count (script length, calls including this one) and the cursor stays advanced |
| `PgMockClient.QueryScriptedError` | lib/PgMockClient.js:67-71 | a scripted error is delivered in the callback's error slot, whatever the SQL and parameters, and the connection becomes errored |
| `PgMockClient.QueryContentCheck` | lib/PgMockClient.js:72-91 | otherwise a SQL mismatch is raised first, then a parameter mismatch against the pattern (default `[]`); rows are delivered if and only if both match, with the defaults applied and `errored` unchanged |
| `PgMockClient.MockClient.constructor` | lib/PgMockClient.js:45-52 | a new connection holds the script, has no cursor and has all three flags clear |
| `PgMockClient.MockClient.Query` | lib/PgMockClient.js:54-92 | the in-place `query` leaves the fields in the state `QueryStep` gives for the old fields, and returns its outcome |
| `PgMockClient.MockClient.Assert` | lib/PgMockClient.js:94-103 | reads the fields only and reports the same first failure as `Verify` |
| `PgMock.Connected` | lib/PgMock.js:18-31 | `connect` sets `errored` exactly when a connect error is configured, and changes nothing else on the connection |
| `PgMock.Released` | lib/PgMock.js:10-16 | release sets `removedFromPool` for a truthy argument and `returnedToPool` otherwise, and changes no other field |
| `PgMock.PgMock.constructor` | lib/PgMock.js:3-8 | an `Error` gives the connect error and an empty script. An array gives the script and no error. Anything else gives neither. One fresh connection is created over the script before any `connect` |
| `PgMock.PgMock.ClientDone` | lib/PgMock.js:10-16 | the release callback updates the connection as `Released` does |
| `PgMock.PgMock.Connect` | lib/PgMock.js:18-31 | records the attempt. The callback receives the configured error (or none) and the same connection. The connection changes as `Connected` says |
| `PgMock.PgMock.Assert` | lib/PgMock.js:33-37 | passes before any `connect`; afterwards it is exactly the connection's check |
| `Replay.RunAdvancesCursor` | lib/PgMockClient.js:59 | on an unreleased connection, k calls move the cursor by exactly k (it never decreases or skips), whatever each call raised, and leave the script and pool flags alone |
| `Replay.MeetingStep` | lib/PgMockClient.js:59-91 | on an unreleased connection, a call that meets the expectation under the cursor delivers that expectation's result, moves the cursor on by one, and sets `errored` exactly when that result is an error |
| `Replay.ReplayPrefix` | lib/PgMockClient.js:54-92 | any k calls that each meet the expectation at their position deliver the first k scripted results in order, leave the cursor at k-1, and set `errored` exactly when one of those k was an error |
| `Replay.FaithfulSessionPasses` | lib/PgMockClient.js:94-103 | any calls, as many as the script holds, that each meet their expectation, followed by removing after an error or returning otherwise, pass `assert` |
| `Replay.FewerCallsFail` | lib/PgMockClient.js:94-95 | any k calls, k short of the script length, fail `assert` on the count (script length, k), released or not |
| `Replay.OneCallTooMany` | lib/PgMockClient.js:59-62 | after k calls, k at least the script length, whatever they were, the next query fails at once with (script length, k + 1) |
| `Replay.ReleaseDecidesVerify` | lib/PgMockClient.js:96-102 | with the count right, the check passes if and only if the release matches the error status; each wrong release, and no release at all, has its own pool failure |
| `Replay.DoubleReleaseFails` | lib/PgMock.js:10-16 | releasing once in each direction always fails `assert`: on the count when that is wrong, otherwise "not to be returned" after an error and "not to be removed" without one |
| `Replay.ConnectErrorSession` | lib/PgMock.js:21-24 | after a connect error, removal passes, returning fails "not to be returned", and no release fails "to be removed" |
| `Scenarios.ConnectDeliversError` | test/PgMock.spec.js:6-14 | the configured connect error reaches the connect callback unchanged |
| `Scenarios.UnqueriedScriptFails` | test/PgMock.spec.js:15-35 | a one-query script with no query issued fails with "expected pg to be queried 1 time but it was queried 0 times." |
| `Scenarios.QueryOnEmptyScript` | test/PgMock.spec.js:36-44 | with an empty script, the first query raises "expected pg to be queried 0 times but it was queried 1 time." |
| `Scenarios.PetsSession` | test/PgMock.spec.js:45-77 | the scripted row is delivered with row count 1, and after returning the connection `assert` passes |
| `Scenarios.PatternParams` | test/PgMock.spec.js:78-111 | a `/^Fi/` pattern delivers the scripted row with count 1 exactly for names starting with "Fi"; any other name is a parameter mismatch; either way the call consumed its expectation, so after returning the connection `assert` passes |
| `Scenarios.QueryAfterRelease` | test/PgMock.spec.js:112-134 | a query after either release raises "Calling query on client after calling done." |
| `Scenarios.QueryThenRelease` | test/PgMock.spec.js:137-169 | after one successful query, only returning passes; no release fails "expected client to be returned to connection pool." |
| `Scenarios.EmptyScriptRelease` | test/PgMock.spec.js:170-188 | with no queries, only returning passes; removing fails "not to be removed" (lines 258-267) |
| `Scenarios.ErroredQueryThenRelease` | test/PgMock.spec.js:202-234 | after a scripted query error, only removing passes; no release fails "expected client to be removed from connection pool." |
| `Scenarios.ConnectErrorRelease` | test/PgMock.spec.js:189-199 | after a connect error, returning fails "not to be returned", no release fails "to be removed" (lines 235-245), and removing passes (lines 246-257) |

## Left out

- Deferred delivery through `setImmediate` is not modelled. Each call returns
  the value its callback would receive. Callback ordering and overlapping
  queries are not modelled.
- The assertion library's "to satisfy" matching is reduced to a parameter
  list of the same length. Each element equals a literal or starts with a
  prefix, which stands for an anchored regular expression `/^prefix/`.
  Partial objects, nested patterns and other regular expressions are not
  modelled.
- The wording of the SQL and parameter mismatch failures is not modelled.
  The assertion library writes that text. Those failures carry the expected
  and actual values instead.
- Deep copying (`cloneDeep`) and `instanceof Error` are not modelled.
  Expectations are immutable values, and a scripted error is a constructor
  of the result type.
- The check that `rows` is an array is not modelled. The types guarantee it.
- `connect` ignores its `dbUrl` argument, so the model drops it. The release
  callback handed to the connect callback is `PgMock.ClientDone`. Its
  `remove` argument stands for the truthiness of the JavaScript argument.
- A `rowCount` of `NaN`, which is falsy in JavaScript, is not modelled.
- An expectation without a `result` is not modelled. The source fails there
  with a type error.
- `undefined` entries in the script and a `query` call without a parameter
  array are not modelled.
- The mocha harness in test/PgMock.spec.js is not modelled as code. Its
  sessions are restated in `Scenarios`.
