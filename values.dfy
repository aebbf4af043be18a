/** Values exchanged with the mock: bound parameters and the patterns they
    are matched against, result rows, errors, and one scripted expectation. */
module Values {

  datatype Option<+T> = None | Some(value: T) {
    /** The wrapped value, or `default` when there is none. */
    function GetOr(default: T): T {
      match this
      case Some(v) => v
      case None => default
    }
  }

  /** A value bound to a query placeholder. */
  datatype Param = Str(s: string) | Num(n: int) | Bool(b: bool) | Null

  /** One element of a scripted `params` pattern: either a literal that the
      actual parameter must equal, or an anchored regular expression
      `/^prefix/`, which accepts every string that starts with `prefix`. */
  datatype Matcher = Equals(value: Param) | StartsWith(prefix: string)

  /** A result row: column name to value. */
  datatype Row = Row(columns: map<string, Param>)

  /** An `Error` instance; only its identity as a value matters here. */
  datatype Error = Error(message: string)

  /** The `result` of an expectation: an error to surface, or an object whose
      `rows` and `rowCount` may each be absent. `None` for `rows` stands for
      every falsy value (absent, `null`, `false`, `0`, `""`); an array, even
      an empty one, is truthy. */
  datatype ScriptedResult =
    | Failed(error: Error)
    | Rows(rows: Option<seq<Row>>, rowCount: Option<int>)

  /** One scripted query: the SQL text it must have, the pattern its
      parameters must satisfy (absent means `[]`), and what it yields. */
  datatype Expectation = Expectation(query: string, params: Option<seq<Matcher>>, result: ScriptedResult)

  predicate MatchesParam(actual: Param, m: Matcher) {
    match m
    case Equals(v) => actual == v
    case StartsWith(p) => actual.Str? && p <= actual.s
  }

  /** "to satisfy" on an array pattern: same length, and every element
      satisfies the matcher at its position. */
  predicate Satisfies(actual: seq<Param>, pattern: seq<Matcher>) {
    |actual| == |pattern| &&
    forall i :: 0 <= i < |actual| ==> MatchesParam(actual[i], pattern[i])
  }

  /** JavaScript truthiness of an optional number: absent and 0 are falsy. */
  predicate Truthy(n: Option<int>) {
    n.Some? && n.value != 0
  }
}
