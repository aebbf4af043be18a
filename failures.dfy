/** The failures the mock raises synchronously, and the text of the ones
    whose message the client composes itself (the count check, the two pool
    checks and the use-after-release guard). */
module Failures {
  import opened Values

  /** The two pool flags a release can set. */
  datatype PoolFlag = RemovedFromPool | ReturnedToPool

  datatype Failure =
    /** `query` after the connection was released. */
    | UsedAfterDone
    /** The script length differs from the number of `query` calls. */
    | CountMismatch(expectedCalls: nat, calls: nat)
    /** The SQL text differs from the scripted text. */
    | SqlMismatch(expectedQuery: string, query: string)
    /** The parameters do not satisfy the scripted pattern. */
    | ParamsMismatch(params: seq<Param>, pattern: seq<Matcher>)
    /** `flag` was expected to be `expectedSet` but is not. */
    | PoolMismatch(flag: PoolFlag, expectedSet: bool)

  /** The SQL and parameter mismatches are worded by the assertion library;
      every other failure carries a message of the client's own. */
  predicate HasOwnMessage(f: Failure) {
    !f.SqlMismatch? && !f.ParamsMismatch?
  }

  predicate IsDigit(c: char) {
    '0' <= c <= '9'
  }

  predicate IsDigits(s: string) {
    forall i :: 0 <= i < |s| ==> IsDigit(s[i])
  }

  function DigitChar(d: nat): (c: char)
    requires d < 10
    ensures IsDigit(c)
  {
    "0123456789"[d]
  }

  /** Decimal notation of `n`, without leading zeros. */
  function NatToString(n: nat): (s: string)
    ensures |s| >= 1 && IsDigits(s)
    ensures n >= 10 <==> |s| >= 2
    decreases n
  {
    if n < 10 then [DigitChar(n)] else NatToString(n / 10) + [DigitChar(n % 10)]
  }

  function Times(n: nat): string {
    if n == 1 then "time" else "times"
  }

  /** `n`, a space, and "time" or "times" as the number requires. */
  function Counted(n: nat): string {
    NatToString(n) + " " + Times(n)
  }

  /** The name of the pool assertion that failed, in its `not` form when
      the flag was expected to be clear. */
  function PoolDescription(flag: PoolFlag, expectedSet: bool): string {
    match (flag, expectedSet)
    case (RemovedFromPool, true) => "to be removed from connection pool"
    case (RemovedFromPool, false) => "not to be removed from connection pool"
    case (ReturnedToPool, true) => "to be returned to connection pool"
    case (ReturnedToPool, false) => "not to be returned to connection pool"
  }

  function PoolMessage(flag: PoolFlag, expectedSet: bool): string {
    "expected client " + PoolDescription(flag, expectedSet) + "."
  }

  function Message(f: Failure): string
    requires HasOwnMessage(f)
  {
    match f
    case UsedAfterDone => "Calling query on client after calling done."
    case CountMismatch(n, m) =>
      "expected pg to be queried " + Counted(n) + " but it was queried " + Counted(m) + "."
    case PoolMismatch(flag, expectedSet) => PoolMessage(flag, expectedSet)
  }

  lemma {:induction false} NatToStringInjective(a: nat, b: nat)
    requires NatToString(a) == NatToString(b)
    ensures a == b
    decreases a
  {
    var s := NatToString(a);
    if a >= 10 && b >= 10 {
      assert NatToString(a / 10) == s[..|s| - 1] == NatToString(b / 10);
      NatToStringInjective(a / 10, b / 10);
      assert DigitChar(a % 10) == s[|s| - 1] == DigitChar(b % 10);
    }
  }

  /** Splitting a string after a leading run of digits is unambiguous when
      a non-digit follows the run. */
  lemma DigitRunSplit(d1: string, x: string, d2: string, y: string)
    requires IsDigits(d1) && IsDigits(d2)
    requires |x| > 0 && |y| > 0 && !IsDigit(x[0]) && !IsDigit(y[0])
    requires d1 + x == d2 + y
    ensures d1 == d2 && x == y
  {
    assert d1 == (d1 + x)[..|d1|];
    assert d2 == (d2 + y)[..|d2|];
    assert x == (d1 + x)[|d1|..];
    assert y == (d2 + y)[|d2|..];
  }

  lemma DropPrefix(p: string, x: string, y: string)
    requires p + x == p + y
    ensures x == y
  {
    assert x == (p + x)[|p|..];
    assert y == (p + y)[|p|..];
  }

  /** `Counted(n) + rest` determines both `n` and `rest`. */
  lemma CountedSplit(n: nat, x: string, m: nat, y: string)
    requires Counted(n) + x == Counted(m) + y
    ensures n == m && x == y
  {
    var tn, tm := " " + Times(n), " " + Times(m);
    assert Counted(n) + x == NatToString(n) + (tn + x) by {
      assert Counted(n) == NatToString(n) + tn;
    }
    assert Counted(m) + y == NatToString(m) + (tm + y) by {
      assert Counted(m) == NatToString(m) + tm;
    }
    DigitRunSplit(NatToString(n), tn + x, NatToString(m), tm + y);
    NatToStringInjective(n, m);
    DropPrefix(tn, x, y);
  }

  lemma PoolMessageInjective(f1: PoolFlag, e1: bool, f2: PoolFlag, e2: bool)
    requires PoolMessage(f1, e1) == PoolMessage(f2, e2)
    ensures f1 == f2 && e1 == e2
  {
    var m1, m2 := PoolMessage(f1, e1), PoolMessage(f2, e2);
    assert m1[16] == m2[16];
    if e1 {
      assert m1[24] == m2[24];
    } else {
      assert m1[28] == m2[28];
    }
  }

  lemma Reassociate(a: string, b: string, c: string, d: string, e: string)
    ensures a + b + c + d + e == a + (b + (c + (d + e)))
  {
  }

  lemma CountMessageInjective(n: nat, m: nat, n': nat, m': nat)
    requires Message(CountMismatch(n, m)) == Message(CountMismatch(n', m'))
    ensures n == n' && m == m'
  {
    var p, q := "expected pg to be queried ", " but it was queried ";
    Reassociate(p, Counted(n), q, Counted(m), ".");
    Reassociate(p, Counted(n'), q, Counted(m'), ".");
    var x, y := q + (Counted(m) + "."), q + (Counted(m') + ".");
    DropPrefix(p, Counted(n) + x, Counted(n') + y);
    CountedSplit(n, x, n', y);
    DropPrefix(q, Counted(m) + ".", Counted(m') + ".");
    CountedSplit(m, ".", m', ".");
  }

  lemma PrefixAt(p: string, rest: string, i: nat)
    requires i < |p|
    ensures (p + rest)[i] == p[i]
  {
  }

  /** The first character tells the use-after-release message from the
      others, and the tenth tells the count message ("expected pg") from the
      pool messages ("expected client"). */
  lemma MessageKind(f: Failure)
    requires HasOwnMessage(f)
    ensures |Message(f)| > 9
    ensures Message(f)[0] == if f.UsedAfterDone? then 'C' else 'e'
    ensures !f.UsedAfterDone? ==> Message(f)[9] == if f.CountMismatch? then 'p' else 'c'
  {
    match f
    case UsedAfterDone =>
    case CountMismatch(n, m) =>
      var p, q := "expected pg to be queried ", " but it was queried ";
      Reassociate(p, Counted(n), q, Counted(m), ".");
      PrefixAt(p, Counted(n) + (q + (Counted(m) + ".")), 0);
      PrefixAt(p, Counted(n) + (q + (Counted(m) + ".")), 9);
    case PoolMismatch(flag, e) =>
  }

  /** Every failure with a message of its own is told apart by that message. */
  lemma MessageInjective(f: Failure, g: Failure)
    requires HasOwnMessage(f) && HasOwnMessage(g)
    requires Message(f) == Message(g)
    ensures f == g
  {
    MessageKind(f);
    MessageKind(g);
    match f
    case UsedAfterDone =>
    case CountMismatch(n, m) =>
      CountMessageInjective(n, m, g.expectedCalls, g.calls);
    case PoolMismatch(flag, e) =>
      PoolMessageInjective(flag, e, g.flag, g.expectedSet);
  }

  lemma CountedOneAndZero()
    ensures Counted(1) == "1 time" && Counted(0) == "0 times"
  {
    assert NatToString(1) == "1" && NatToString(0) == "0";
  }

  lemma CountMessageLiterals()
    ensures "expected pg to be queried " + "1 time" + " but it was queried " + "0 times" + "."
         == "expected pg to be queried 1 time but it was queried 0 times."
    ensures "expected pg to be queried " + "0 times" + " but it was queried " + "1 time" + "."
         == "expected pg to be queried 0 times but it was queried 1 time."
  {
  }

  /** The count messages the test suite expects: singular "time" for one,
      plural otherwise, and a closing full stop. */
  lemma CountMessageExamples()
    ensures Message(CountMismatch(1, 0)) == "expected pg to be queried 1 time but it was queried 0 times."
    ensures Message(CountMismatch(0, 1)) == "expected pg to be queried 0 times but it was queried 1 time."
  {
    CountedOneAndZero();
    CountMessageLiterals();
  }

  lemma RemovedLiteral()
    ensures "expected client " + "to be removed from connection pool" + "."
         == "expected client to be removed from connection pool."
  {
  }

  lemma NotRemovedLiteral()
    ensures "expected client " + "not to be removed from connection pool" + "."
         == "expected client not to be removed from connection pool."
  {
  }

  lemma ReturnedLiteral()
    ensures "expected client " + "to be returned to connection pool" + "."
         == "expected client to be returned to connection pool."
  {
  }

  lemma NotReturnedLiteral()
    ensures "expected client " + "not to be returned to connection pool" + "."
         == "expected client not to be returned to connection pool."
  {
  }

  /** The four pool messages, one per flag and direction. */
  lemma PoolMessageExamples()
    ensures Message(PoolMismatch(RemovedFromPool, true)) == "expected client to be removed from connection pool."
    ensures Message(PoolMismatch(RemovedFromPool, false)) == "expected client not to be removed from connection pool."
    ensures Message(PoolMismatch(ReturnedToPool, true)) == "expected client to be returned to connection pool."
    ensures Message(PoolMismatch(ReturnedToPool, false)) == "expected client not to be returned to connection pool."
  {
    RemovedLiteral();
    NotRemovedLiteral();
    ReturnedLiteral();
    NotReturnedLiteral();
  }
}
