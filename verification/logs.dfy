/**
 * The diagnostic log of App.tsx: `addLog` appends one entry and keeps only
 * the ten most recent ones.
 */
module DiagnosticLog {
  import Types

  datatype Severity = Info | Warn | Error | Success

  datatype Entry = Entry(msg: string, severity: Severity)

  /** The most entries the log holds. */
  const CAPACITY: nat := 10

  /** The last `n` elements of `s` (all of them when there are fewer). */
  function Last<T>(n: nat, s: seq<T>): (r: seq<T>)
    ensures |r| == if |s| <= n then |s| else n
    ensures r == s[|s| - |r|..]
  {
    if |s| <= n then s else s[|s| - n..]
  }

  /**
   * addLog's updater: the previous entries cut down to their last nine,
   * then the new one.
   */
  function AddLog(logs: seq<Entry>, e: Entry): (r: seq<Entry>)
    ensures |r| == if |logs| < CAPACITY then |logs| + 1 else CAPACITY
    ensures r[|r| - 1] == e
    ensures r == Last(CAPACITY, logs + [e])
  {
    var kept := if |logs| <= CAPACITY - 1 then logs else logs[|logs| - (CAPACITY - 1)..];
    assert kept + [e] == (logs + [e])[|logs + [e]| - |kept + [e]|..];
    kept + [e]
  }

  /** Adding entries one at a time, oldest first. */
  function AddAll(logs: seq<Entry>, es: seq<Entry>): seq<Entry>
    decreases |es|
  {
    if es == [] then logs else AddAll(AddLog(logs, es[0]), es[1..])
  }

  lemma LastOfLast<T>(n: nat, s: seq<T>, t: seq<T>)
    ensures Last(n, Last(n, s) + t) == Last(n, s + t)
  {
    var k := |s| - |Last(n, s)|;
    assert Last(n, s) + t == (s + t)[k..];
  }

  /**
   * However many entries are added to a log that already respects the
   * capacity, the result is exactly the last ten of all the entries, in
   * order: nothing recent is lost and nothing is reordered.
   */
  lemma {:induction false} AddAllKeepsLastTen(logs: seq<Entry>, es: seq<Entry>)
    requires |logs| <= CAPACITY
    ensures AddAll(logs, es) == Last(CAPACITY, logs + es)
    decreases |es|
  {
    if es == [] {
      assert logs + es == logs;
    } else {
      var withFirst, rest := logs + [es[0]], es[1..];
      var next := AddLog(logs, es[0]);
      assert next == Last(CAPACITY, withFirst);
      AddAllKeepsLastTen(next, rest);
      LastOfLast(CAPACITY, withFirst, rest);
      Types.AppendHead(logs, es);
    }
  }
}
