/**
 * The controller's message history: a list that keeps the most recent
 * records, dropping the oldest once it holds more than its capacity.
 */
module History {
  import opened Values

  /** One history entry: when it was recorded, the topic, and the reading. */
  datatype HistoryRecord = HistoryRecord(timestamp: string, topic: string, payload: Reading)

  /** `_max_history`: the number of records the controller keeps. */
  const MaxHistory: nat := 100

  /** The last `n` elements of `s`, or all of `s` when it is shorter. */
  function LastN<T>(s: seq<T>, n: nat): (r: seq<T>)
    ensures |r| == if |s| <= n then |s| else n
    ensures r == s[|s| - |r|..]
  {
    if |s| <= n then s else s[|s| - n..]
  }

  /**
   * `append(rec)` followed by `pop(0)` when the list has grown past `cap`:
   * the new record is last, the list never exceeds `cap` again, and it is
   * the tail of the old list with the record appended.
   */
  function Pushed<T>(h: seq<T>, rec: T, cap: nat): (r: seq<T>)
    requires cap >= 1
    ensures |h| <= cap ==> |r| <= cap
    ensures 1 <= |r| <= |h| + 1 && r[|r| - 1] == rec
    ensures r == (h + [rec])[|h| + 1 - |r|..]
    ensures |h| < cap ==> r == h + [rec]
    ensures |h| == cap ==> r == h[1..] + [rec]
    ensures forall x :: x in r ==> x in h || x == rec
  {
    var h' := h + [rec];
    if |h'| > cap then h'[1..] else h'
  }

  /** Appending records one at a time. */
  function PushAll<T>(h: seq<T>, recs: seq<T>, cap: nat): seq<T>
    requires cap >= 1
    decreases recs
  {
    if recs == [] then h else PushAll(Pushed(h, recs[0], cap), recs[1..], cap)
  }

  /**
   * Pushing any number of records into a history within its capacity leaves
   * exactly the last `cap` of the old history followed by the records.
   */
  lemma {:induction false} PushAllKeepsLast<T>(h: seq<T>, recs: seq<T>, cap: nat)
    requires cap >= 1 && |h| <= cap
    ensures PushAll(h, recs, cap) == LastN(h + recs, cap)
    decreases recs
  {
    if recs == [] {
      assert h + recs == h;
    } else {
      var h1 := Pushed(h, recs[0], cap);
      PushAllKeepsLast(h1, recs[1..], cap);
      var whole, drop := h + recs, |h| + 1 - |h1|;
      PushedThenRest(h, recs, cap);
      assert h1 + recs[1..] == whole[drop..];
      LastNOfSuffix(whole, drop, cap);
    }
  }

  /** The history after one push, followed by the remaining records, is a tail of all of them. */
  lemma PushedThenRest<T>(h: seq<T>, recs: seq<T>, cap: nat)
    requires cap >= 1 && recs != []
    ensures var h1 := Pushed(h, recs[0], cap);
            h1 + recs[1..] == (h + recs)[|h| + 1 - |h1|..]
  {
    assert h + [recs[0]] + recs[1..] == h + recs;
  }

  /** Dropping a prefix that lies before the last `n` elements does not change them. */
  lemma LastNOfSuffix<T>(s: seq<T>, k: nat, n: nat)
    requires k <= |s| && (k == 0 || |s| - k >= n)
    ensures LastN(s[k..], n) == LastN(s, n)
  {
    if k == 0 {
      assert s[k..] == s;
    }
  }

  /**
   * `s[-limit:]` on a Python list. A positive limit takes the last `limit`
   * elements, a limit of 0 takes the whole list (`-0` is `0`), and a
   * negative limit drops the first `-limit` elements.
   */
  function PyTail<T>(s: seq<T>, limit: int): (r: seq<T>)
    ensures limit >= 1 ==> r == LastN(s, limit)
    ensures limit == 0 ==> r == s
    ensures limit < 0 ==> r == if -limit <= |s| then s[-limit..] else []
  {
    if limit > 0 then (if limit <= |s| then s[|s| - limit..] else s)
    else if -limit <= |s| then s[-limit..]
    else []
  }

  /**
   * The messages `get_simulation_data(limit)` returns: for a limit of at least
   * 1, the last min(limit, len) records, oldest first.
   */
  function Recent<T>(h: seq<T>, limit: int): (r: seq<T>)
    ensures limit >= 1 ==> |r| == (if |h| <= limit then |h| else limit)
    ensures limit >= 1 ==> forall i :: 0 <= i < |r| ==> r[i] == h[|h| - |r| + i]
    ensures h == [] ==> r == []
  {
    if h == [] then [] else PyTail(h, limit)
  }
}
