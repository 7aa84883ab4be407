/** The statistics tab (components/admin/AdminStats.tsx, and the same
    expressions inline in components/AdminPanel.tsx): the visit total, the
    last seven days and the label under each bar. */
module AdminStats {
  import opened Wrappers
  import opened Types
  import opened Text
  import Visits

  /** `Object.values(visitCount).reduce((a, b) => a + b, 0)`. */
  function TotalVisits(log: VisitLog): (t: int)
    ensures log == [] ==> t == 0
  {
    if |log| == 0 then 0 else log[0].count + TotalVisits(log[1..])
  }

  /** The total of two runs of entries is the sum of their totals. */
  lemma {:induction false} TotalVisitsAppend(a: VisitLog, b: VisitLog)
    ensures TotalVisits(a + b) == TotalVisits(a) + TotalVisits(b)
  {
    if |a| > 0 {
      TotalVisitsAppend(a[1..], b);
      assert (a + b)[1..] == a[1..] + b;
    } else {
      assert a + b == b;
    }
  }

  /** Overwriting one day's count changes the total by the difference
      between the new and the old count (an absent day counts as 0). */
  lemma {:induction false} TotalAfterPut(log: VisitLog, date: string, count: int)
    ensures TotalVisits(Visits.Put(log, date, count))
         == TotalVisits(log) - Visits.Lookup(log, date).GetOr(0) + count
  {
    if |log| > 0 && log[0].date != date {
      TotalAfterPut(log[1..], date, count);
    } else if |log| > 0 {
      assert ([VisitEntry(date, count)] + log[1..])[1..] == log[1..];
    }
  }

  /** With no negative count, the total is at least every single count. */
  lemma {:induction false} TotalBoundsEachDay(log: VisitLog, k: int)
    requires forall j :: 0 <= j < |log| ==> log[j].count >= 0
    requires 0 <= k < |log|
    ensures 0 <= log[k].count <= TotalVisits(log)
  {
    NonNegativeTotal(log[1..]);
    if k > 0 {
      TotalBoundsEachDay(log[1..], k - 1);
    }
  }

  lemma {:induction false} NonNegativeTotal(log: VisitLog)
    requires forall j :: 0 <= j < |log| ==> log[j].count >= 0
    ensures TotalVisits(log) >= 0
  {
    if |log| > 0 {
      NonNegativeTotal(log[1..]);
    }
  }

  /** `Array.prototype.slice(start)`: a negative start counts from the end
      and is clamped to the front; a start past the end gives `[]`. */
  function SliceFrom<T>(s: seq<T>, start: int): (r: seq<T>)
    ensures start < 0 ==> r == s[if |s| + start < 0 then 0 else |s| + start..]
    ensures start >= 0 ==> r == s[if start > |s| then |s| else start..]
  {
    var from := if start < 0 then (if |s| + start < 0 then 0 else |s| + start)
                else (if start > |s| then |s| else start);
    s[from..]
  }

  /** `Object.entries(visitCount).slice(-7)`. */
  function DailyHistory(log: VisitLog): VisitLog
  {
    SliceFrom(log, -7)
  }

  /** The history is the last min(7, n) entries, in the order the object
      enumerates them. */
  lemma HistoryIsLastSeven(log: VisitLog)
    ensures |DailyHistory(log)| == if |log| < 7 then |log| else 7
    ensures forall k :: 0 <= k < |DailyHistory(log)| ==>
      DailyHistory(log)[k] == log[|log| - |DailyHistory(log)| + k]
  {
  }

  /** A new day pushes the oldest day out of a full history. */
  lemma HistorySlides(log: VisitLog, e: VisitEntry)
    requires |log| >= 7
    ensures DailyHistory(log + [e]) == DailyHistory(log)[1..] + [e]
  {
    assert (log + [e])[|log| - 6..] == log[|log| - 6..] + [e];
  }

  /** `date.split('-').slice(1).join('/')`. */
  function DateLabel(date: string): string
  {
    Join(Split(date, '-')[1..], "/")
  }

  /** The label is what follows the first `-`, with every later `-`
      turned into `/`; a key without `-` gets an empty label. */
  lemma DateLabelAfterFirstDash(year: string, rest: string)
    requires '-' !in year
    ensures DateLabel(year + "-" + rest) == ReplaceChar(rest, '-', '/')
  {
    SplitAtFirst(year, '-', rest);
    assert ([year] + Split(rest, '-'))[1..] == Split(rest, '-');
    JoinSplitReplaces(rest, '-', '/');
  }

  lemma DateLabelWithoutDash(date: string)
    requires '-' !in date
    ensures DateLabel(date) == ""
  {
    SplitWithoutSeparator(date, '-');
  }

  /** `2024-05-01` is labelled `05/01`. */
  lemma DateLabelExample()
    ensures DateLabel("2024-05-01") == "05/01"
  {
    DateLabelAfterFirstDash("2024", "05-01");
    assert "2024" + "-" + "05-01" == "2024-05-01";
    MonthDaySlashed();
  }

  lemma MonthDaySlashed()
    ensures ReplaceChar("05-01", '-', '/') == "05/01"
  {
    var r := ReplaceChar("05-01", '-', '/');
    assert r[0] == '0' && r[1] == '5' && r[2] == '/' && r[3] == '0' && r[4] == '1';
  }
}
