/** `visitCount: Record<string, number>` as the ordered list of entries a
    JavaScript object enumerates. A date key such as `2024-05-01` is not an
    array index, so the object enumerates its keys in insertion order:
    `{ ...log, [date]: n }` overwrites an existing key where it stands and
    appends a new key at the end. JSON keeps that order. */
module Visits {
  import opened Wrappers
  import opened Types

  /** The keys of the object, in enumeration order. */
  function Dates(log: VisitLog): (ds: seq<string>)
    ensures |ds| == |log|
    ensures forall k :: 0 <= k < |log| ==> ds[k] == log[k].date
  {
    if |log| == 0 then [] else [log[0].date] + Dates(log[1..])
  }

  /** A JavaScript object never holds a key twice. */
  predicate DistinctDates(log: VisitLog) {
    forall i, j :: 0 <= i < j < |log| ==> log[i].date != log[j].date
  }

  /** `log[date]`, `undefined` when the key is absent. */
  function Lookup(log: VisitLog, date: string): Option<int>
  {
    if |log| == 0 then None
    else if log[0].date == date then Some(log[0].count)
    else Lookup(log[1..], date)
  }

  /** A key is undefined exactly when it is not among the object's keys. */
  lemma {:induction false} LookupAbsent(log: VisitLog, date: string)
    ensures Lookup(log, date).None? <==> date !in Dates(log)
  {
    if |log| > 0 {
      LookupAbsent(log[1..], date);
      assert Dates(log) == [log[0].date] + Dates(log[1..]);
    }
  }

  /** `{ ...log, [date]: count }`: the key now maps to `count`, every
      other key keeps its value, an existing key keeps its position and a
      new key is appended at the end. */
  function Put(log: VisitLog, date: string, count: int): (r: VisitLog)
    ensures Lookup(r, date) == Some(count)
    ensures forall d :: d != date ==> Lookup(r, d) == Lookup(log, d)
    ensures date in Dates(log) ==> Dates(r) == Dates(log)
    ensures date !in Dates(log) ==> Dates(r) == Dates(log) + [date]
  {
    if |log| == 0 then [VisitEntry(date, count)]
    else if log[0].date == date then [VisitEntry(date, count)] + log[1..]
    else
      var rest := Put(log[1..], date, count);
      var r := [log[0]] + rest;
      assert r[0] == log[0] && r[1..] == rest;
      assert Dates(log) == [log[0].date] + Dates(log[1..]);
      assert Dates(r) == [log[0].date] + Dates(rest);
      r
  }

  /** Keys are distinct exactly when every key sits at its first occurrence. */
  lemma DistinctDatesNotInTail(log: VisitLog)
    requires |log| > 0
    ensures DistinctDates(log) <==> log[0].date !in Dates(log[1..]) && DistinctDates(log[1..])
  {
    if DistinctDates(log) {
      forall j | 0 <= j < |log[1..]| ensures Dates(log[1..])[j] != log[0].date {
        assert log[1..][j] == log[j + 1];
      }
    }
  }

  /** Writing a key keeps the object a proper dictionary. */
  lemma {:induction false} PutKeepsDistinct(log: VisitLog, date: string, count: int)
    requires DistinctDates(log)
    ensures DistinctDates(Put(log, date, count))
  {
    var r := Put(log, date, count);
    if |log| > 0 {
      DistinctDatesNotInTail(log);
      DistinctDatesNotInTail(r);
      if log[0].date != date {
        PutKeepsDistinct(log[1..], date, count);
        assert r[1..] == Put(log[1..], date, count);
        assert r[0] == log[0];
        var rest := Put(log[1..], date, count);
        assert log[0].date !in Dates(rest) by {
          if date in Dates(log[1..]) {
            assert Dates(rest) == Dates(log[1..]);
          } else {
            assert Dates(rest) == Dates(log[1..]) + [date];
          }
        }
      } else {
        assert r[1..] == log[1..];
      }
    }
  }

  /** `visitCount[today] = (visitCount[today] || 0) + 1`. */
  function Counted(log: VisitLog, today: string): VisitLog
  {
    Put(log, today, Lookup(log, today).GetOr(0) + 1)
  }

  /** Counting a visit raises today's count by one (a day not yet in the
      log counts as 0); the known days keep their places and a new day
      comes last. */
  lemma CountedToday(log: VisitLog, today: string)
    ensures Lookup(Counted(log, today), today) == Some(Lookup(log, today).GetOr(0) + 1)
    ensures today in Dates(log) ==> Dates(Counted(log, today)) == Dates(log)
    ensures today !in Dates(log) ==> Dates(Counted(log, today)) == Dates(log) + [today]
  {
    var c := Lookup(log, today).GetOr(0) + 1;
    var r := Put(log, today, c);
    assert Counted(log, today) == r;
  }

  /** Counting a visit leaves every other day's count as it was. */
  lemma CountedOthers(log: VisitLog, today: string, d: string)
    requires d != today
    ensures Lookup(Counted(log, today), d) == Lookup(log, d)
  {
  }
}
