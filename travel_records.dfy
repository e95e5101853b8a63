/**
 * The travel records of the prediction dashboard (code1.py) and the stable
 * sort by date that both the history view and the regression use.
 */
module TravelRecords {

  /** One logged trip; the date is a day number, distance in km, cost in rupees. */
  datatype TravelRecord = TravelRecord(date: int, distance: real, cost: real)

  /** What the add form guarantees of every record it stores. */
  predicate ValidRecords(s: seq<TravelRecord>) {
    forall k | 0 <= k < |s| :: s[k].distance > 0.0 && s[k].cost > 0.0
  }

  /** `x` may stand before `y` in date order, ascending or descending. */
  predicate InOrder(x: TravelRecord, y: TravelRecord, descending: bool) {
    if descending then x.date >= y.date else x.date <= y.date
  }

  predicate SortedByDate(s: seq<TravelRecord>, descending: bool) {
    forall j, k | 0 <= j < k < |s| :: InOrder(s[j], s[k], descending)
  }

  /** The records of `s` dated `day`, in the order of `s`. */
  function OnDate(s: seq<TravelRecord>, day: int): seq<TravelRecord> {
    if s == [] then []
    else (if s[0].date == day then [s[0]] else []) + OnDate(s[1..], day)
  }

  /**
   * Puts `x` in front of the first record it may precede, so that it lands
   * after every record strictly before it and before every record with its date.
   */
  function Insert(x: TravelRecord, s: seq<TravelRecord>, descending: bool): (r: seq<TravelRecord>)
    ensures |r| == |s| + 1
    ensures multiset(r) == multiset(s) + multiset{x}
  {
    if s == [] || InOrder(x, s[0], descending) then [x] + s
    else
      assert s == [s[0]] + s[1..];
      [s[0]] + Insert(x, s[1..], descending)
  }

  /** Inserting into a sorted sequence keeps it sorted. */
  lemma {:induction false} InsertKeepsSorted(x: TravelRecord, s: seq<TravelRecord>, descending: bool)
    requires SortedByDate(s, descending)
    ensures SortedByDate(Insert(x, s, descending), descending)
  {
    if s == [] || InOrder(x, s[0], descending) {
      forall k | 0 < k < |s| ensures InOrder(x, s[k], descending) {
        assert InOrder(s[0], s[k], descending);
      }
    } else {
      var tail := s[1..];
      var rest := Insert(x, tail, descending);
      InsertKeepsSorted(x, tail, descending);
      forall k | 0 <= k < |rest| ensures InOrder(s[0], rest[k], descending) {
        assert rest[k] in multiset(rest);
        if rest[k] != x {
          assert rest[k] in multiset(tail);
          var m :| 0 <= m < |tail| && tail[m] == rest[k];
          assert InOrder(s[0], s[1 + m], descending);
        }
      }
      assert Insert(x, s, descending) == [s[0]] + rest;
    }
  }

  /**
   * Python's `sorted` by the date key, with `reverse` for descending order:
   * a sorted permutation of its input.
   */
  function SortByDate(s: seq<TravelRecord>, descending: bool): (r: seq<TravelRecord>)
    ensures |r| == |s|
    ensures multiset(r) == multiset(s)
    ensures SortedByDate(r, descending)
  {
    if s == [] then []
    else
      assert s == [s[0]] + s[1..];
      InsertKeepsSorted(s[0], SortByDate(s[1..], descending), descending);
      Insert(s[0], SortByDate(s[1..], descending), descending)
  }

  lemma {:induction false} InsertOnDate(x: TravelRecord, s: seq<TravelRecord>, descending: bool, day: int)
    ensures OnDate(Insert(x, s, descending), day) ==
            (if x.date == day then [x] else []) + OnDate(s, day)
  {
    if s == [] || InOrder(x, s[0], descending) {
      assert ([x] + s)[1..] == s;
    } else {
      var rest := Insert(x, s[1..], descending);
      var r := [s[0]] + rest;
      assert r[1..] == rest;
      assert s[0].date != x.date;
      assert OnDate(r, day) == (if s[0].date == day then [s[0]] else []) + OnDate(rest, day);
      assert OnDate(s, day) == (if s[0].date == day then [s[0]] else []) + OnDate(s[1..], day);
      InsertOnDate(x, s[1..], descending, day);
    }
  }

  /**
   * The sort is stable: the records sharing any one date keep their original
   * relative order, ascending or descending.
   */
  lemma {:induction false} SortIsStable(s: seq<TravelRecord>, descending: bool, day: int)
    ensures OnDate(SortByDate(s, descending), day) == OnDate(s, day)
  {
    if s != [] {
      SortIsStable(s[1..], descending, day);
      InsertOnDate(s[0], SortByDate(s[1..], descending), descending, day);
    }
  }
}
