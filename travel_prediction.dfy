/**
 * The travel prediction dashboard (code1.py): the record store of
 * TravelPredictionApp with its add and delete operations, the history view
 * sorted by date, and the data preparation and cost ratio of the prediction.
 */
module TravelPrediction {
  import opened Outcomes
  import opened TravelRecords

  /** Fewer records than this and no prediction is attempted. */
  const MinRecords: nat := 3
  /** The prediction is made for this many days after today. */
  const DaysAhead: int := 8

  /** Why the add form refuses its input; all of them are a ValueError in the source. */
  datatype InputError = InvalidDate | InvalidDistance | InvalidCost | NotPositive

  /** What a delete request did. */
  datatype DeleteOutcome = Deleted(removed: TravelRecord) | Declined | IndexOutOfRange

  /** The dashboard's state: its list of travel records. Saving after a change is not modelled. */
  class TravelPredictionApp {
    var travelData: seq<TravelRecord>

    /** Starts from the stored list if there is one (not validated), else from no records. */
    constructor (stored: Option<seq<TravelRecord>>)
      ensures travelData == (if stored.Some? then stored.value else [])
    {
      travelData := if stored.Some? then stored.value else [];
    }

    /**
     * Adds the record the form describes. `date`, `distance` and `cost` are
     * the results of parsing the three fields, None where parsing failed;
     * they are checked in that order, then both numbers must be positive.
     */
    method AddTravelRecord(date: Option<int>, distance: Option<real>, cost: Option<real>)
      returns (outcome: Result<TravelRecord, InputError>)
      modifies this
      ensures outcome.Success? <==>
        date.Some? && distance.Some? && cost.Some? && distance.value > 0.0 && cost.value > 0.0
      ensures outcome.Success? ==>
        && outcome.value == TravelRecord(date.value, distance.value, cost.value)
        && travelData == old(travelData) + [outcome.value]
      ensures outcome.Failure? ==> travelData == old(travelData)
      ensures outcome.Failure? ==>
        outcome.error == (if date.None? then InvalidDate
                          else if distance.None? then InvalidDistance
                          else if cost.None? then InvalidCost
                          else NotPositive)
      ensures ValidRecords(old(travelData)) ==> ValidRecords(travelData)
    {
      if date.None? {
        return Failure(InvalidDate);
      }
      if distance.None? {
        return Failure(InvalidDistance);
      }
      if cost.None? {
        return Failure(InvalidCost);
      }
      if distance.value <= 0.0 || cost.value <= 0.0 {
        return Failure(NotPositive);
      }
      var record := TravelRecord(date.value, distance.value, cost.value);
      travelData := travelData + [record];
      outcome := Success(record);
    }

    /**
     * Deletes, once confirmed, the record at position `index` of the list.
     * The index is the tag of a history row, that is, a position in the
     * date-descending view, yet it is applied to the list as stored.
     */
    method DeleteRecord(index: nat, confirmed: bool) returns (outcome: DeleteOutcome)
      modifies this
      ensures !confirmed ==> outcome == Declined && travelData == old(travelData)
      ensures confirmed && index >= |old(travelData)| ==>
        outcome == IndexOutOfRange && travelData == old(travelData)
      ensures confirmed && index < |old(travelData)| ==>
        && outcome == Deleted(old(travelData)[index])
        && travelData == old(travelData)[..index] + old(travelData)[index + 1..]
        && multiset(travelData) + multiset{old(travelData)[index]} == multiset(old(travelData))
      ensures ValidRecords(old(travelData)) ==> ValidRecords(travelData)
    {
      if !confirmed {
        return Declined;
      }
      if index >= |travelData| {
        return IndexOutOfRange;
      }
      var removed := travelData[index];
      assert travelData == travelData[..index] + [removed] + travelData[index + 1..];
      travelData := travelData[..index] + travelData[index + 1..];
      outcome := Deleted(removed);
    }
  }

  /** A row of the history view: its tag (its position in the view) and its record. */
  datatype HistoryRow = HistoryRow(tag: nat, record: TravelRecord)

  function RowRecords(rows: seq<HistoryRow>): seq<TravelRecord> {
    seq(|rows|, k requires 0 <= k < |rows| => rows[k].record)
  }

  /** The history view: every record once, newest first, each tagged with its position. */
  function HistoryRows(data: seq<TravelRecord>): (rows: seq<HistoryRow>)
    ensures |rows| == |data|
    ensures forall k | 0 <= k < |rows| :: rows[k].tag == k
    ensures forall j, k | 0 <= j < k < |rows| :: rows[j].record.date >= rows[k].record.date
    ensures multiset(RowRecords(rows)) == multiset(data)
  {
    var sorted := SortByDate(data, true);
    var rows := seq(|sorted|, k requires 0 <= k < |sorted| => HistoryRow(k, sorted[k]));
    assert RowRecords(rows) == sorted;
    rows
  }

  /** Sorting a sequence that is already in order changes nothing (stability). */
  lemma {:induction false} SortOfSortedIsIdentity(s: seq<TravelRecord>, descending: bool)
    requires SortedByDate(s, descending)
    ensures SortByDate(s, descending) == s
  {
    if s != [] {
      SortOfSortedIsIdentity(s[1..], descending);
      assert s == [s[0]] + s[1..];
      if |s| > 1 {
        assert InOrder(s[0], s[1], descending);
      }
    }
  }

  /**
   * When the list is stored newest first, the record a row shows is the one
   * DeleteRecord removes for that row's tag.
   */
  lemma RowTagIndexesSortedStore(data: seq<TravelRecord>)
    requires SortedByDate(data, true)
    ensures forall k | 0 <= k < |data| :: HistoryRows(data)[k].record == data[k]
  {
    SortOfSortedIsIdentity(data, true);
  }

  /**
   * Otherwise they can differ: with a record of day 1 stored before one of
   * day 2, the row tagged 0 shows the day-2 record, yet confirming the
   * delete of that row removes the day-1 record and keeps the one shown.
   */
  method RowTagCanMissShownRecord() returns (shown: TravelRecord, outcome: DeleteOutcome, remaining: seq<TravelRecord>)
    ensures shown == TravelRecord(2, 7.0, 70.0)
    ensures outcome == Deleted(TravelRecord(1, 5.0, 50.0))
    ensures remaining == [shown]
  {
    var data := [TravelRecord(1, 5.0, 50.0), TravelRecord(2, 7.0, 70.0)];
    var app := new TravelPredictionApp(Some(data));
    shown := HistoryRows(app.travelData)[0].record;
    outcome := app.DeleteRecord(HistoryRows(app.travelData)[0].tag, true);
    remaining := app.travelData;
  }

  // The regression inputs and the cost ratio.

  /** The records ascending by date, the earliest date, and the x (days) and y (km) columns. */
  datatype RegressionInputs =
    RegressionInputs(ordered: seq<TravelRecord>, firstDate: int, xs: seq<int>, ys: seq<real>)

  /** Builds the regression inputs: x is the whole days since the earliest record, y its distance. */
  function PrepareRegression(data: seq<TravelRecord>): (inputs: RegressionInputs)
    requires |data| > 0
    ensures SortedByDate(inputs.ordered, false) && multiset(inputs.ordered) == multiset(data)
    ensures forall r | r in data :: inputs.firstDate <= r.date
    ensures |inputs.ordered| == |inputs.xs| == |inputs.ys| == |data|
    ensures inputs.xs[0] == 0
    ensures forall k | 0 <= k < |data| ::
      && inputs.xs[k] == inputs.ordered[k].date - inputs.firstDate
      && inputs.xs[k] >= 0
      && inputs.ys[k] == inputs.ordered[k].distance
    ensures forall j, k | 0 <= j <= k < |data| :: inputs.xs[j] <= inputs.xs[k]
  {
    var ordered := SortByDate(data, false);
    var firstDate := ordered[0].date;
    var xs := seq(|ordered|, k requires 0 <= k < |ordered| => ordered[k].date - firstDate);
    var ys := seq(|ordered|, k requires 0 <= k < |ordered| => ordered[k].distance);
    assert forall r | r in data :: firstDate <= r.date by {
      forall r | r in data ensures firstDate <= r.date {
        assert r in multiset(ordered);
        var m :| 0 <= m < |ordered| && ordered[m] == r;
        if m > 0 {
          assert InOrder(ordered[0], ordered[m], false);
        }
      }
    }
    RegressionInputs(ordered, firstDate, xs, ys)
  }

  /** Sum of the distances, added in list order; positive for a non-empty store of positive records. */
  function TotalDistance(s: seq<TravelRecord>): (total: real)
    ensures ValidRecords(s) && |s| > 0 ==> total > 0.0
  {
    if s == [] then 0.0 else TotalDistance(s[..|s| - 1]) + s[|s| - 1].distance
  }

  /** Sum of the costs, added in list order; positive for a non-empty store of positive records. */
  function TotalCost(s: seq<TravelRecord>): (total: real)
    ensures ValidRecords(s) && |s| > 0 ==> total > 0.0
  {
    if s == [] then 0.0 else TotalCost(s[..|s| - 1]) + s[|s| - 1].cost
  }

  /** The store's average cost per kilometre: the ratio of the cost total to the distance total. */
  function AverageCostPerKm(data: seq<TravelRecord>): (avg: real)
    requires TotalDistance(data) != 0.0
    ensures avg * TotalDistance(data) == TotalCost(data)
  {
    TotalCost(data) / TotalDistance(data)
  }

  /** The line fitted to (xs, ys) evaluated at an offset; the fit itself is not modelled. */
  type Fit = (seq<int>, seq<real>, int) -> real

  /** The prediction shown to the user. */
  datatype Forecast = Forecast(inputs: RegressionInputs, predictionDate: int, daysSinceFirst: int,
                               predictedDistance: real, avgCostPerKm: real, predictedCost: real)

  /** Too few records (a warning), or a zero total distance (a division by zero). */
  datatype PredictionError = NotEnoughData | ZeroTotalDistance

  /**
   * The prediction for `today` plus eight days: refused below three records;
   * otherwise the line `fit` through the regression inputs is evaluated at
   * the target's offset from the earliest date, and priced at the store's
   * average cost per kilometre.
   */
  function PredictFutureTravel(data: seq<TravelRecord>, today: int, fit: Fit)
    : (r: Result<Forecast, PredictionError>)
    ensures r == Failure(NotEnoughData) <==> |data| < MinRecords
    ensures r == Failure(ZeroTotalDistance) <==> |data| >= MinRecords && TotalDistance(data) == 0.0
    ensures r.Success? ==>
      && |data| > 0
      && r.value.inputs == PrepareRegression(data)
      && r.value.predictionDate == today + DaysAhead
      && r.value.daysSinceFirst == r.value.predictionDate - r.value.inputs.firstDate
      && r.value.predictedDistance ==
           fit(r.value.inputs.xs, r.value.inputs.ys, r.value.daysSinceFirst)
      && TotalDistance(data) != 0.0
      && r.value.avgCostPerKm == AverageCostPerKm(data)
      && r.value.predictedCost == r.value.predictedDistance * r.value.avgCostPerKm
  {
    if |data| < MinRecords then Failure(NotEnoughData)
    else
      var inputs := PrepareRegression(data);
      var predictionDate := today + DaysAhead;
      var daysSinceFirst := predictionDate - inputs.firstDate;
      var predictedDistance := fit(inputs.xs, inputs.ys, daysSinceFirst);
      var totalDistance := TotalDistance(data);
      if totalDistance == 0.0 then Failure(ZeroTotalDistance)
      else
        var avgCostPerKm := AverageCostPerKm(data);
        Success(Forecast(inputs, predictionDate, daysSinceFirst, predictedDistance,
                         avgCostPerKm, predictedDistance * avgCostPerKm))
  }

  /**
   * With at least three records that all passed the add form's check, the
   * prediction is made, and the average cost per kilometre is positive:
   * the division by the total distance never fails.
   */
  lemma ValidStoreAlwaysPredicts(data: seq<TravelRecord>, today: int, fit: Fit)
    requires ValidRecords(data) && |data| >= MinRecords
    ensures PredictFutureTravel(data, today, fit).Success?
    ensures PredictFutureTravel(data, today, fit).value.avgCostPerKm > 0.0
  {
  }

  /** When every record costs `rate` per kilometre, so does the total. */
  lemma {:induction false} UniformRateTotals(s: seq<TravelRecord>, rate: real)
    requires forall k | 0 <= k < |s| :: s[k].cost == rate * s[k].distance
    ensures TotalCost(s) == rate * TotalDistance(s)
  {
    if s != [] {
      var init, last := s[..|s| - 1], s[|s| - 1];
      UniformRateTotals(init, rate);
      calc {
        TotalCost(s);
        TotalCost(init) + last.cost;
        rate * TotalDistance(init) + rate * last.distance;
        rate * (TotalDistance(init) + last.distance);
        rate * TotalDistance(s);
      }
    }
  }

  /** When every record costs `rate` per kilometre, the average cost per kilometre is `rate`. */
  lemma UniformRateAverage(data: seq<TravelRecord>, rate: real)
    requires TotalDistance(data) != 0.0
    requires forall k | 0 <= k < |data| :: data[k].cost == rate * data[k].distance
    ensures AverageCostPerKm(data) == rate
  {
    UniformRateTotals(data, rate);
    ProportionalAverage(data, rate);
  }

  /** Totals in the ratio `rate` give the average cost per kilometre `rate`. */
  lemma ProportionalAverage(data: seq<TravelRecord>, rate: real)
    requires TotalDistance(data) != 0.0 && TotalCost(data) == rate * TotalDistance(data)
    ensures AverageCostPerKm(data) == rate
  {
    CancelFactor(AverageCostPerKm(data), rate, TotalDistance(data), TotalCost(data));
  }

  /** Two numbers whose products with the same non-zero factor agree are equal. */
  lemma CancelFactor(a: real, b: real, factor: real, product: real)
    requires factor != 0.0 && a * factor == product && product == b * factor
    ensures a == b
  {
    assert (a - b) * factor == 0.0;
  }

  /**
   * Three trips of 10, 20 and 30 km on consecutive days (stored out of
   * order) at 10 rupees per km, and a line that fits them exactly: asked on
   * the day three days before the first trip, the target is five days after
   * it, 60 km, priced at 600 rupees.
   */
  lemma ThreeTripScenario()
    ensures var r := PredictFutureTravel(ThreeTrips(), 97, ThreeTripsLine);
            && r.Success?
            && r.value.inputs.xs == [0, 1, 2]
            && r.value.inputs.ys == [10.0, 20.0, 30.0]
            && r.value.daysSinceFirst == 5
            && r.value.predictedDistance == 60.0
            && r.value.avgCostPerKm == 10.0
            && r.value.predictedCost == 600.0
  {
    var data := ThreeTrips();
    ThreeTripsInputs();
    ThreeTripsTotals();
    UniformRateAverage(data, 10.0);
    var r := PredictFutureTravel(data, 97, ThreeTripsLine);
    assert r.Success?;
    assert r.value.daysSinceFirst == 5;
    assert r.value.predictedDistance == ThreeTripsLine([0, 1, 2], [10.0, 20.0, 30.0], 5) == 60.0;
  }

  /** The line 10 km/day + 10 km through the three trips, which the regression would fit. */
  function ThreeTripsLine(xs: seq<int>, ys: seq<real>, x: int): real {
    10.0 * x as real + 10.0
  }

  lemma ThreeTripsInputs()
    ensures PrepareRegression(ThreeTrips()).firstDate == 100
    ensures PrepareRegression(ThreeTrips()).xs == [0, 1, 2]
    ensures PrepareRegression(ThreeTrips()).ys == [10.0, 20.0, 30.0]
  {
    var data := ThreeTrips();
    ThreeTripsOrder();
    var inputs := PrepareRegression(data);
    assert inputs.ordered == [data[1], data[2], data[0]];
    assert inputs.firstDate == 100;
    assert inputs.xs[1] == 1 && inputs.xs[2] == 2;
    assert inputs.xs == [0, 1, 2];
    assert inputs.ys[0] == 10.0 && inputs.ys[1] == 20.0 && inputs.ys[2] == 30.0;
    assert inputs.ys == [10.0, 20.0, 30.0];
  }

  function ThreeTrips(): seq<TravelRecord> {
    [TravelRecord(102, 30.0, 300.0), TravelRecord(100, 10.0, 100.0), TravelRecord(101, 20.0, 200.0)]
  }

  lemma ThreeTripsOrder()
    ensures var data := ThreeTrips();
            SortByDate(data, false) == [data[1], data[2], data[0]]
  {
    var data := ThreeTrips();
    assert data[1..][1..] == [data[2]];
    assert SortByDate([data[2]], false) == [data[2]];
    assert SortByDate(data[1..], false) == [data[1], data[2]];
  }

  lemma ThreeTripsTotals()
    ensures TotalDistance(ThreeTrips()) == 60.0
  {
    var data := ThreeTrips();
    var d1, d2 := data[..1], data[..2];
    assert d1[..0] == [];
    assert TotalDistance(d1) == 30.0;
    assert d2[..1] == d1;
    assert TotalDistance(d2) == 40.0;
    assert data[..2] == d2;
  }
}
