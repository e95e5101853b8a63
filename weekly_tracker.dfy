/**
 * The weekly travel tracker (code.py): a table of exactly seven day entries,
 * Monday to Sunday, that each day tab rewrites in place, and the weekly
 * totals, chart data and display rows derived from it.
 */
module WeeklyTracker {

  /** The tab names, in the order the table keeps its entries. */
  const DaysOfWeek: seq<string> :=
    ["Monday", "Tuesday", "Wednesday", "Thursday", "Friday", "Saturday", "Sunday"]

  /** Rupees charged per kilometre. */
  const CostPerKm: int := 75
  /** Grams of CO2 emitted per kilometre. */
  const EmissionPerKm: int := 125
  /** The largest distance the kilometre input accepts. */
  const MaxKm: int := 1000

  /** One row of the table. */
  datatype DayEntry = DayEntry(day: string, traveled: bool, destination: string,
                               km: int, cost: int, emission: int)

  /** What the tab of one day reports on a run of the page. */
  datatype DayInput = StayedHome | Traveled(destination: string, km: int)

  /** The kilometre input never leaves 0..1000. */
  predicate InputOk(input: DayInput) {
    input.Traveled? ==> 0 <= input.km <= MaxKm
  }

  /** The entry of a day nobody travelled on. */
  function Blank(day: string): DayEntry {
    DayEntry(day, false, "", 0, 0, 0)
  }

  /** The invariant every entry of the table keeps. */
  predicate EntryOk(e: DayEntry, day: string) {
    && e.day == day
    && 0 <= e.km <= MaxKm
    && e.cost == CostPerKm * e.km
    && e.emission == EmissionPerKm * e.km
    && (!e.traveled ==> e == Blank(day))
  }

  /** Seven entries, one per weekday in order, each keeping the invariant. */
  predicate WellFormedWeek(s: seq<DayEntry>) {
    |s| == 7 && forall i | 0 <= i < 7 :: EntryOk(s[i], DaysOfWeek[i])
  }

  /** The table the page builds when it finds none. */
  function InitialWeek(): (w: seq<DayEntry>)
    ensures WellFormedWeek(w)
    ensures forall i | 0 <= i < 7 :: !w[i].traveled
  {
    seq(7, i requires 0 <= i < 7 => Blank(DaysOfWeek[i]))
  }

  /** The entry of `day` after its tab reported `input`, given the entry `e` it had. */
  function Recorded(e: DayEntry, day: string, input: DayInput): (r: DayEntry)
    ensures r.traveled == input.Traveled?
    ensures input.Traveled? ==> r.destination == input.destination
    ensures EntryOk(e, day) && InputOk(input) ==> EntryOk(r, day)
  {
    match input
    case StayedHome => Blank(day)
    case Traveled(destination, km) =>
      if km > 0 then DayEntry(day, true, destination, km, CostPerKm * km, EmissionPerKm * km)
      else e.(traveled := true, destination := destination)
  }

  /** The table a run of the page starts from: the existing one, or a fresh one. */
  function StartOfRun(s: seq<DayEntry>): seq<DayEntry> {
    if s == [] then InitialWeek() else s
  }

  /** The page's session state as far as the table is concerned. */
  class Tracker {
    var travelData: seq<DayEntry>

    /** Before the first run and after a reset the table is empty. */
    ghost predicate Valid()
      reads this
    {
      travelData == [] || WellFormedWeek(travelData)
    }

    constructor ()
      ensures Valid() && travelData == []
    {
      travelData := [];
    }

    /** "Reset User Info" empties the table. */
    method ResetUserInfo()
      modifies this
      ensures Valid() && travelData == []
    {
      travelData := [];
    }

    /** An empty table is replaced by seven blank entries; a full one is kept. */
    method InitialiseIfEmpty()
      requires Valid()
      modifies this
      ensures Valid() && |travelData| == 7
      ensures travelData == StartOfRun(old(travelData))
    {
      if |travelData| == 0 {
        travelData := InitialWeek();
      }
    }

    /** The tab of day `i` rewrites entry `i` by one of three rules. */
    method UpdateDay(i: nat, input: DayInput)
      requires Valid() && |travelData| == 7 && i < 7 && InputOk(input)
      modifies this
      ensures Valid() && |travelData| == 7
      ensures travelData == old(travelData)[i := Recorded(old(travelData)[i], DaysOfWeek[i], input)]
      ensures input.Traveled? && input.km > 0 ==>
        travelData[i] == DayEntry(DaysOfWeek[i], true, input.destination, input.km,
                                  CostPerKm * input.km, EmissionPerKm * input.km)
      ensures input.Traveled? && input.km == 0 ==>
        && travelData[i].traveled && travelData[i].destination == input.destination
        && travelData[i].km == old(travelData)[i].km
        && travelData[i].cost == old(travelData)[i].cost
        && travelData[i].emission == old(travelData)[i].emission
      ensures input.StayedHome? ==> travelData[i] == Blank(DaysOfWeek[i])
      ensures forall j | 0 <= j < 7 && j != i :: travelData[j] == old(travelData)[j]
    {
      match input
      case Traveled(destination, km) =>
        if km > 0 {
          var cost := km * CostPerKm;
          var emission := km * EmissionPerKm;
          travelData := travelData[i := DayEntry(DaysOfWeek[i], true, destination, km, cost, emission)];
        } else {
          travelData := travelData[i := travelData[i].(traveled := true)];
          travelData := travelData[i := travelData[i].(destination := destination)];
        }
      case StayedHome =>
        travelData := travelData[i := Blank(DaysOfWeek[i])];
    }

    /** One run of the page: initialise if needed, then let every tab update its day. */
    method ProcessWeek(inputs: seq<DayInput>)
      requires Valid()
      requires |inputs| == 7 && forall k | 0 <= k < 7 :: InputOk(inputs[k])
      modifies this
      ensures Valid() && |travelData| == 7
      ensures forall k | 0 <= k < 7 ::
        travelData[k] == Recorded(StartOfRun(old(travelData))[k], DaysOfWeek[k], inputs[k])
    {
      InitialiseIfEmpty();
      ghost var start := travelData;
      for i := 0 to 7
        invariant Valid() && |travelData| == 7
        invariant forall k | 0 <= k < i :: travelData[k] == Recorded(start[k], DaysOfWeek[k], inputs[k])
        invariant forall k | i <= k < 7 :: travelData[k] == start[k]
      {
        UpdateDay(i, inputs[i]);
      }
    }
  }

  // Weekly summary. Python's sum adds left to right, so each total is the
  // total of all but the last entry plus the last entry.

  /** Total distance; within 0..MaxKm per entry when every entry is. */
  function TotalKm(s: seq<DayEntry>): (total: int)
    ensures (forall k | 0 <= k < |s| :: 0 <= s[k].km <= MaxKm) ==> 0 <= total <= MaxKm * |s|
  {
    if s == [] then 0 else TotalKm(s[..|s| - 1]) + s[|s| - 1].km
  }

  /** Total cost; CostPerKm times the total distance when every entry is priced so. */
  function TotalCost(s: seq<DayEntry>): (total: int)
    ensures (forall k | 0 <= k < |s| :: s[k].cost == CostPerKm * s[k].km) ==>
            total == CostPerKm * TotalKm(s)
  {
    if s == [] then 0 else TotalCost(s[..|s| - 1]) + s[|s| - 1].cost
  }

  /** Total emission; EmissionPerKm times the total distance when every entry is rated so. */
  function TotalEmission(s: seq<DayEntry>): (total: int)
    ensures (forall k | 0 <= k < |s| :: s[k].emission == EmissionPerKm * s[k].km) ==>
            total == EmissionPerKm * TotalKm(s)
  {
    if s == [] then 0 else TotalEmission(s[..|s| - 1]) + s[|s| - 1].emission
  }

  /** The number of travelled days, at most one per entry. */
  function DaysTraveled(s: seq<DayEntry>): (count: int)
    ensures 0 <= count <= |s|
  {
    if s == [] then 0 else DaysTraveled(s[..|s| - 1]) + (if s[|s| - 1].traveled then 1 else 0)
  }

  /** Entries nobody travelled on add nothing to any total. */
  lemma {:induction false} BlankWeekTotals(s: seq<DayEntry>)
    requires forall k | 0 <= k < |s| :: s[k] == Blank(s[k].day)
    ensures DaysTraveled(s) == 0 && TotalKm(s) == 0
    ensures TotalCost(s) == 0 && TotalEmission(s) == 0
  {
    if s != [] {
      BlankWeekTotals(s[..|s| - 1]);
    }
  }

  /** The traveled-only chart data: the entries with traveled set, in table order. */
  function TraveledOnly(s: seq<DayEntry>): (chart: seq<DayEntry>)
    ensures |chart| <= |s|
    ensures forall j | 0 <= j < |chart| :: chart[j].traveled && chart[j] in s
  {
    if s == [] then []
    else TraveledOnly(s[..|s| - 1]) + (if s[|s| - 1].traveled then [s[|s| - 1]] else [])
  }

  /** The positions of the entries with traveled set, in increasing order. */
  function TraveledPositions(s: seq<DayEntry>): (p: seq<nat>)
    ensures forall j | 0 <= j < |p| :: p[j] < |s| && s[p[j]].traveled
    ensures forall j, k | 0 <= j < k < |p| :: p[j] < p[k]
    ensures forall i | 0 <= i < |s| && s[i].traveled :: i in p
  {
    if s == [] then []
    else TraveledPositions(s[..|s| - 1]) + (if s[|s| - 1].traveled then [|s| - 1] else [])
  }

  /**
   * The chart data is exactly the subsequence of the traveled entries: its
   * j-th element is the entry at the j-th traveled position, and it has one
   * element per day counted by DaysTraveled.
   */
  lemma {:induction false} ChartIsTraveledSubsequence(s: seq<DayEntry>)
    ensures |TraveledOnly(s)| == |TraveledPositions(s)| == DaysTraveled(s)
    ensures forall j | 0 <= j < |TraveledOnly(s)| :: TraveledOnly(s)[j] == s[TraveledPositions(s)[j]]
  {
    if s != [] {
      var init := s[..|s| - 1];
      ChartIsTraveledSubsequence(init);
      assert forall k | 0 <= k < |init| :: init[k] == s[k];
    }
  }

  /**
   * The weekly summary of a well-formed table: the cost and emission totals
   * are the per-kilometre rates times the distance total, the distance total
   * is at most 7000, and between 0 and 7 days count as travelled.
   */
  lemma WeekSummary(s: seq<DayEntry>)
    requires WellFormedWeek(s)
    ensures TotalCost(s) == CostPerKm * TotalKm(s)
    ensures TotalEmission(s) == EmissionPerKm * TotalKm(s)
    ensures 0 <= TotalKm(s) <= 7 * MaxKm
    ensures 0 <= DaysTraveled(s) <= 7
  {
  }

  /** A freshly initialised table has no travel and zero totals. */
  lemma InitialWeekIsEmpty()
    ensures DaysTraveled(InitialWeek()) == 0 && TotalKm(InitialWeek()) == 0
    ensures TotalCost(InitialWeek()) == 0 && TotalEmission(InitialWeek()) == 0
    ensures TraveledOnly(InitialWeek()) == []
  {
    BlankWeekTotals(InitialWeek());
    ChartIsTraveledSubsequence(InitialWeek());
  }

  /** The chart loop: append each traveled entry, in table order. */
  method ChartData(s: seq<DayEntry>) returns (chart: seq<DayEntry>)
    ensures chart == TraveledOnly(s)
  {
    chart := [];
    for i := 0 to |s|
      invariant chart == TraveledOnly(s[..i])
    {
      assert s[..i + 1][..i] == s[..i];
      if s[i].traveled {
        chart := chart + [s[i]];
      }
    }
    assert s[..|s|] == s;
  }

  /** Labels of the "Traveled" column. */
  const YesLabel: string := "\U{2705} Yes"
  const NoLabel: string := "\U{274C} No"

  /** One row of the detailed travel log. */
  datatype DisplayRow = DisplayRow(day: string, traveled: string, destination: string,
                                   km: int, cost: int, emission: int)

  /** How the log shows one entry: a label for traveled, '-' for no destination. */
  function ToDisplayRow(e: DayEntry): (r: DisplayRow)
    ensures r.day == e.day && r.km == e.km && r.cost == e.cost && r.emission == e.emission
    ensures (r.traveled == YesLabel) == e.traveled
    ensures !e.traveled ==> r.traveled == NoLabel
    ensures r.destination != ""
    ensures e.destination != "" ==> r.destination == e.destination
    ensures e.destination == "" ==> r.destination == "-"
  {
    DisplayRow(e.day, if e.traveled then YesLabel else NoLabel,
               if e.destination != "" then e.destination else "-",
               e.km, e.cost, e.emission)
  }

  /** The display loop: one row per entry, in table order. */
  method DisplayTable(s: seq<DayEntry>) returns (rows: seq<DisplayRow>)
    ensures |rows| == |s|
    ensures forall k | 0 <= k < |s| :: rows[k] == ToDisplayRow(s[k])
  {
    rows := [];
    for i := 0 to |s|
      invariant |rows| == i
      invariant forall k | 0 <= k < i :: rows[k] == ToDisplayRow(s[k])
    {
      rows := rows + [ToDisplayRow(s[i])];
    }
  }
}
