/**
 * The tables behind the dashboard's charts: each one groups the filtered
 * rows by one or two columns and sums the rental count.
 */
module Charts {
  import opened Wrappers
  import opened Records
  import opened RowFilter
  import opened Grouping

  /**
   * Grouping keys, one per chart; a key with a missing part drops the row.
   * Each contract states which column or pair of columns is the key.
   */
  function BySeason(r: Record): (k: Option<string>)
    ensures k == r.season
  {
    r.season
  }

  function BySeasonDate(r: Record): (k: Option<(string, string)>)
    ensures k.Some? <==> r.season.Some?
    ensures k.Some? ==> k.value == (r.season.value, r.dteday)
  {
    match r.season
    case None => None
    case Some(s) => Some((s, r.dteday))
  }

  function ByHour(r: Record): (k: Option<int>)
    ensures k == Some(r.hr)
  {
    Some(r.hr)
  }

  function ByRushHour(r: Record): (k: Option<string>)
    ensures k == Some(r.rushHour)
  {
    Some(r.rushHour)
  }

  function ByWeather(r: Record): (k: Option<string>)
    ensures k == r.weathersit
  {
    r.weathersit
  }

  function ByMonthWeather(r: Record): (k: Option<(int, string)>)
    ensures k.Some? <==> r.weathersit.Some?
    ensures k.Some? ==> k.value == (r.month, r.weathersit.value)
  {
    match r.weathersit
    case None => None
    case Some(w) => Some((r.month, w))
  }

  /** The six grouped tables, one per chart. */
  datatype ChartTables = ChartTables(
    seasonTotals: map<string, int>,
    seasonDateTotals: map<(string, string), int>,
    hourTotals: map<int, int>,
    rushTotals: map<string, int>,
    weatherTotals: map<string, int>,
    monthWeatherTotals: map<(int, string), int>)

  /** The value a bar shows for a key: its sum, or nothing (zero) when absent. */
  function Bar<K(==)>(table: map<K, int>, k: K): int
  {
    if k in table then table[k] else 0
  }

  /**
   * Builds the six tables from the filtered rows. Each is the group table
   * of its key; the season and weather tables account for the rows whose
   * label is present, the hourly and rush-hour tables for every rental, and
   * each two-column table for the same rentals as its one-column partner.
   */
  function BuildCharts(filtered: seq<Record>): (c: ChartTables)
    ensures IsGroupTable(c.seasonTotals, filtered, BySeason)
    ensures IsGroupTable(c.seasonDateTotals, filtered, BySeasonDate)
    ensures IsGroupTable(c.hourTotals, filtered, ByHour)
    ensures IsGroupTable(c.rushTotals, filtered, ByRushHour)
    ensures IsGroupTable(c.weatherTotals, filtered, ByWeather)
    ensures IsGroupTable(c.monthWeatherTotals, filtered, ByMonthWeather)
    ensures Total(c.seasonTotals) == SumOfDefined(filtered, BySeason)
    ensures Total(c.weatherTotals) == SumOfDefined(filtered, ByWeather)
    ensures Total(c.hourTotals) == SumCnt(filtered)
    ensures Total(c.rushTotals) == SumCnt(filtered)
    ensures Total(c.seasonTotals) == Total(c.seasonDateTotals)
    ensures Total(c.weatherTotals) == Total(c.monthWeatherTotals)
  {
    var c := ChartTables(
      GroupSum(filtered, BySeason),
      GroupSum(filtered, BySeasonDate),
      GroupSum(filtered, ByHour),
      GroupSum(filtered, ByRushHour),
      GroupSum(filtered, ByWeather),
      GroupSum(filtered, ByMonthWeather));
    GroupTotalAllDefined(filtered, ByHour);
    GroupTotalAllDefined(filtered, ByRushHour);
    GroupTotal(filtered, BySeason);
    GroupTotal(filtered, BySeasonDate);
    SameDefined(filtered, BySeason, BySeasonDate);
    GroupTotal(filtered, ByWeather);
    GroupTotal(filtered, ByMonthWeather);
    SameDefined(filtered, ByWeather, ByMonthWeather);
    c
  }

  /** The rush-hour column of every row agrees with its hour. */
  ghost predicate RushConsistent(rows: seq<Record>)
  {
    forall i :: 0 <= i < |rows| ==>
      && (rows[i].rushHour == Busy <==> 7 <= rows[i].hr <= 19)
      && (rows[i].rushHour == Quiet <==> rows[i].hr < 7 || rows[i].hr > 19)
  }

  /**
   * The whole dashboard: load, filter, then group. The rush-hour chart has
   * only the two bars, the busy bar is the sum of the hourly bars 7 to 19,
   * and the two bars together show every rental of the hourly chart.
   */
  function Dashboard(raws: seq<RawRecord>, monthOf: string -> int, sel: Selection): (c: ChartTables)
    ensures c == BuildCharts(Filtered(LoadData(raws, monthOf), sel))
    ensures Total(c.hourTotals) == SumCnt(Filtered(LoadData(raws, monthOf), sel))
    ensures forall h :: Bar(c.hourTotals, h) == SumOfKey(Filtered(LoadData(raws, monthOf), sel), ByHour, h)
    ensures c.rushTotals.Keys <= {Busy, Quiet}
    ensures Bar(c.rushTotals, Busy) == BarsInRange(c.hourTotals, 7, 19)
    ensures Bar(c.rushTotals, Busy) + Bar(c.rushTotals, Quiet) == Total(c.hourTotals)
  {
    var filtered := Filtered(LoadData(raws, monthOf), sel);
    LoadedRowsRushConsistent(raws, monthOf, sel);
    RushKeys(filtered);
    RushHourSplit(filtered);
    BusyBarIsBusyHours(filtered);
    assert forall h :: Bar(GroupSum(filtered, ByHour), h) == SumOfKey(filtered, ByHour, h) by {
      forall h ensures Bar(GroupSum(filtered, ByHour), h) == SumOfKey(filtered, ByHour, h) {
        BarIsSumOfKey(filtered, ByHour, h);
      }
    }
    BuildCharts(filtered)
  }

  lemma LoadedRowsRushConsistent(raws: seq<RawRecord>, monthOf: string -> int, sel: Selection)
    ensures RushConsistent(Filtered(LoadData(raws, monthOf), sel))
  {
    var rows := LoadData(raws, monthOf);
    var filtered := Filtered(rows, sel);
    forall i | 0 <= i < |filtered|
      ensures (filtered[i].rushHour == Busy <==> 7 <= filtered[i].hr <= 19)
      ensures (filtered[i].rushHour == Quiet <==> filtered[i].hr < 7 || filtered[i].hr > 19)
    {
      assert filtered[i] in rows;
      var j :| 0 <= j < |rows| && rows[j] == filtered[i];
    }
  }

  lemma RushKeys(rows: seq<Record>)
    requires RushConsistent(rows)
    ensures GroupSum(rows, ByRushHour).Keys <= {Busy, Quiet}
  {
    forall k | k in GroupSum(rows, ByRushHour) ensures k == Busy || k == Quiet {
      var i :| 0 <= i < |rows| && ByRushHour(rows[i]) == Some(k);
    }
  }

  /** Sum of the hourly bars for the hours `lo` to `hi`. */
  ghost function BarsInRange(table: map<int, int>, lo: int, hi: int): int
    decreases hi - lo
  {
    if lo > hi then 0 else Bar(table, lo) + BarsInRange(table, lo + 1, hi)
  }

  /** Rentals of the rows whose hour lies in `lo..hi`. */
  ghost function SumOfHours(rows: seq<Record>, lo: int, hi: int): int
  {
    if rows == [] then 0
    else (if lo <= rows[0].hr <= hi then rows[0].cnt else 0) + SumOfHours(rows[1..], lo, hi)
  }

  lemma {:induction false} SumOfHoursSplit(rows: seq<Record>, lo: int, hi: int)
    requires lo <= hi
    ensures SumOfHours(rows, lo, hi) == SumOfKey(rows, ByHour, lo) + SumOfHours(rows, lo + 1, hi)
  {
    if rows != [] {
      SumOfHoursSplit(rows[1..], lo, hi);
    }
  }

  lemma {:induction false} HourBarsInRange(rows: seq<Record>, lo: int, hi: int)
    ensures BarsInRange(GroupSum(rows, ByHour), lo, hi) == SumOfHours(rows, lo, hi)
    decreases hi - lo
  {
    if lo > hi {
      SumOfHoursEmpty(rows, lo, hi);
    } else {
      BarIsSumOfKey(rows, ByHour, lo);
      SumOfHoursSplit(rows, lo, hi);
      HourBarsInRange(rows, lo + 1, hi);
    }
  }

  lemma {:induction false} SumOfHoursEmpty(rows: seq<Record>, lo: int, hi: int)
    requires lo > hi
    ensures SumOfHours(rows, lo, hi) == 0
  {
    if rows != [] {
      SumOfHoursEmpty(rows[1..], lo, hi);
    }
  }

  lemma {:induction false} BusyIsBusyHours(rows: seq<Record>)
    requires RushConsistent(rows)
    ensures SumOfKey(rows, ByRushHour, Busy) == SumOfHours(rows, 7, 19)
  {
    if rows != [] {
      assert rows[0].rushHour == Busy <==> 7 <= rows[0].hr <= 19;
      assert forall i :: 1 <= i < |rows| ==> rows[i] == rows[1..][i - 1];
      BusyIsBusyHours(rows[1..]);
    }
  }

  /** The busy bar is the sum of the hourly bars for hours 7 to 19. */
  lemma BusyBarIsBusyHours(rows: seq<Record>)
    requires RushConsistent(rows)
    ensures Bar(GroupSum(rows, ByRushHour), Busy) == BarsInRange(GroupSum(rows, ByHour), 7, 19)
  {
    BarIsSumOfKey(rows, ByRushHour, Busy);
    BusyIsBusyHours(rows);
    HourBarsInRange(rows, 7, 19);
  }

  /** Two keys that are missing on the same rows select the same rentals. */
  lemma {:induction false} SameDefined<K, L>(rows: seq<Record>, key1: Record -> Option<K>, key2: Record -> Option<L>)
    requires forall i :: 0 <= i < |rows| ==> (key1(rows[i]).Some? <==> key2(rows[i]).Some?)
    ensures SumOfDefined(rows, key1) == SumOfDefined(rows, key2)
  {
    if rows != [] {
      assert key1(rows[0]).Some? <==> key2(rows[0]).Some?;
      assert forall i :: 1 <= i < |rows| ==> rows[i] == rows[1..][i - 1];
      SameDefined(rows[1..], key1, key2);
    }
  }

  lemma {:induction false} BusyQuietSplit(rows: seq<Record>)
    requires RushConsistent(rows)
    ensures SumOfKey(rows, ByRushHour, Busy) + SumOfKey(rows, ByRushHour, Quiet) == SumCnt(rows)
  {
    if rows != [] {
      assert rows[0].rushHour == Busy || rows[0].rushHour == Quiet;
      assert forall i :: 1 <= i < |rows| ==> rows[i] == rows[1..][i - 1];
      BusyQuietSplit(rows[1..]);
    }
  }

  /**
   * The busy bar and the quiet bar together show every rental of the
   * filtered rows.
   */
  lemma RushHourSplit(filtered: seq<Record>)
    requires RushConsistent(filtered)
    ensures Bar(BuildCharts(filtered).rushTotals, Busy) + Bar(BuildCharts(filtered).rushTotals, Quiet)
            == SumCnt(filtered)
  {
    var t := BuildCharts(filtered).rushTotals;
    BusyQuietSplit(filtered);
    if Busy !in t { SumOfAbsentKey(filtered, ByRushHour, Busy); }
    if Quiet !in t { SumOfAbsentKey(filtered, ByRushHour, Quiet); }
  }

  /** Each bar of a table is the sum over exactly the rows with that key. */
  lemma BarIsSumOfKey<K(!new)>(rows: seq<Record>, key: Record -> Option<K>, k: K)
    ensures Bar(GroupSum(rows, key), k) == SumOfKey(rows, key, k)
  {
    if k !in GroupSum(rows, key) { SumOfAbsentKey(rows, key, k); }
  }

  /** No row survives the filter: every chart table is empty. */
  lemma NothingFilteredNoBars(raws: seq<RawRecord>, monthOf: string -> int, sel: Selection)
    requires Filtered(LoadData(raws, monthOf), sel) == []
    ensures Dashboard(raws, monthOf, sel) == ChartTables(map[], map[], map[], map[], map[], map[])
  {
  }

  /** An empty choice in any multiselect leaves every chart empty. */
  lemma EmptyChoiceNoBars(raws: seq<RawRecord>, monthOf: string -> int, sel: Selection)
    requires sel.seasons == {} || sel.weathers == {} || sel.days == {} || sel.hours == {}
    ensures Dashboard(raws, monthOf, sel) == ChartTables(map[], map[], map[], map[], map[], map[])
  {
    EmptyChoiceKeepsNothing(LoadData(raws, monthOf), sel);
  }

  /**
   * With every season code inside 1..4, the season chart accounts for all
   * the rentals the hourly chart shows; an unmapped code would drop its
   * rows from the season chart only.
   */
  lemma MappedSeasonsKeepAllRentals(raws: seq<RawRecord>, monthOf: string -> int, sel: Selection)
    requires forall i :: 0 <= i < |raws| ==> 1 <= raws[i].season <= 4
    ensures Total(Dashboard(raws, monthOf, sel).seasonTotals) == Total(Dashboard(raws, monthOf, sel).hourTotals)
  {
    var rows := LoadData(raws, monthOf);
    var filtered := Filtered(rows, sel);
    forall i | 0 <= i < |filtered| ensures BySeason(filtered[i]).Some? {
      assert filtered[i] in rows;
      var j :| 0 <= j < |rows| && rows[j] == filtered[i];
      assert 1 <= raws[j].season <= 4;
    }
    GroupTotalAllDefined(filtered, BySeason);
  }

  /**
   * Three rentals, two at 8 o'clock (Monday and Tuesday) and one at 20
   * o'clock: the rush-hour chart shows 80 busy and 10 quiet, the hourly
   * chart 80 at hour 8 and 10 at hour 20.
   */
  lemma ThreeRowScenario(monthOf: string -> int)
    ensures var c := Dashboard(ScenarioRaws(), monthOf, ScenarioSelection());
            c.rushTotals == map[Busy := 80, Quiet := 10] && c.hourTotals == map[8 := 80, 20 := 10]
  {
    var rows := LoadData(ScenarioRaws(), monthOf);
    assert rows[0].hr == 8 && rows[1].hr == 8 && rows[2].hr == 20;
    assert rows[0].rushHour == Busy && rows[1].rushHour == Busy && rows[2].rushHour == Quiet;
    assert Keep(rows[0], ScenarioSelection()) && Keep(rows[1], ScenarioSelection()) && Keep(rows[2], ScenarioSelection());
    FilteredAllKept(rows, ScenarioSelection());
    assert rows == [rows[0], rows[1], rows[2]];
    ThreeRowTables(rows[0], rows[1], rows[2]);
  }

  lemma ThreeRowTables(a: Record, b: Record, c: Record)
    requires a.hr == 8 && b.hr == 8 && c.hr == 20
    requires a.rushHour == Busy && b.rushHour == Busy && c.rushHour == Quiet
    requires a.cnt == 50 && b.cnt == 30 && c.cnt == 10
    ensures GroupSum([a, b, c], ByRushHour) == map[Busy := 80, Quiet := 10]
    ensures GroupSum([a, b, c], ByHour) == map[8 := 80, 20 := 10]
  {
    ThreeRowRush(a, b, c);
    ThreeRowHours(a, b, c);
  }

  lemma ThreeRowRush(a: Record, b: Record, c: Record)
    requires a.rushHour == Busy && b.rushHour == Busy && c.rushHour == Quiet
    requires a.cnt == 50 && b.cnt == 30 && c.cnt == 10
    ensures GroupSum([a, b, c], ByRushHour) == map[Busy := 80, Quiet := 10]
  {
    assert [a, b, c][1..] == [b, c] && [b, c][1..] == [c] && [c][1..] == [];
    var r1 := GroupSum([c], ByRushHour);
    assert r1 == map[Quiet := 10];
    var r2 := GroupSum([b, c], ByRushHour);
    assert r2 == AddTo(r1, Busy, 30);
    assert GroupSum([a, b, c], ByRushHour) == AddTo(r2, Busy, 50);
  }

  lemma ThreeRowHours(a: Record, b: Record, c: Record)
    requires a.hr == 8 && b.hr == 8 && c.hr == 20
    requires a.cnt == 50 && b.cnt == 30 && c.cnt == 10
    ensures GroupSum([a, b, c], ByHour) == map[8 := 80, 20 := 10]
  {
    assert [a, b, c][1..] == [b, c] && [b, c][1..] == [c] && [c][1..] == [];
    var h1 := GroupSum([c], ByHour);
    assert h1 == map[20 := 10];
    var h2 := GroupSum([b, c], ByHour);
    assert h2 == AddTo(h1, 8, 30);
    assert GroupSum([a, b, c], ByHour) == AddTo(h2, 8, 50);
  }

  function ScenarioRaws(): seq<RawRecord>
  {
    [RawRecord("2011-01-03", 1, 8, 1, 1, 1, 50),
     RawRecord("2011-01-04", 1, 8, 2, 1, 1, 30),
     RawRecord("2011-01-03", 1, 20, 1, 1, 1, 10)]
  }

  function ScenarioSelection(): Selection
  {
    Selection({Some("Musim Semi")}, {Some("Cerah/Berawan")}, {Some("Senin"), Some("Selasa")}, {8, 20})
  }
}
