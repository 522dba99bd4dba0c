/**
 * The record normaliser of the bike-sharing dashboard (`load_data`): three
 * coded columns are relabelled through static dictionaries and three derived
 * columns are appended.
 */
module Records {
  import opened Wrappers

  /** Season codes of the dataset and their display labels. */
  const SeasonMapping: map<int, string> :=
    map[1 := "Musim Semi", 2 := "Musim Panas", 3 := "Musim Gugur", 4 := "Musim Dingin"]

  /** Weather-situation codes and their display labels. */
  const WeatherMapping: map<int, string> :=
    map[1 := "Cerah/Berawan", 2 := "Berkabut/Berawan", 3 := "Gerimis/Sedang", 4 := "Hujan Deras/Badai"]

  /** Weekday codes (0 is Sunday) and their display labels. */
  const DayMapping: map<int, string> :=
    map[0 := "Minggu", 1 := "Senin", 2 := "Selasa", 3 := "Rabu", 4 := "Kamis", 5 := "Jumat", 6 := "Sabtu"]

  /** Labels of the rush-hour column. */
  const Busy: string := "Sibuk"
  const Quiet: string := "Sepi"

  /**
   * `Series.map` with a dictionary: a code in the dictionary becomes its
   * label, any other code becomes a missing value (no default).
   */
  function MapCode(mapping: map<int, string>, code: int): (r: Option<string>)
    ensures r.Some? <==> code in mapping
    ensures code in mapping ==> r == Some(mapping[code])
  {
    if code in mapping then Some(mapping[code]) else None
  }

  /** `Series.map` on a whole column: each cell is mapped on its own, in place. */
  function MapColumn(mapping: map<int, string>, codes: seq<int>): (labels: seq<Option<string>>)
    ensures |labels| == |codes|
    ensures forall i :: 0 <= i < |codes| ==> (labels[i].Some? <==> codes[i] in mapping)
    ensures forall i :: 0 <= i < |codes| && codes[i] in mapping ==> labels[i] == Some(mapping[codes[i]])
  {
    if codes == [] then [] else [MapCode(mapping, codes[0])] + MapColumn(mapping, codes[1..])
  }

  /** A two-entry dictionary on the codes 1, 1, 3: the unknown code 3 gets a missing label. */
  lemma MapColumnExample()
    ensures MapColumn(map[1 := "Clear", 2 := "Mist"], [1, 1, 3]) == [Some("Clear"), Some("Clear"), None]
  {
    var m := map[1 := "Clear", 2 := "Mist"];
    assert [1, 1, 3][1..] == [1, 3] && [1, 3][1..] == [3] && [3][1..] == [];
    assert MapColumn(m, [3]) == [None];
  }

  function SeasonLabel(code: int): (r: Option<string>)
    ensures r.Some? <==> 1 <= code <= 4
  {
    MapCode(SeasonMapping, code)
  }

  function WeatherLabel(code: int): (r: Option<string>)
    ensures r.Some? <==> 1 <= code <= 4
  {
    MapCode(WeatherMapping, code)
  }

  function DayLabel(code: int): (r: Option<string>)
    ensures r.Some? <==> 0 <= code <= 6
    ensures code == 0 ==> r == Some("Minggu")
  {
    MapCode(DayMapping, code)
  }

  /** Distinct codes of each dictionary get distinct labels. */
  lemma LabelsInjective(a: int, b: int)
    ensures SeasonLabel(a).Some? && SeasonLabel(a) == SeasonLabel(b) ==> a == b
    ensures WeatherLabel(a).Some? && WeatherLabel(a) == WeatherLabel(b) ==> a == b
    ensures DayLabel(a).Some? && DayLabel(a) == DayLabel(b) ==> a == b
  {
  }

  /** Hours 7 to 19, both inclusive, are busy; every other hour is quiet. */
  function RushHour(hr: int): (r: string)
    ensures r == Busy <==> 7 <= hr <= 19
    ensures r == Quiet <==> hr < 7 || hr > 19
  {
    if 7 <= hr <= 19 then Busy else Quiet
  }

  /**
   * A cell of the `workingday_label` column. `Series.replace` keeps the
   * values it has no replacement for, so the column mixes labels and the
   * original integers.
   */
  datatype WorkingDay = Label(text: string) | Unchanged(code: int)

  function WorkingDayLabel(code: int): (r: WorkingDay)
    ensures r == Label("Akhir Pekan") <==> code == 0
    ensures r == Label("Hari Kerja") <==> code == 1
    ensures r == Unchanged(code) <==> code != 0 && code != 1
  {
    if code == 0 then Label("Akhir Pekan")
    else if code == 1 then Label("Hari Kerja")
    else Unchanged(code)
  }

  /** One row of the CSV file, restricted to the columns the dashboard uses. */
  datatype RawRecord = RawRecord(
    dteday: string,
    season: int,
    hr: int,
    weekday: int,
    workingday: int,
    weathersit: int,
    cnt: int)

  /** One row after `load_data`: relabelled columns and the three derived ones. */
  datatype Record = Record(
    dteday: string,
    season: Option<string>,
    hr: int,
    weekday: Option<string>,
    workingday: int,
    weathersit: Option<string>,
    cnt: int,
    month: int,
    rushHour: string,
    workingdayLabel: WorkingDay)

  /**
   * Normalises one row. `monthOf` stands for the date parser that extracts
   * the month from `dteday`.
   */
  function NormalizeRecord(raw: RawRecord, monthOf: string -> int): (r: Record)
    ensures r.dteday == raw.dteday && r.hr == raw.hr && r.cnt == raw.cnt
    ensures r.workingday == raw.workingday
    ensures r.season == SeasonLabel(raw.season) && (r.season.Some? <==> 1 <= raw.season <= 4)
    ensures r.weathersit == WeatherLabel(raw.weathersit) && (r.weathersit.Some? <==> 1 <= raw.weathersit <= 4)
    ensures r.weekday == DayLabel(raw.weekday) && (r.weekday.Some? <==> 0 <= raw.weekday <= 6)
    ensures r.workingdayLabel == WorkingDayLabel(raw.workingday)
    ensures r.month == monthOf(raw.dteday)
    ensures r.rushHour == Busy <==> 7 <= raw.hr <= 19
    ensures r.rushHour == Quiet <==> raw.hr < 7 || raw.hr > 19
  {
    Record(
      raw.dteday,
      SeasonLabel(raw.season),
      raw.hr,
      DayLabel(raw.weekday),
      raw.workingday,
      WeatherLabel(raw.weathersit),
      raw.cnt,
      monthOf(raw.dteday),
      RushHour(raw.hr),
      WorkingDayLabel(raw.workingday))
  }

  /** `load_data`: the column operations act row by row and keep the row order. */
  function LoadData(raws: seq<RawRecord>, monthOf: string -> int): (rows: seq<Record>)
    ensures |rows| == |raws|
    ensures forall i :: 0 <= i < |raws| ==> rows[i] == NormalizeRecord(raws[i], monthOf)
  {
    seq(|raws|, i requires 0 <= i < |raws| => NormalizeRecord(raws[i], monthOf))
  }

  /** A raw row whose season code is outside 1..4 gets a missing season label. */
  lemma UnmappedSeasonIsMissing(raws: seq<RawRecord>, monthOf: string -> int, i: int)
    requires 0 <= i < |raws|
    requires raws[i].season < 1 || raws[i].season > 4
    ensures LoadData(raws, monthOf)[i].season == None
    ensures LoadData(raws, monthOf)[i].cnt == raws[i].cnt
  {
  }
}
