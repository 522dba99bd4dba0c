# Bike-sharing dashboard: normalise, filter, group

A model of the data pipeline behind the bike-sharing Streamlit dashboard
(`Dashboard/dashboard.py`). The pipeline has three stages:

1. **Normalisation** (`load_data`). The season, weather and weekday codes
   are relabelled through three static dictionaries with `Series.map`, so an
   unknown code becomes a missing label. Three columns are then appended:
   `month` (from the date), `rush_hour` (`Sibuk` for hours 7 to 19, `Sepi`
   otherwise) and `workingday_label` (`Series.replace`, so values other than
   0 and 1 stay as they are).
2. **Filter**. A row is kept when its season, weather, weekday and hour
   are each in the chosen set for that column, and the rows keep their order.
3. **Group-by-sum**. The six chart tables sum `cnt` per season, per
   (season, date), per hour, per rush-hour class, per weather, and per
   (month, weather). Rows whose key is missing are dropped.

Modules:

- `Wrappers` (`wrappers.dfy`): `Option`, which stands for pandas' missing value.
- `Records` (`records.dfy`): the raw and normalised rows, the three
  dictionaries, and the derived columns.
- `RowFilter` (`row_filter.dfy`): the multiselect choices, the row mask, the
  filter, and the default choices.
- `Grouping` (`grouping.dfy`): a generic group-by-sum that folds rows into a
  `map`, the reference sum per key, and the total of a table.
- `Charts` (`charts.dfy`): the six key functions, the six tables, the whole
  pipeline (`Dashboard`), and a small worked example.

Modelling choices:

- A label column holds `Option<string>`. The multiselect options come from
  `unique()`, which includes a missing value when one occurs, and `isin`
  matches a missing value against a missing value. So the label choices are
  sets of `Option<string>` and membership is plain set membership.
- `workingday_label` is a `WorkingDay` value: `Label(text)` for 0 and 1, and
  `Unchanged(code)` for any other code.
- A group table is a `map` from key to sum. pandas calls `groupby` with
  `dropna=True` by default, so a key function returns `Option<K>` and a row
  whose key is `None` falls in no group.
- The date parser is a parameter, `monthOf: string -> int`, applied to `dteday`.
- This dashboard has no empty-result warning: it renders the charts even
  when the filtered table is empty. `NothingFilteredNoBars` states what the
  tables then hold.

## Model

| member | source | states |
|---|---|---|
| `Records.MapCode` | Dashboard/dashboard.py:18-20 | `Series.map` gives a label exactly when the code is in the dictionary, and that label is the code's own entry; any other code is missing, with no default |
| `Records.MapColumn` | Dashboard/dashboard.py:18-20 | mapping a whole column keeps its length and maps each cell on its own: a cell whose code is in the dictionary gets that code's label, every other cell is missing |
| `Records.MapColumnExample` | Dashboard/dashboard.py:18-20 | the dictionary {1: "Clear", 2: "Mist"} on the codes 1, 1, 3 gives "Clear", "Clear" and a missing label |
| `Records.SeasonLabel` | Dashboard/dashboard.py:13-18 | the season label is present exactly for codes 1 to 4 |
| `Records.WeatherLabel` | Dashboard/dashboard.py:14-19 | the weather label is present exactly for codes 1 to 4 |
| `Records.DayLabel` | Dashboard/dashboard.py:15-20 | the weekday label is present exactly for codes 0 to 6, and code 0 is "Minggu" |
| `Records.LabelsInjective` | Dashboard/dashboard.py:13-15 | in each of the three dictionaries, two codes with the same label are the same code |
| `Records.RushHour` | Dashboard/dashboard.py:24 | the label is "Sibuk" exactly when 7 <= hr <= 19, both ends inclusive, and "Sepi" exactly for every other hour |
| `Records.WorkingDayLabel` | Dashboard/dashboard.py:25 | 0 becomes "Akhir Pekan" and 1 becomes "Hari Kerja", each iff; any other code passes through unchanged |
| `Records.NormalizeRecord` | Dashboard/dashboard.py:18-25 | the copied columns are unchanged; season, weather and weekday are the codes' dictionary labels, present exactly on each dictionary's domain; the working-day label is the `replace` result; the month comes from the date; the rush-hour class follows the hour in both directions |
| `Records.LoadData` | Dashboard/dashboard.py:9-27 | the result has one row per input row, in the same order, and row i is the normalised input row i |
| `Records.UnmappedSeasonIsMissing` | Dashboard/dashboard.py:13-18 | a row whose season code is outside 1..4 keeps its count but gets a missing season label |
| `RowFilter.Keep` | Dashboard/dashboard.py:64-67 | definition of the row mask: the AND of the four `isin` tests on season, weather, weekday and hour |
| `RowFilter.Filtered` | Dashboard/dashboard.py:63-68 | a row is in the result iff it is in the input and its season, weather, weekday and hour are each in their choice sets; the result is never longer than the input |
| `RowFilter.DefaultSelection` | Dashboard/dashboard.py:36-58 | the default choices, which are all values of each column, admit every row |
| `RowFilter.KeptPositions` | Dashboard/dashboard.py:63-68 | gives strictly increasing positions of the input whose rows are, in order, the filtered rows |
| `RowFilter.FilteredIsSubsequence` | Dashboard/dashboard.py:63-68 | the filtered rows are a subsequence of the input, in the original order |
| `RowFilter.FilteredMultiplicity` | Dashboard/dashboard.py:63-68 | a row the mask keeps occurs as often as in the input; a row it rejects does not occur |
| `RowFilter.EmptyChoiceKeepsNothing` | Dashboard/dashboard.py:63-68 | an empty choice set in any one of the four multiselects leaves no row |
| `RowFilter.FilteredThroughLarger` | Dashboard/dashboard.py:63-68 | filtering first with a larger selection and then with a smaller one gives the same rows as the smaller one alone |
| `RowFilter.FilteredConcat` | Dashboard/dashboard.py:63-68 | filtering distributes over concatenation of row sequences |
| `RowFilter.FilteredMonotone` | Dashboard/dashboard.py:63-68 | enlarging the choices never removes a row: the smaller result is a subsequence of the larger, and no longer |
| `RowFilter.FilteredIdempotent` | Dashboard/dashboard.py:63-68 | filtering twice with the same choices is the same as filtering once |
| `RowFilter.FilteredAllKept` | Dashboard/dashboard.py:63-68 | when every row passes the mask, the filter returns the input unchanged |
| `RowFilter.KeepsAllIffCoversDefault` | Dashboard/dashboard.py:36-68 | the filter keeps every row iff each choice set contains every value of its column |
| `RowFilter.DefaultKeepsAll` | Dashboard/dashboard.py:36-68 | with every multiselect at its default, the filter keeps all rows |
| `Grouping.AddTo` | Dashboard/dashboard.py:90 | adding a row's count to a table opens its key if new, adds to that key's sum, and leaves all other keys alone |
| `Grouping.GroupSum` | Dashboard/dashboard.py:90 | the result is the group table of `IsGroupTable`: a key appears (once, being a map key) iff some row carries it, and its value is the sum of `cnt` over exactly the rows with that key |
| `Grouping.GroupTableUnique` | Dashboard/dashboard.py:90 | two tables that both meet the group-table description of the same rows and key are equal, so that description fixes every chart table |
| `Grouping.SumOfAbsentKey` | Dashboard/dashboard.py:90 | a key no row carries has sum zero |
| `Grouping.TotalRemove` | Dashboard/dashboard.py:90 | the total of a table is any one key's sum plus the total of the rest |
| `Grouping.TotalAddTo` | Dashboard/dashboard.py:90 | adding a count to a table adds it to the table's total |
| `Grouping.GroupTotal` | Dashboard/dashboard.py:90 | the group sums add up to the total `cnt` of the rows whose key is present |
| `Grouping.GroupTotalAllDefined` | Dashboard/dashboard.py:118 | when no row's key is missing, the group sums add up to the total `cnt` |
| `Grouping.DefinedIsAll` | Dashboard/dashboard.py:118 | when every key is present, the rows with a present key are all the rows |
| `Charts.BySeason` | Dashboard/dashboard.py:90 | definition of the key `season`; a missing season drops the row |
| `Charts.BySeasonDate` | Dashboard/dashboard.py:103 | definition of the key (`season`, `dteday`); present exactly when the season is, so a missing part drops the row |
| `Charts.ByHour` | Dashboard/dashboard.py:118 | definition of the key `hr`, always present |
| `Charts.ByRushHour` | Dashboard/dashboard.py:127 | definition of the key `rush_hour`, always present |
| `Charts.ByWeather` | Dashboard/dashboard.py:167 | definition of the key `weathersit`; a missing weather label drops the row |
| `Charts.ByMonthWeather` | Dashboard/dashboard.py:175 | definition of the key (`month`, `weathersit`); present exactly when the weather label is, so a missing part drops the row |
| `Charts.BuildCharts` | Dashboard/dashboard.py:90-175 | each of the six tables is the group table of its key over the filtered rows; the season and weather tables add up to the rows whose label is present; the hourly and rush-hour tables add up to every rental; each two-column table has the same total as its one-column partner |
| `Charts.Dashboard` | Dashboard/dashboard.py:63-127 | the charts are built from the loaded and filtered rows; each hourly bar is the `cnt` sum of the filtered rows at that hour, and they add up to all filtered rentals; the rush-hour table has only the keys "Sibuk" and "Sepi"; the "Sibuk" bar equals the sum of the hourly bars 7 to 19; the two bars together equal the hourly total |
| `Charts.LoadedRowsRushConsistent` | Dashboard/dashboard.py:24 | every filtered row's rush-hour class agrees with its hour, in both directions |
| `Charts.RushKeys` | Dashboard/dashboard.py:127 | for rows whose rush-hour class follows their hour, the rush-hour table has no key other than "Sibuk" and "Sepi" |
| `Charts.SameDefined` | Dashboard/dashboard.py:90-103 | two keys that are missing on the same rows cover the same total count |
| `Charts.BusyQuietSplit` | Dashboard/dashboard.py:127 | the "Sibuk" and "Sepi" sums together are the total count of the rows |
| `Charts.RushHourSplit` | Dashboard/dashboard.py:127 | the "Sibuk" bar plus the "Sepi" bar (an absent bar shows 0) is the total `cnt` of the filtered rows |
| `Charts.BarIsSumOfKey` | Dashboard/dashboard.py:90 | each bar of any group table is the `cnt` sum over exactly the rows with its key, and 0 when the key is absent |
| `Charts.SumOfHoursSplit` | Dashboard/dashboard.py:118 | the count over an hour range is the count at its first hour plus the count over the rest |
| `Charts.SumOfHoursEmpty` | Dashboard/dashboard.py:118 | an empty hour range has count zero |
| `Charts.HourBarsInRange` | Dashboard/dashboard.py:118 | the hourly bars for hours lo..hi add up to the count of the rows whose hour lies in lo..hi |
| `Charts.BusyIsBusyHours` | Dashboard/dashboard.py:24 | the "Sibuk" sum is the count of the rows with hours 7 to 19 |
| `Charts.BusyBarIsBusyHours` | Dashboard/dashboard.py:118-127 | the "Sibuk" bar equals the sum of the hourly bars for hours 7 to 19 |
| `Charts.NothingFilteredNoBars` | Dashboard/dashboard.py:63-175 | when no row survives the filter, all six chart tables are empty |
| `Charts.EmptyChoiceNoBars` | Dashboard/dashboard.py:63-175 | an empty choice in any multiselect leaves all six chart tables empty |
| `Charts.MappedSeasonsKeepAllRentals` | Dashboard/dashboard.py:18-118 | when every season code lies in 1..4, the season chart adds up to the same total as the hourly chart |
| `Charts.ThreeRowScenario` | Dashboard/dashboard.py:118-127 | rows at hours 8, 8 and 20 with counts 50, 30 and 10 give rush-hour totals {Sibuk: 80, Sepi: 10} and hourly totals {8: 80, 20: 10} |
| `Charts.ThreeRowTables` | Dashboard/dashboard.py:118-127 | the same two tables for any three rows with those hours, classes and counts |
| `Charts.ThreeRowRush` | Dashboard/dashboard.py:127 | the rush-hour table of the three scenario rows |
| `Charts.ThreeRowHours` | Dashboard/dashboard.py:118 | the hourly table of the three scenario rows |

## Left out

- CSV reading and `@st.cache_data` (Dashboard/dashboard.py:8-10): file I/O and a framework cache. The model starts from a sequence of raw rows.
- Date parsing with `pd.to_datetime(...).dt.month` (Dashboard/dashboard.py:23): a library parse, taken as the parameter `monthOf`.
- Columns of the CSV that the dashboard never reads (casual, registered, temperature and so on): they pass through untouched and are not part of the row datatypes.
- Sidebar widgets (Dashboard/dashboard.py:35-58): the selections are plain sets. `DefaultSelection` models the defaults. The widgets' rule that a choice must be one of the options is not imposed, because the filter does not depend on it.
- The raw-data expander and all chart rendering (Dashboard/dashboard.py:73-188): Streamlit and Plotly presentation.
- The two box plots (Dashboard/dashboard.py:141-159): their quartiles are computed inside Plotly in floating point. `workingday_label`, which only they use, is still modelled.
- Output order and the `reset_index` table shape of `groupby`: pandas sorts the keys. The model gives each table as a map.
- Integer width: `cnt` sums are unbounded integers, so pandas' 64-bit sums are modelled only where they do not overflow.
