# Global Macro Dashboard — signal rules and key/value sheet, in Dafny

The dashboard (`app.py`) keeps fourteen macro indicators in a spreadsheet and
turns the current values into a table of "signals". Each signal says what it
implies and which assets it favours or presses on. This project models the
logic of that script:

- **The signal rules** (`rules.dfy`, `signal_board.dfy`). There are ten
  threshold groups: inflation, 10-year yield, PMI, unemployment, dollar
  index, Fed funds rate, debt-to-GDP, M2 growth, repo rate and margin debt.
  They run in a fixed order. Each group emits at most one signal and the
  inflation group always emits exactly one. `add_signal` appends one display
  row to the module-level `signals` list. Its favoured and unfavoured columns
  are the asset lists joined with `", "`.
  - `Rules` defines, per group, the pure function selecting its signal. It
    also defines the whole evaluation, `Evaluate`, as a specification.
  - `SignalBoard.Board` is the mutable `signals` list. Its methods run the
    source's `if`/`elif` chains group by group. `RunRules` is proved to
    leave exactly the rows of `Evaluate(s)`.
  - `Scenarios` works two concrete snapshots through the whole evaluation.
- **The key/value sheet** (`sheet_store.dfy`). The sheet's data rows are
  `(key, value)` pairs below one header row.
  - `values_dict` loads them into a dictionary in which the last row with a
    key wins. `get_value` looks a name up there, with a default.
  - `set_value` scans the key column for the first row holding the name. It
    rewrites that row's value cell (sheet row = index + 2). Otherwise it
    appends a row.
  - The spreadsheet is an in-memory row list, the class `SheetStore.Sheet`.
    Its `SetValue` is proved equal to a recursive reference definition,
    `Upsert`. The lemmas then state what the update does: the row count, the
    key column, other keys, uniqueness of keys, and reading back after a save.

Indicators are `real`. The rules only compare them against decimal constants.
Signals are an enumeration `Rules.Kind`. `SignalBoard.Text` holds each
signal's exact name, note and asset lists as the rules pass them. Several
display labels name a strict bound where the code compares non-strictly:

- "PMI > 52" fires at `pmi >= 52.0`;
- "ว่างงานสูง (>4.5%)" fires at `unemp >= 4.5`;
- "ดอลลาร์แข็ง (>105)" fires at `dxy >= 105.0`;
- "ดอลลาร์อ่อน (<100)" fires at `dxy <= 100.0`.

The model follows the comparisons as written.

## Model

| member | source | states |
|---|---|---|
| Rules.Max | app.py:77 | `max(core_pce, core_cpi)` is at least both arguments and equal to one of them |
| Rules.InflationSignal | app.py:76-83 | inflation always emits one signal of its group: high iff either rate > 3.0, low iff both < 1.5, Goldilocks iff both <= 3.0 and one >= 1.5 |
| Rules.TenYearSignal | app.py:85-99 | spike iff 10Y > 4.5, low iff < 3.5, nothing iff 3.5 <= 10Y <= 4.5 |
| Rules.PmiSignal | app.py:101-115 | contraction iff PMI < 50, expansion iff PMI >= 52, nothing iff 50 <= PMI < 52 |
| Rules.UnemploymentSignal | app.py:117-131 | tight labour iff 3.0 <= unemployment <= 3.5, high iff >= 4.5, nothing iff < 3.0 or strictly between 3.5 and 4.5 |
| Rules.DollarSignal | app.py:133-147 | strong iff DXY >= 105, weak iff DXY <= 100, nothing iff strictly between |
| Rules.FedFundsSignal | app.py:149-153 | high iff rate > 5, low iff rate < 2, nothing iff 2 <= rate <= 5 |
| Rules.DebtSignal | app.py:155-159 | high iff debt/GDP > 120, low iff < 80, nothing iff 80 <= debt/GDP <= 120 |
| Rules.M2Signal | app.py:161-165 | boom iff M2 growth > 10, negative iff < 0, nothing iff 0 <= M2 <= 10 |
| Rules.RepoSignal | app.py:167-169 | spike iff repo > 8, nothing otherwise (the group has no low branch) |
| Rules.MarginSignal | app.py:171-175 | high iff margin debt > 1000, low iff < 500, nothing iff 500 <= margin <= 1000 |
| Rules.GroupSignal | app.py:76-175 | a group emits at most one signal, always one of its own, and the inflation group always emits |
| Rules.GroupIndex | app.py:76-175 | each group has a position in the order the rules section runs them |
| Rules.FiredShape | app.py:76-175 | the first n groups emit at most n signals; with n > 0 the first is the inflation signal; signals come in group order; a signal is present iff its group is among the first n and selects it |
| Rules.EvaluateShape | app.py:65-175 | one evaluation yields 1 to 10 signals, inflation first, ordered by group, at most one per group, and a signal iff its group's rule selects it |
| Scenarios.QuietScenario | app.py:76-175 | core PCE 2.0 / CPI 2.2, 10Y 4.0, Fed 5.25, PMI 50, unemployment 3.8, DXY 103, debt 120, M2 2, repo 5, margin 900 yield exactly [Goldilocks, Fed rate > 5%] (boundary values 50 and 120 stay silent) |
| Scenarios.EveryGroupScenario | app.py:76-175 | a snapshot beyond every threshold yields ten signals, one per group, in group order |
| SignalBoard.MakeRow | app.py:68-74 | the row carries the name and note, the favoured column is the assets joined with ", ", and the unfavoured column is the join of the unfavoured list, "" when it is None or empty |
| SignalBoard.Join | app.py:72-73 | `", ".join(parts)`: "" for no parts; otherwise it starts with the first part, and its length is the parts' total length plus one separator per neighbouring pair |
| SignalBoard.Text | app.py:76-175 | the name, note, favoured and unfavoured lists one `add_signal` call of the rules passes for each of the twenty signals |
| SignalBoard.Name | app.py:76-175 | the signal column text of each of the twenty `add_signal` calls |
| SignalBoard.Note | app.py:76-175 | the implication column text of each of the twenty `add_signal` calls |
| SignalBoard.Favored | app.py:76-175 | the favoured assets of each call; the list is empty exactly for "Margin Debt >1T" (app.py:173) |
| SignalBoard.Unfavored | app.py:76-175 | the unfavoured assets of each call; the list is non-empty exactly for high inflation, 10Y spike, PMI contraction, strong dollar, high Fed rate, repo spike and high margin debt |
| SignalBoard.Board.constructor | app.py:66 | the signal list starts empty |
| SignalBoard.Board.AddSignal | app.py:68-74 | `add_signal` appends exactly one row, built as `MakeRow` states, and keeps every earlier row |
| SignalBoard.Board.Emit | app.py:76-175 | one `add_signal` call of the rules appends the row of that signal's texts |
| SignalBoard.Board.RunInflationRule | app.py:76-83 | appends the one row of the inflation signal for `max(core_pce, core_cpi)`; the list is then the rows of the first group's evaluation |
| SignalBoard.Board.RunTenYearRule | app.py:85-99 | appends the 10Y group's row, if any; the list is then the rows of the first two groups |
| SignalBoard.Board.RunPmiRule | app.py:101-115 | appends the PMI group's row, if any; the list then matches the first three groups |
| SignalBoard.Board.RunUnemploymentRule | app.py:117-131 | appends the unemployment group's row, if any; the list then matches the first four groups |
| SignalBoard.Board.RunDollarRule | app.py:133-147 | appends the DXY group's row, if any; the list then matches the first five groups |
| SignalBoard.Board.RunFedFundsRule | app.py:149-153 | appends the Fed funds group's row, if any; the list then matches the first six groups |
| SignalBoard.Board.RunDebtRule | app.py:155-159 | appends the debt/GDP group's row, if any; the list then matches the first seven groups |
| SignalBoard.Board.RunM2Rule | app.py:161-165 | appends the M2 group's row, if any; the list then matches the first eight groups |
| SignalBoard.Board.RunRepoRule | app.py:167-169 | appends the repo group's row, if any; the list then matches the first nine groups |
| SignalBoard.Board.RunMarginRule | app.py:171-175 | appends the margin group's row, if any; the list then holds the rows of all ten groups |
| SignalBoard.Board.RunRules | app.py:65-175 | starting from an empty list, the rules section leaves exactly the rows of `Evaluate(s)`, in order |
| SheetStore.Keys | app.py:33 | the key column has one entry per row, the key of that row |
| SheetStore.ValuesDict | app.py:24-25 | `values_dict` built from the rows, later rows overwriting earlier ones: it holds a key exactly when some row has it |
| SheetStore.GetValue | app.py:27-28 | `values_dict.get(name, default)`: the stored value when the key is present, the default otherwise |
| SheetStore.GetValueOfRecords | app.py:24-28 | after loading the rows, `get_value` returns the default for a key no row has, and otherwise the value of the last row with the key |
| SheetStore.IndexOf | app.py:34-35 | `name in keys` / `keys.index(name)`: None iff the key is absent, otherwise the index of its first occurrence |
| SheetStore.UpsertPresent | app.py:34-36 | when the key is present, set_value rewrites the value of its first row and nothing else |
| SheetStore.UpsertAbsent | app.py:37-38 | when the key is absent, set_value appends `[name, val]` after all existing rows |
| SheetStore.UpsertEffect | app.py:30-38 | the row count grows by one iff the key was absent, a row holds `[name, val]` afterwards, and rows with other keys are unchanged |
| SheetStore.UpsertKeys | app.py:30-38 | the key column is unchanged when the key was present and gains `name` at the end otherwise |
| SheetStore.UpsertKeepsKeysUnique | app.py:30-38 | set_value never creates a second row for a key |
| SheetStore.UpsertKeepsOtherValues | app.py:24-38 | after set_value, every other key loads the same value (or the same default) as before |
| SheetStore.UpsertThenGet | app.py:24-38 | with unique keys, loading after `set_value(name, val)` makes `get_value(name, d)` return `val` |
| SheetStore.DuplicateKeyHidesUpdate | app.py:24-38 | when the key sits in two rows, set_value writes the first of them, so the reload still returns the old value of the last duplicate |
| SheetStore.Sheet.constructor | app.py:21-24 | the sheet holds the given data rows |
| SheetStore.Sheet.UpdateValueCell | app.py:36 | `update_cell(row, 2, val)` sets the value of data row `row - 2` and keeps its key and every other row |
| SheetStore.Sheet.AppendRow | app.py:38 | `append_row([name, val])` adds one row at the end |
| SheetStore.Sheet.SetValue | app.py:30-38 | the rows after `set_value(name, val)` are `Upsert(rows, name, val)`, whose properties the Upsert lemmas state |

## Left out

- Google service-account credentials, `gspread` and the spreadsheet service (app.py:1-21) are not modelled. The sheet is an in-memory row list, and `get_all_records` reads that list.
- The Streamlit page, its input form (elided in the source at app.py:45) and the save button's fourteen `set_value` calls (app.py:48-63) are not modelled. The snapshot is a parameter, so the form's default values do not appear.
- Where a duplicate key comes from is not modelled. `set_value` never creates one (`UpsertKeepsKeysUnique`). A hand-edited sheet can hold one. So can two sessions saving the same new key at once, because `set_value` reads the rows and then appends (app.py:32-38), and the two steps are not atomic. Concurrent sessions are not modelled.
- `values_dict` is loaded once, when the script starts (app.py:24-25). A `get_value` later in the same run does not see that run's saves. `UpsertThenGet` states the value the next run's load gives.
- `float(row["value"])` conversion, NaN and floating-point rounding are not modelled. Values are `real` and thresholds are exact decimals.
- The display of the signal table (`pd.DataFrame`, app.py:177-179) and the historical reference table `hist_rows` with its notes (app.py:181-204) are not modelled.
- The rules section is one straight-line script. Its split into one `Run…Rule` method per group is structural only: the branches and the order are the source's.
