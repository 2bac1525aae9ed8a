# Event budget planner — a Dafny model of the planning service

This project models the core of the event budget planner: the `EventPlannerService`, which
keeps every event in an in-memory cache, hydrates that cache from a data store once, appends
events, budget items and staff assignments, saves the whole cache after every change, and
computes per-event and portfolio budget summaries. It also models `ConsoleTable`, the
command-line renderer that lays out rows of text in aligned columns.

Modules, one per concern of the source:

- `Common` — `Option`.
- `Text` — the .NET string operations the service relies on: `char.IsWhiteSpace`,
  `string.IsNullOrWhiteSpace`, `Trim` and `ToUpperInvariant`.
- `Money` — `decimal` values as a mantissa and a scale. `decimal.Round(x, 2)` is
  `RoundToHundredths`, which rounds half to even.
- `Models` — the `EventPlan`, `BudgetItem` and `StaffAssignment` entities and the summary
  records. `BudgetStatus` is the enum's underlying 32-bit integer with `Planned`, `Committed`
  and `Paid` as named constants, since the service stores whatever status value it is given. `EventPlan` is a class, because the service appends to its lists in place.
  Budget items and staff assignments are values.
- `Persistence` — the data store (load and save the whole list) and the identifier source.
- `Summaries` — `Sum`, `BuildEventSummary` and `BuildPortfolioSummary`, with their laws.
- `Planner` — the service as a class. It holds the cache (`seq<EventPlan>`), the
  `initialized` flag, the store and the identifier source. Every public operation is a method
  whose contract gives the new cache contents (`Events()`) and the saved contents
  (`store.items`) as functions of the old ones. The ghost `Loaded()` is what the cache holds
  once hydrated: itself after the first operation, the store's contents before it.
- `ConsoleTable` — the renderer, writing to a `Console` that records finished lines and the
  line in progress. Its texts are .NET strings, sequences of UTF-16 code units (`NetString`),
  so widths and padding count code units as `string.Length` and `PadRight` do: a character
  above U+FFFF is two units wide (`Encode`, `WideCharacterWidth`).
- `Scenarios` — the repository's worked examples, stated over the functions the service's
  contracts name: `WithBudgetItem` and `WithStaffAssignment` at `FirstIndex` of the event.

Units: money is kept in cents (every stored amount has been rounded to two places). Hours are
kept in hundredths of an hour. A staff cost, rate times hours, is therefore in ten-thousandths
of a currency unit, and summaries report every amount in ten-thousandths.

Behaviour worth knowing, all taken from the code:

- `CreateEventAsync` returns the very object it put in the cache, while `ListEventsAsync` and
  `GetEventAsync` return deep copies. `CreateEvent` says so: `r.value` is the last element of
  the cache.
- The currency is trimmed and upper-cased, or `"USD"` when blank. Nothing checks that it is
  three letters, although that is the documented intent. The model proves only what the code
  does: the result is non-empty, has no white space at either end and has no lower-case ASCII
  letter.
- Validation happens before rounding. An amount such as 0.004 passes the "must be positive"
  check and is stored as 0.00 (`RoundToHundredthsExamples`).
- The event-not-found error is raised after hydration. A failed lookup therefore still leaves
  the cache loaded.
- `RequireEvent` and `GetEventAsync` use the first event with the identifier (`FirstIndex`).
- Planned and committed items never reduce the remaining budget; only paid items and staff
  costs do (`SummaryAfterBudgetItem`).

## Model

| member | source | states |
|---|---|---|
| `Text.TrimStart` | src/EventBudgetPlanner.Core/Services/EventPlannerService.cs:41 | the result is a suffix of the input, every character dropped is white space, and the result does not start with white space |
| `Text.TrimEnd` | src/EventBudgetPlanner.Core/Services/EventPlannerService.cs:41 | the result is a prefix of the input, every character dropped is white space, and the result does not end with white space |
| `Text.IsWhiteSpace` | src/EventBudgetPlanner.Core/Services/EventPlannerService.cs:41-45 | `char.IsWhiteSpace`, which `Trim` and `string.IsNullOrWhiteSpace` test: the control characters U+0009..U+000D, U+0085, the space separators, and the line and paragraph separators |
| `Text.IsNullOrWhiteSpace` | src/EventBudgetPlanner.Core/Services/EventPlannerService.cs:23 | `string.IsNullOrWhiteSpace`: null, or every character white space (so also "") |
| `Text.Trim` | src/EventBudgetPlanner.Core/Services/EventPlannerService.cs:41 | trimming never lengthens; the result is empty exactly when the input is blank, and otherwise starts and ends with a non-white-space character; which characters are kept is `TrimKeepsInfix` |
| `Text.TrimKeepsInfix` | src/EventBudgetPlanner.Core/Services/EventPlannerService.cs:41 | the trim is exactly the infix of the input between a blank prefix and a blank suffix |
| `Text.TrimOfEmpty` | src/EventBudgetPlanner.Core/Services/EventPlannerService.cs:41 | the trim of "" is "" |
| `Text.TrimOfTrimmed` | src/EventBudgetPlanner.Core/Services/EventPlannerService.cs:41 | a string with non-white-space ends is its own trim |
| `Text.TrimIdempotent` | src/EventBudgetPlanner.Core/Services/EventPlannerService.cs:41 | trimming twice is trimming once |
| `Text.UpperChar` | src/EventBudgetPlanner.Core/Services/EventPlannerService.cs:45 | each of a..z goes to its own capital (32 code points lower) and every other character is kept; the result is never a lower-case ASCII letter, and white space is preserved both ways |
| `Text.ToUpperInvariant` | src/EventBudgetPlanner.Core/Services/EventPlannerService.cs:45 | the result has the input's length and is upper-cased character by character |
| `Text.TrimOrEmpty` | src/EventBudgetPlanner.Core/Services/EventPlannerService.cs:43 | `venue?.Trim() ?? string.Empty`: null gives "", otherwise the trim, which never has white space at either end |
| `Text.TrimOrDefault` | src/EventBudgetPlanner.Core/Services/EventPlannerService.cs:102 | a null or blank input gives the fallback; otherwise the trim, which is non-empty with non-white-space ends |
| `Money.RoundHalfEven` | src/EventBudgetPlanner.Core/Services/EventPlannerService.cs:44 | rounds `m / unit` down below the midpoint and up above it; on a tie it picks the even neighbour |
| `Money.RoundHalfEvenIsNearest` | src/EventBudgetPlanner.Core/Services/EventPlannerService.cs:44 | the rounded value is within half a unit of the exact value |
| `Money.RoundToHundredths` | src/EventBudgetPlanner.Core/Services/EventPlannerService.cs:44 | `decimal.Round(x, 2)` in cents: an amount with at most two decimals scaled to cents, otherwise rounded half to even at the second decimal (laws below) |
| `Money.RoundToHundredthsOfPositive` | src/EventBudgetPlanner.Core/Services/EventPlannerService.cs:44 | rounding a positive amount to two places never gives a negative amount |
| `Money.RoundToHundredthsExact` | src/EventBudgetPlanner.Core/Services/EventPlannerService.cs:44 | an amount with at most two decimal places is kept exactly |
| `Money.RoundToHundredthsExamples` | src/EventBudgetPlanner.Core/Services/EventPlannerService.cs:104 | 0.004 is positive yet rounds to 0.00; 0.125 rounds to 0.12 and 0.135 to 0.14 (half to even); 12000 is kept |
| `Models.DefaultBudgetItem` | src/EventBudgetPlanner.Core/Models/BudgetItem.cs:5-9 | a new item has the empty identifier, empty texts, amount 0 and status Planned |
| `Models.CopyBudgetItem` | src/EventBudgetPlanner.Core/Services/EventPlannerService.cs:249-256 | the clone of an item equals it in every field |
| `Models.DefaultStaffAssignment` | src/EventBudgetPlanner.Core/Models/StaffAssignment.cs:5-9 | a new assignment has the empty identifier, empty texts, rate 0 and hours 0 |
| `Models.CopyStaffAssignment` | src/EventBudgetPlanner.Core/Services/EventPlannerService.cs:257-264 | the clone of an assignment equals it in every field |
| `Models.StaffAssignment.TotalCost` | src/EventBudgetPlanner.Core/Models/StaffAssignment.cs:11 | the rate times the hours, derived and never stored (its sign is `TotalCostSign`) |
| `Models.TotalCostSign` | src/EventBudgetPlanner.Core/Models/StaffAssignment.cs:11 | `TotalCost` is positive for a positive rate and positive hours, zero when either is zero, and never negative for non-negative inputs |
| `Models.EventPlan.constructor` | src/EventBudgetPlanner.Core/Models/EventPlan.cs:5-12 | a new event has the empty identifier, empty name and venue, date 0001-01-01, budget 0, currency "USD" and no items or staff |
| `Models.EventPlan.FromData` | src/EventBudgetPlanner.Core/Services/EventPlannerService.cs:38-46 | an object initialiser setting every property gives an event with exactly those values |
| `Persistence.DataStore.Load` | src/EventBudgetPlanner.Core/Persistence/IDataStore.cs:7 | loading gives new, pairwise distinct event objects whose values are the stored ones, in order |
| `Persistence.DataStore.Save` | src/EventBudgetPlanner.Core/Persistence/IDataStore.cs:8 | saving replaces the stored contents with the values of the given events |
| `Persistence.SaveThenLoad` | tests/EventBudgetPlanner.Tests/EventPlannerServiceTests.cs:118-133 | saving and loading back gives new objects equal in every field, nested lists included |
| `Persistence.IdProvider.Create` | src/EventBudgetPlanner.Core/Abstractions/SystemGuidProvider.cs:5 | returns the next identifier of the source's sequence and advances it by one |
| `Summaries.Sum` | src/EventBudgetPlanner.Core/Services/EventPlannerService.cs:238-239 | the cents of the items with the given status, added in order (laws below) |
| `Summaries.SumOfOne` | src/EventBudgetPlanner.Core/Services/EventPlannerService.cs:238-239 | a single item counts towards its own status only |
| `Summaries.SumConcat` | src/EventBudgetPlanner.Core/Services/EventPlannerService.cs:238-239 | the per-status sum distributes over concatenation |
| `Summaries.StatusTotalsPartition` | src/EventBudgetPlanner.Core/Services/EventPlannerService.cs:161-166 | planned, committed and paid totals, plus the items whose status is none of the three, add up to the amount of all the items |
| `Summaries.NamedStatusTotals` | src/EventBudgetPlanner.Core/Services/EventPlannerService.cs:161-166 | when every item's status is a named one, the three totals alone add up to the amount of all the items |
| `Summaries.UnnamedStatusUncounted` | src/EventBudgetPlanner.Core/Services/EventPlannerService.cs:238-239 | an item with an unnamed status, such as `(BudgetStatus)3`, counts towards none of the three totals |
| `Summaries.SumOfAbsentStatus` | src/EventBudgetPlanner.Core/Services/EventPlannerService.cs:238-239 | a status that no item has totals zero |
| `Summaries.SumNonNegative` | src/EventBudgetPlanner.Core/Services/EventPlannerService.cs:238-239 | items with non-negative amounts give non-negative totals |
| `Summaries.StaffCost` | src/EventBudgetPlanner.Core/Services/EventPlannerService.cs:168 | the sum of every assignment's `TotalCost` (laws below) |
| `Summaries.StaffCostOfOne` | src/EventBudgetPlanner.Core/Services/EventPlannerService.cs:168 | one assignment costs its rate times its hours |
| `Summaries.StaffCostNonNegative` | src/EventBudgetPlanner.Core/Services/EventPlannerService.cs:168 | non-negative rates and hours give a non-negative staff cost |
| `Summaries.BuildEventSummary` | src/EventBudgetPlanner.Core/Services/EventPlannerService.cs:154-184 | the summary carries the event's identifier, name and target; its planned, committed and paid totals are `Sum` of the items of that status and its staff cost is `StaffCost` of the staff; remaining is the target less paid items and staff cost; over budget exactly when remaining is negative |
| `Summaries.SummaryAfterBudgetItem` | src/EventBudgetPlanner.Core/Services/EventPlannerService.cs:160-172 | appending an item raises only its own status total, by its amount; remaining falls by that amount only if the item is paid |
| `Summaries.SummaryAfterStaffAssignment` | src/EventBudgetPlanner.Core/Services/EventPlannerService.cs:168-170 | appending an assignment raises the staff cost by its total cost and lowers remaining by the same amount; item totals are unchanged |
| `Summaries.RemainingAtMostTarget` | src/EventBudgetPlanner.Core/Services/EventPlannerService.cs:168-170 | with non-negative amounts, rates and hours, remaining never exceeds the target |
| `Summaries.EventSummaries` | src/EventBudgetPlanner.Core/Services/EventPlannerService.cs:190 | one summary per event, in order |
| `Summaries.TotalTargetBudget` | src/EventBudgetPlanner.Core/Services/EventPlannerService.cs:195 | the events' targets added in order, in ten-thousandths |
| `Summaries.CountOverBudget` | src/EventBudgetPlanner.Core/Services/EventPlannerService.cs:200 | the number of positions holding an over-budget summary, so at most the number of summaries |
| `Summaries.BuildPortfolioSummary` | src/EventBudgetPlanner.Core/Services/EventPlannerService.cs:186-202 | the event count is the number of events, and the over-budget count is the number of events whose own summary is over budget; the totals are stated by the laws below |
| `Summaries.PortfolioOfNone` | src/EventBudgetPlanner.Core/Services/EventPlannerService.cs:186-202 | the portfolio of no events is all zeros |
| `Summaries.PortfolioAppend` | src/EventBudgetPlanner.Core/Services/EventPlannerService.cs:186-202 | one more event adds its own summary's figures to every portfolio total |
| `Summaries.PortfolioOfOne` | src/EventBudgetPlanner.Core/Services/EventPlannerService.cs:186-202 | a one-event portfolio has that event's figures |
| `Summaries.PortfolioConcat` | src/EventBudgetPlanner.Core/Services/EventPlannerService.cs:186-202 | portfolio summaries are additive over concatenated event lists |
| `Planner.FirstIndex` | src/EventBudgetPlanner.Core/Services/EventPlannerService.cs:78 | the position of the first event with the identifier, or -1 exactly when no event has it |
| `Planner.NormalizeCurrency` | src/EventBudgetPlanner.Core/Services/EventPlannerService.cs:45 | "USD" for a null or blank currency, otherwise the trimmed, upper-cased code; never empty, no white space at either end, no lower-case ASCII letter |
| `Planner.WithBudgetItem` | src/EventBudgetPlanner.Core/Services/EventPlannerService.cs:108 | only event `k` changes, and only by one item appended at the end of its items |
| `Planner.WithStaffAssignment` | src/EventBudgetPlanner.Core/Services/EventPlannerService.cs:144 | only event `k` changes, and only by one assignment appended at the end of its staff |
| `Planner.EventPlannerService.constructor` | src/EventBudgetPlanner.Core/Services/EventPlannerService.cs:15-19 | a new service holds the given store and identifier source, an empty cache, and is not yet hydrated |
| `Planner.EventPlannerService.EnsureInitialized` | src/EventBudgetPlanner.Core/Services/EventPlannerService.cs:210-220 | the first call loads the store's contents into new objects; later calls leave the cache as it is |
| `Planner.EventPlannerService.Persist` | src/EventBudgetPlanner.Core/Services/EventPlannerService.cs:222-225 | the store then holds exactly the cache's values, and the cache is untouched |
| `Planner.EventPlannerService.FirstOrDefault` | src/EventBudgetPlanner.Core/Services/EventPlannerService.cs:78 | the loop finds nothing exactly when no cached event has the identifier, and otherwise the first one that does |
| `Planner.EventPlannerService.RequireEvent` | src/EventBudgetPlanner.Core/Services/EventPlannerService.cs:227-236 | the cached object of the first event with the identifier, or an event-not-found error exactly when there is none |
| `Planner.EventPlannerService.CloneEvent` | src/EventBudgetPlanner.Core/Services/EventPlannerService.cs:241-265 | a new object equal to the source in every field, lists included |
| `Planner.EventPlannerService.NewEventPlan` | src/EventBudgetPlanner.Core/Services/EventPlannerService.cs:38-46 | a new event with the next identifier, trimmed name and venue, the budget rounded to two places, the normalised currency and no items or staff |
| `Planner.EventPlannerService.AppendEvent` | src/EventBudgetPlanner.Core/Services/EventPlannerService.cs:48-49 | the event is appended to the cache, which stays free of duplicates, and the cache is saved |
| `Planner.EventPlannerService.NewBudgetItem` | src/EventBudgetPlanner.Core/Services/EventPlannerService.cs:99-106 | an item with the next identifier, category defaulting to "General", the trimmed description and the amount rounded to two places |
| `Planner.EventPlannerService.NewStaffAssignment` | src/EventBudgetPlanner.Core/Services/EventPlannerService.cs:135-142 | an assignment with the next identifier, name defaulting to "Unassigned", the trimmed role, and rate and hours rounded to two places |
| `Planner.EventPlannerService.AppendBudgetItem` | src/EventBudgetPlanner.Core/Services/EventPlannerService.cs:108-109 | the cache becomes `WithBudgetItem` of itself at that event, and is saved |
| `Planner.EventPlannerService.AppendStaffAssignment` | src/EventBudgetPlanner.Core/Services/EventPlannerService.cs:144-145 | the cache becomes `WithStaffAssignment` of itself at that event, and is saved |
| `Planner.EventPlannerService.AddNewEvent` | src/EventBudgetPlanner.Core/Services/EventPlannerService.cs:38-50 | after hydration: one new event appended with the normalised fields, saved, and one identifier used |
| `Planner.EventPlannerService.AddBudgetItemToCache` | src/EventBudgetPlanner.Core/Services/EventPlannerService.cs:98-110 | after hydration: not found exactly when no cached event has the identifier, leaving cache, store and identifiers alone; otherwise the item is appended to the first such event and saved |
| `Planner.EventPlannerService.AddStaffAssignmentToCache` | src/EventBudgetPlanner.Core/Services/EventPlannerService.cs:134-146 | after hydration: not found exactly when no cached event has the identifier; otherwise the assignment is appended to the first such event and saved |
| `Planner.EventPlannerService.CreateEvent` | src/EventBudgetPlanner.Core/Services/EventPlannerService.cs:21-56 | fails exactly for a blank name (first) or a non-positive budget, changing nothing; otherwise the hydrated events gain one new event with the normalised fields, which is saved, and the cached object itself is returned |
| `Planner.EventPlannerService.ListEvents` | src/EventBudgetPlanner.Core/Services/EventPlannerService.cs:58-70 | after hydration, new distinct objects equal to the cached events in order, none of them a cached object |
| `Planner.EventPlannerService.GetEvent` | src/EventBudgetPlanner.Core/Services/EventPlannerService.cs:72-85 | after hydration, nothing exactly when no event has the identifier, otherwise a new copy of the first that does |
| `Planner.EventPlannerService.GetEventSummary` | src/EventBudgetPlanner.Core/Services/EventPlannerService.cs:204-208 | nothing exactly when no event has the identifier, otherwise the summary of the first that does |
| `Planner.EventPlannerService.AddBudgetItem` | src/EventBudgetPlanner.Core/Services/EventPlannerService.cs:87-116 | a non-positive amount fails before anything changes; a missing event fails after hydration with nothing saved; otherwise the hydrated events become `WithBudgetItem` at the first matching event, are saved, and the new item is returned |
| `Planner.EventPlannerService.AddStaffAssignment` | src/EventBudgetPlanner.Core/Services/EventPlannerService.cs:118-152 | a non-positive rate (first) or hours fails before anything changes; a missing event fails after hydration; otherwise `WithStaffAssignment` at the first matching event, saved, and the new assignment is returned |
| `ConsoleTable.EncodeChar` | src/EventBudgetPlanner.Cli/Formatting/ConsoleTable.cs:9 | one code unit equal to the character below U+10000; otherwise two, a high then a low surrogate, from which the character is recovered |
| `ConsoleTable.Encode` | src/EventBudgetPlanner.Cli/Formatting/ConsoleTable.cs:9 | a text's .NET `Length`: one unit per character plus one per character above U+FFFF |
| `ConsoleTable.Console.Write` | src/EventBudgetPlanner.Cli/Formatting/ConsoleTable.cs:26 | the text is added to the current line |
| `ConsoleTable.Console.WriteLine` | src/EventBudgetPlanner.Cli/Formatting/ConsoleTable.cs:33 | the current line is finished and a new empty one begun |
| `ConsoleTable.CellLength` | src/EventBudgetPlanner.Cli/Formatting/ConsoleTable.cs:9 | `index < r.Length ? r[index].Length : 0` |
| `ConsoleTable.CellLengthMeasuresCell` | src/EventBudgetPlanner.Cli/Formatting/ConsoleTable.cs:9 | the length measured for a column entry is that of the cell `WriteRow` pads there |
| `ConsoleTable.MaxCellLength` | src/EventBudgetPlanner.Cli/Formatting/ConsoleTable.cs:9 | at least every row's cell length in that column (a missing cell counts 0), and equal to one of them or 0 |
| `ConsoleTable.ColumnWidths` | src/EventBudgetPlanner.Cli/Formatting/ConsoleTable.cs:8-10 | one width per header; each is at least its header and every cell of its column, and equals one of them; with no rows the widths are the header lengths |
| `ConsoleTable.PadRight` | src/EventBudgetPlanner.Cli/Formatting/ConsoleTable.cs:26 | the text, never cut short, padded to the width |
| `ConsoleTable.PadRightAddsSpaces` | src/EventBudgetPlanner.Cli/Formatting/ConsoleTable.cs:26 | what padding adds is spaces only |
| `ConsoleTable.Dashes` | src/EventBudgetPlanner.Cli/Formatting/ConsoleTable.cs:40 | `n` dashes |
| `ConsoleTable.Cell` | src/EventBudgetPlanner.Cli/Formatting/ConsoleTable.cs:25 | `i < row.Count ? row[i] : string.Empty` |
| `ConsoleTable.CellText` | src/EventBudgetPlanner.Cli/Formatting/ConsoleTable.cs:26-30 | a space, the cell padded to the width, a space, then `|` unless it is the last column |
| `ConsoleTable.DashText` | src/EventBudgetPlanner.Cli/Formatting/ConsoleTable.cs:40-44 | a space, the width in dashes, a space, then `+` unless it is the last column |
| `ConsoleTable.CellTextShape` | src/EventBudgetPlanner.Cli/Formatting/ConsoleTable.cs:25-30 | a fitting cell occupies its width plus two spaces, followed by a `|` unless it is the last column |
| `ConsoleTable.DashTextShape` | src/EventBudgetPlanner.Cli/Formatting/ConsoleTable.cs:40-44 | a separator column occupies its width in dashes plus two spaces, followed by a `+` unless it is the last |
| `ConsoleTable.TableLines` | src/EventBudgetPlanner.Cli/Formatting/ConsoleTable.cs:12-18 | a table has one line for the headers, one separator line and one line per row, so two more lines than rows |
| `ConsoleTable.RowLines` | src/EventBudgetPlanner.Cli/Formatting/ConsoleTable.cs:15-18 | one line per row |
| `ConsoleTable.TableLinesInOrder` | src/EventBudgetPlanner.Cli/Formatting/ConsoleTable.cs:12-18 | line 0 of a table is the header row's line, line 1 the separator, and line `k + 2` the line of row `k`, in the rows' order |
| `ConsoleTable.WriteRow` | src/EventBudgetPlanner.Cli/Formatting/ConsoleTable.cs:21-34 | the loop writes exactly the row's line and ends it |
| `ConsoleTable.WriteSeparator` | src/EventBudgetPlanner.Cli/Formatting/ConsoleTable.cs:36-48 | the loop writes exactly the separator line and ends it |
| `ConsoleTable.WriteRows` | src/EventBudgetPlanner.Cli/Formatting/ConsoleTable.cs:15-18 | the console receives exactly `RowLines`, one line per row in the rows' order |
| `ConsoleTable.Render` | src/EventBudgetPlanner.Cli/Formatting/ConsoleTable.cs:5-19 | the console receives exactly the table's lines, the first continuing whatever was already on the current line |
| `ConsoleTable.RowTextLength` | src/EventBudgetPlanner.Cli/Formatting/ConsoleTable.cs:23-31 | after `i` fitting columns a row line has reached column `i`'s offset (less the separator after the last) |
| `ConsoleTable.SeparatorTextLength` | src/EventBudgetPlanner.Cli/Formatting/ConsoleTable.cs:38-45 | the same for the separator line |
| `ConsoleTable.RowLineWidth` | src/EventBudgetPlanner.Cli/Formatting/ConsoleTable.cs:21-34 | a row whose cells fit is exactly `LineWidth` long |
| `ConsoleTable.SeparatorLineWidth` | src/EventBudgetPlanner.Cli/Formatting/ConsoleTable.cs:36-48 | the separator line is exactly `LineWidth` long |
| `ConsoleTable.TableLinesAligned` | src/EventBudgetPlanner.Cli/Formatting/ConsoleTable.cs:5-19 | every line of a rendered table has the same length |
| `ConsoleTable.RowTextPrefix` | src/EventBudgetPlanner.Cli/Formatting/ConsoleTable.cs:23-31 | what a row has written after fewer columns is a prefix of what it writes after more |
| `ConsoleTable.SeparatorTextPrefix` | src/EventBudgetPlanner.Cli/Formatting/ConsoleTable.cs:38-45 | the same for the separator line |
| `ConsoleTable.RowLineColumn` | src/EventBudgetPlanner.Cli/Formatting/ConsoleTable.cs:25-30 | from column `i`'s offset a row line holds the first width-plus-two units of that column's `CellText` |
| `ConsoleTable.RowLineLayout` | src/EventBudgetPlanner.Cli/Formatting/ConsoleTable.cs:25-26 | at column `i`'s offset a row line holds a space, the cell padded to exactly the column width (empty when the row is short), and a space |
| `ConsoleTable.RowLineSeparators` | src/EventBudgetPlanner.Cli/Formatting/ConsoleTable.cs:27-30 | a `|` follows every column but the last, and the line ends right after the last |
| `ConsoleTable.SeparatorLineLayout` | src/EventBudgetPlanner.Cli/Formatting/ConsoleTable.cs:38-45 | at column `i`'s offset the separator line holds a space, the column width in dashes and a space, then a `+` unless it is the last column |
| `ConsoleTable.ExtraCellsIgnored` | src/EventBudgetPlanner.Cli/Formatting/ConsoleTable.cs:23-25 | cells beyond the headers are never written |
| `ConsoleTable.WideCharacterWidth` | src/EventBudgetPlanner.Cli/Formatting/ConsoleTable.cs:8-10 | a character above U+FFFF is two units wide: as a lone header its column is 2 wide with a two-dash separator, and in a column 2 wide it fills the cell with no padding |
| `Scenarios.WholeAmount` | src/EventBudgetPlanner.Core/Services/EventPlannerService.cs:44 | a whole amount is stored as a hundred times itself in hundredths |
| `Scenarios.MusicFest` | tests/EventBudgetPlanner.Tests/EventPlannerServiceTests.cs:26-45 | 5000 target, 4200 paid and 24 h at 50: paid 4200, staff 1200, remaining -400, over budget |
| `Scenarios.ConferenceAndWorkshopEvents` | tests/EventBudgetPlanner.Tests/EventPlannerServiceTests.cs:54-59 | after an item and an assignment go to the first event and an item to the second, each event has exactly those appended and nothing else |
| `Scenarios.ConferenceAndWorkshopPortfolio` | tests/EventBudgetPlanner.Tests/EventPlannerServiceTests.cs:61-68 | the portfolio of those two events: count 2, targets 16000, committed 1500, paid 3000, staff 1800, none over budget |
| `Scenarios.ConferenceAndWorkshop` | tests/EventBudgetPlanner.Tests/EventPlannerServiceTests.cs:48-69 | two events: count 2, targets 16000, paid 3000, committed 1500, staff 1800, none over budget |

## Left out

- The `SemaphoreSlim` gate, `async`/`await` and cancellation are not modelled. Each operation is one atomic step, which is the serial history the gate produces. Cancellation part-way through an operation is not modelled.
- The JSON file store, with its file I/O, serialisation and missing-file case, is not modelled; neither are save or load failures. The store is a list of values saved and loaded whole. Loaded amounts are assumed to be already rounded to cents.
- Identifier generation (`Guid.NewGuid`) is a parameter: a sequence the source hands out in turn. Its uniqueness is not modelled, and identifiers are naturals with `Guid.Empty` as 0.
- `ArgumentNullException` for a null store, identifier source, plan or event list is not modelled: Dafny references here are never null. The `ArgumentException` and `InvalidOperationException` failures are `Err` results whose parameter names and identifiers match the source's.
- `BudgetStatus.cs` is not part of this model. The named statuses are taken as 0, 1 and 2, in the order `Planned`, `Committed`, `Paid` that the command line lists; only their being distinct matters to the model.
- `decimal`'s 96-bit range and its overflow are not modelled: amounts are unbounded integers.
- `hoursBooked` is a `double` in the source, rounded by `Math.Round(double, 2)` and converted with `(decimal)` in `TotalCost`. The model treats hours as an exact decimal rounded half to even, so binary floating-point effects are not captured.
- `Text.ToUpperInvariant`: maps only a..z. Letters outside ASCII are kept as they are, whereas .NET's invariant culture upper-cases them too.
- `Text.UpperChar`: the same gap, one character at a time: only a..z are upper-cased.
- `BudgetItem` and `StaffAssignment` are values. In the source they are mutable classes, and the objects `AddBudgetItemAsync` and `AddStaffAssignmentAsync` return are the ones held in the cache, so a caller can change cached data through them. That aliasing is not captured; the aliasing of `CreateEvent`'s returned event is.
- `ConsoleTable` writes to a modelled `Console` instead of the process's standard output. How wide a character looks on a terminal (East Asian wide characters, combining marks) is not modelled; like the source, widths count UTF-16 code units.
- The command-line, web and identity adapters that call the service are not part of this model.
