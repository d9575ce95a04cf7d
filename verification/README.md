# OpenSecrets incremental loader — a Dafny model

This project models the incremental fetch-and-merge engine of the OpenSecrets
campaign-finance harvester: the `DataLoader` class of `dataloader.py` and the
`get_cycles` helper of `pull_data.py`.

The loader harvests two tables from a rate-limited remote API:

- the politician roster, one fetch per state;
- the sector breakdown, one fetch per (candidate, election cycle) pair.

Each fetch unit is first checked against the table in memory. The roster check asks
whether some row's office starts with the state code. The sector check asks whether
some row carries exactly that candidate id and cycle. The remote API is called only on
a miss. Every remote call goes through a wrapper that sleeps the current delay first.
A successful call resets the delay to its default. A failed call doubles the delay and
re-raises, and the harvester then warns and skips the unit. Fetched records are projected
onto the table's fixed columns, appended after the existing rows and saved at once.

The project has five modules:

- `PullData` (`pull_data.dfy`): the cycle grid `GetCycles` and its properties.
- `Backoff` (`backoff.dfy`): the delay rule, the delays slept over any history of call
  outcomes, and their closed form.
- `Schema` (`schema.dfy`): table cells and rows, remote records, and the projection of
  an attribute bag onto a column list. It also holds the two row-building loops
  (`PoliticiansInfoToRows`, `SectorInfoToRows`) with their specification functions.
- `Harvest` (`harvest.dfy`): the session as a value, with one function per unit, per
  phase and for the whole run. The lemmas about them cover cache behaviour, failure
  isolation, append-only growth, the saved copy, visiting order, the cross-product,
  the delays slept, re-running and the absence of repeated sector rows.
- `Loader` (`dataloader.dfy`): the class `DataLoader`. Its fields are the delay, the two
  tables and their saved copies, which its methods update in place. Each method's
  `ensures` equates the new state with the matching `Harvest` function of the old state.

Modelling choices:

- The remote API is the value `Api`, two total functions from a unit's key to
  `Ok(reply)` or `Raised`.
- A roster reply is `Single(record)` or `Many(records)`.
- A record is its `@attributes` bag, a `map<string, string>`.
- A cell is `Null`, `Text(s)` or `Num(n)`. `Num` is needed because the sector table's
  `cycle` column holds the integer that is written into the record. Candidate ids are
  cells too: under `'All'` they come from the roster's `cid` column, which may be null.
  A null id never matches a row, just as NaN equals nothing.
- A table is `Option<seq<Row>>`, where `None` means no table has been loaded or built yet.
- Saving a table assigns its saved copy. The invariant `Valid()` states that the saved
  copies equal the tables after every unit, so partial progress is always on disk.
- The delay is a `nat`. The source multiplies by `2.0`, but every value it reaches is an
  exact doubling of the integer default.
- Each sleep is appended to a ghost log `sleeps`. Each unit the loader considers, hit or
  not, is appended to a ghost log `visited`.
- The year that `latest_election_cycle` reads from the clock is a parameter.
- The two uncaught errors of the source end a run with `Aborted(fault)`:
  - A reply with zero records leaves the local row table unbound (dataloader.py:130-135 and
    151-156). This is `UnboundLocal`. The delay has already been reset by the successful
    call, and both tables and their saved copies are unchanged.
  - Under `'All'` politicians with no roster at all, `self.politicians_df['cid']` fails.
    This is `NotSubscriptable`.
- The constructor's `ValueError` is the `ValueError` outcome of `Open`.
- The states and politicians settings are `Selector<T> = All | Explicit(items)`.
- Under `'All'` the politicians of the sector phase are read from the roster as the
  state phase left it (`Politicians`).

Two consequences of the code are worth stating:

- A zero-record fetch is not skipped. The row table is never bound (dataloader.py:130-135
  and 151-156), the code raises, and the model aborts the run
  (`StatesPhaseAbortCause`, `SectorsPhaseAbortCause`).
- Rows are never deduplicated on append. The roster can hold the same candidate twice:
  a state whose reply holds no office starting with its code never hits, so every run
  fetches it again and appends its rows again. The sector table nevertheless
  stays free of repeated (candidate, cycle, sector) rows (`RunNoRepeats`). This needs a
  file that starts without repeats and replies that list each sector once, and it holds
  because a pair is fetched only when no row carries it. Rows with a null candidate id
  are the exception: a null id never hits, so such a pair is fetched and appended again
  on every run.

## Model

| member | source | states |
|---|---|---|
| `PullData.GetCycles` | pull_data.py:17-18 | every element is divisible by 4 and lies in [start, end]; the list is strictly ascending, so it has no duplicates |
| `PullData.GetCyclesComplete` | pull_data.py:17-18 | every multiple of 4 in [start, end] is in the result |
| `PullData.GetCyclesEmpty` | pull_data.py:17-18 | the result is empty when end < start, and empty exactly when the range holds no multiple of 4 |
| `PullData.GetCyclesExample` | pull_data.py:17-18 | the range 2015..2024 gives [2016, 2020, 2024] |
| `Backoff.AfterClosedForm` | dataloader.py:58-66 | after any history of outcomes the delay is the default (or the starting delay if nothing has succeeded yet) times 2 to the number of failures since the last success |
| `Backoff.SuccessResets` | dataloader.py:60-63 | whatever came before, the call after a success waits the default delay |
| `Backoff.FailuresDouble` | dataloader.py:64-66 | k failures in a row from delay w leave the delay at w * 2^k, with no cap |
| `Backoff.BackoffExample` | dataloader.py:58-66 | outcomes [fail, fail, success] from the default d sleep d, 2d and 4d before the three calls, and the next call waits d |
| `Backoff.AfterAppend` | dataloader.py:58-66 | the delay after two bursts of calls is the delay after the second burst, started from the delay the first left |
| `Backoff.WaitsAppend` | dataloader.py:58-66 | the sleeps of two bursts are the sleeps of the first, then those of the second started from the delay the first left |
| `Loader.DataLoader.WrapCall` | dataloader.py:58-66 | appends the current delay to the sleeps, passes the outcome through unchanged (re-raising a failure), and sets the delay to the default on success or to twice the old delay on failure |
| `Loader.DataLoader.LatestElectionCycle` | dataloader.py:52-56 | the result r is divisible by 4, r <= year and year - r < 4 |
| `Loader.ResolveStates` | dataloader.py:33-39 | refuses exactly when the selector is 'All' and there is no states table; otherwise gives the explicit list or the table's codes |
| `Loader.Open` | dataloader.py:13-47 | ValueError exactly when the states selector is 'All' without a states table; otherwise a fresh valid loader with the given API, the resolved states, the given cycles or the single latest cycle of the year, the given politicians, the given delay as both default and current delay, the tables from their files, and no sleeps or units yet |
| `Loader.DataLoader.constructor` | dataloader.py:13-47 | the delay starts at its default, the tables and their saved copies start from the files, and nothing has been slept or visited |
| `Schema.Project` | dataloader.py:98 | the row has one cell per listed column, in order, holding the bag's value for that name or null when the bag lacks it |
| `Schema.PoliticiansInfoToRows` | dataloader.py:68-101 | the loop builds exactly the roster rows of the reply's records, a single record being normalised to a one-element list |
| `Schema.RosterRowCount` | dataloader.py:92-101 | n records give n rows, and an unwrapped record gives one |
| `Schema.RosterRowsShape` | dataloader.py:92-101 | row i, in record order, has the 21 columns, each cell the record's attribute or null |
| `Schema.ProjectDropsExtra` | dataloader.py:98 | attributes outside the column list have no effect on the row |
| `Schema.SectorInfoToRows` | dataloader.py:103-117 | the loop builds exactly the sector rows of the records, one per record, in order |
| `Schema.SectorRowKey` | dataloader.py:112-115 | a sector row's key cells are the argument candidate id and cycle and the record's sector id, or null without one |
| `Schema.SectorRowShape` | dataloader.py:112-115 | each sector row has 7 cells, starts with the argument candidate id and cycle even when the record carries attributes of those names, then holds the five sector fields or null |
| `Harvest.StateStep` | dataloader.py:119-139 | the roster unit records the state as considered, hits exactly when the table exists and some office starts with the code, can only fail with the unbound table, and leaves the sector table and its saved copy alone |
| `Harvest.SectorStep` | dataloader.py:141-160 | the sector unit records the pair, hits exactly when some row carries the non-null id and the cycle, can only fail with the unbound table, and leaves the roster alone |
| `Harvest.StateStepCases` | dataloader.py:119-139 | a hit makes no call and changes nothing. Otherwise one call sleeps the current delay. The unit warns exactly when it misses and the call raises, and then the delay doubles and the tables and saved copies stay. It aborts exactly when it misses and the reply is an empty list, and then both stay and the delay is reset. It stores exactly when it misses and the reply is a non-empty success, and then the table becomes the old rows followed by the projected rows and the saved copy equals it |
| `Harvest.SectorStepCases` | dataloader.py:141-160 | the same three-way split for the sector unit, under the exact (candidate id, cycle) check, aborting exactly on a missed pair whose reply has zero records |
| `Loader.DataLoader.LoadStatePoliticians` | dataloader.py:119-139 | the new fields equal the roster unit function of the old ones; hit iff the old table matches; only a store changes the roster, and then only by appending; the saved copy stays equal to the table |
| `Loader.DataLoader.LoadPoliticianSectors` | dataloader.py:141-160 | the same for the sector unit and the sector table |
| `Harvest.CacheExamples` | dataloader.py:120-144 | office "TX5" serves "TX"; a row for ("X1", 2020) serves ("X1", 2020) but not ("X1", 2022) |
| `Harvest.RosterFetchThenHit` | dataloader.py:119-137 | after a stored reply holding a record whose office starts with the code, the next request for that state is a hit with no remote call |
| `Harvest.SectorFetchThenHit` | dataloader.py:141-158 | after a stored (candidate, cycle) unit, the next request for that pair is a hit with no remote call |
| `Harvest.SingleRecordScenario` | dataloader.py:92-137 | with no roster, one unwrapped record for office "VT02" gives a one-row roster with cid "V001", and asking for "VT" again makes no call |
| `Harvest.ZeroRecordsNotCached` | dataloader.py:151-156 | a zero-record sector reply aborts without adding rows, so the pair still misses and is fetched again |
| `Harvest.StateStepGrows` | dataloader.py:130-137 | a roster unit only appends, keeps an existing table existing, only adds sleeps, and keeps the saved copies equal to the tables |
| `Harvest.SectorStepGrows` | dataloader.py:151-158 | the same for a sector unit |
| `Harvest.StatesPhase` | dataloader.py:164-167 | the state phase leaves the sector table and its saved copy alone, and can only abort with the unbound table |
| `Harvest.SectorsPhase` | dataloader.py:176-181 | the sector phase leaves the roster and its saved copy alone, and can only abort with the unbound table |
| `Harvest.Run` | dataloader.py:162-181 | a run ends with the 'cid' lookup failure exactly when the state phase completed, the politicians are 'All' and there is still no roster |
| `Harvest.StatesPhaseGrows` | dataloader.py:164-167 | the state phase only appends, keeps tables existing, only adds sleeps and keeps the saved copies equal to the tables |
| `Harvest.SectorsPhaseGrows` | dataloader.py:176-181 | the same for the sector phase |
| `Harvest.StatesPhaseFacts` | dataloader.py:164-167 | the state phase visits the codes in the given order: all of them when it completes, and a non-empty prefix of them when it aborts |
| `Harvest.SectorsPhaseFacts` | dataloader.py:176-181 | the sector phase visits the pairs in the given order: all of them, or a non-empty prefix |
| `Harvest.StatesPhaseAbortCause` | dataloader.py:130-135 | when the state phase aborts, the last code it visited missed the roster and got an empty list |
| `Harvest.SectorsPhaseAbortCause` | dataloader.py:151-156 | when the sector phase aborts, the last pair it visited missed the table and got zero records |
| `Harvest.StatesPhaseDone` | dataloader.py:164-167 | a state phase completes when every code is served locally at the start or does not get an empty list |
| `Harvest.SectorsPhaseDone` | dataloader.py:176-181 | a sector phase completes when every pair is served locally at the start or does not get zero records |
| `Harvest.RunFacts` | dataloader.py:162-181 | a run is append-only and keeps the saved copies equal to the tables. A completed run visited every state in order and then exactly the cycle-major product of cycles and politicians, which under 'All' are the roster's ids after the state phase |
| `Loader.DataLoader.Run` | dataloader.py:162-181 | the new fields and status equal the run function of the old fields; the tables only grow and the sleeps only lengthen |
| `Harvest.UnitsAt` | dataloader.py:170-174 | the product has \|cycles\| * \|politicians\| pairs, and pair i * \|politicians\| + j is (cycles[i], politicians[j]) |
| `Harvest.StatesPhaseAllHits` | dataloader.py:164-167 | when every state is already served locally the phase makes no remote call and changes nothing but the visited log |
| `Harvest.SectorsPhaseAllHits` | dataloader.py:176-181 | the same for the sector phase |
| `Harvest.RosterHitsPersist` | dataloader.py:120-121 | a state served locally is still served after any append-only growth of the session |
| `Harvest.SectorHitsPersist` | dataloader.py:142-144 | a pair served locally is still served after any append-only growth of the session |
| `Harvest.StateStepServes` | dataloader.py:119-137 | a roster unit that does not abort leaves its state served when it was served before or its reply has a record for one of its offices |
| `Harvest.SectorStepServes` | dataloader.py:141-158 | a sector unit that does not abort leaves its pair served when it was served before or its id is non-null and its reply succeeds |
| `Harvest.StatesPhaseServes` | dataloader.py:164-167 | after a completed state phase, each of its states that was served or has a record for one of its offices is served |
| `Harvest.SectorsPhaseServes` | dataloader.py:176-181 | after a completed sector phase, each of its pairs that was served or has a non-null id and a successful reply is served |
| `Harvest.RunIdempotent` | dataloader.py:162-181 | after a completed run in which every missed state got a record for one of its offices and every missed pair had a non-null id and a successful reply, a second run completes with no remote call and changes only the log of units considered |
| `Harvest.StateStepBackoff` | dataloader.py:58-66 | the delay and sleeps after a roster unit are those the backoff rule gives for the unit's calls (none on a hit) |
| `Harvest.SectorStepBackoff` | dataloader.py:58-66 | the same for a sector unit |
| `Harvest.StatesPhaseBackoff` | dataloader.py:58-66 | across a state phase, call i sleeps the backoff delay after the first i outcomes, and the final delay is the delay after all of them |
| `Harvest.SectorsPhaseBackoff` | dataloader.py:58-66 | the same for a sector phase |
| `Harvest.RunBackoff` | dataloader.py:58-66 | the same across a whole run, both phases together |
| `Harvest.SectorRowsNoRepeats` | dataloader.py:111-116 | the rows stored for one pair carry its id and cycle, and hold no repeated sector when the reply lists each sector once |
| `Harvest.SectorStepNoRepeats` | dataloader.py:141-158 | a sector unit keeps the table free of repeated (candidate, cycle, sector) rows when its reply lists each sector once |
| `Harvest.SectorsPhaseNoRepeats` | dataloader.py:176-181 | the same across a sector phase |
| `Harvest.RunNoRepeats` | dataloader.py:162-181 | the same across a run, when every sector reply lists each sector once |

## Left out

- The remote client (`crpapi.CRP`) is not modelled. It is replaced by the `Api` value,
  which answers a given key the same way throughout a run.
- `time.sleep` does not pause anything in the model: each sleep is only recorded in the
  ghost `sleeps` log.
- The clock is not read: `datetime.now().year` is the `year` parameter.
- File I/O is not modelled: `pd.read_csv`, `to_csv`, `os.path.exists` and `os.makedirs`.
  The table files are constructor inputs, and saving assigns the saved copy. A CSV
  round trip is taken to be the identity, so dtype changes on reload are not modelled.
- pandas internals are not modelled. `pd.concat` is sequence concatenation of rows with
  the same columns. Column unions across files with other headers are not modelled.
- A null office in the roster is treated as not matching the state code. In pandas,
  `str.startswith` yields NaN for a null office, and `any` takes NaN as true.
- `print`, `warnings.warn`, `traceback.print_exc`, the progress lines and the `silent`
  flag are diagnostic output and are not modelled. So is the no-op `if state_code == "DC": pass`.
- The in-place `d.update` on the remote record is modelled as a map update on a copy.
  The remote reply is not read again afterwards, so the mutation is not observable.
- A states or politicians setting that is a string other than `'All'` is not modelled.
  The source would iterate over its characters; the model's `Explicit` always holds a
  list.
- Loader.Open: the constructor's defaults (`cycles=None`, `states='All'`,
  `politicians='All'`, `wait_time=5`) are not defaults here. Every argument is passed
  explicitly, `None` for cycles being `Option.None`.
- `get_configs`, `get_secrets` and `main` of `pull_data.py` load configuration and
  secrets and check that a directory exists. They are not part of this model.
- `build_sankey_df` (report building on pandas merges) and `dfs_tabs` (Excel export) are
  not part of this model.
