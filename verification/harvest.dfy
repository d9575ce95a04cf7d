/** The incremental fetch-and-merge engine as functions of a session state
    (dataloader.py, load_state_politicians, load_politician_sectors and run). The class
    in module Loader is proved to follow these functions step by step. */
module Harvest {
  import opened Schema
  import Backoff

  /** What one remote call gives: a value, or an exception. */
  datatype Fetch<T> = Ok(value: T) | Raised

  /** The remote data source: the roster of a state, and the sector breakdown of a
      (candidate, cycle) pair. */
  datatype Api = Api(candidates: string -> Fetch<RosterReply>,
                     sector: (Cell, int) -> Fetch<seq<Record>>)

  /** A unit of remote work, as the loader considers it. */
  datatype FetchUnit = StateUnit(code: string) | SectorUnit(cid: Cell, cycle: int)

  /** Uncaught errors that end a run: the row table of a zero-record reply is never
      bound, and under 'All' a missing roster cannot be indexed by 'cid'. */
  datatype Fault = UnboundLocal | NotSubscriptable

  /** How one unit ended: served by the local table, skipped after a failed call with a
      warning, appended and saved, or an uncaught error. */
  datatype Outcome = Hit | Warned | Stored | Crashed(fault: Fault)

  datatype Status = Done | Aborted(fault: Fault)

  /** A configuration value that lists items or stands for every known item. */
  datatype Selector<T> = All | Explicit(items: seq<T>)

  /** The mutable state of a harvesting session: the delay, the sleeps taken so far, the
      two tables (absent until first loaded or fetched) with their saved copies, and the
      units considered so far. */
  datatype Session = Session(
    wait: nat,
    sleeps: seq<nat>,
    roster: Option<seq<Row>>,
    savedRoster: Option<seq<Row>>,
    sectors: Option<seq<Row>>,
    savedSectors: Option<seq<Row>>,
    visited: seq<FetchUnit>)

  /** A (cycle, candidate) pair of the sector phase. */
  type SectorKey = (int, Cell)

  function Rows(t: Option<seq<Row>>): seq<Row>
  {
    if t.Some? then t.value else []
  }

  /** The office of a row starts with the state code. */
  predicate OfficeStarts(row: Row, code: string)
  {
    |row| > OfficeColumn && row[OfficeColumn].Text? && code <= row[OfficeColumn].s
  }

  /** The roster cache check: the table exists and some office starts with the code. */
  predicate RosterHit(t: Option<seq<Row>>, code: string)
  {
    t.Some? && exists row :: row in t.value && OfficeStarts(row, code)
  }

  /** A row carries exactly this candidate id and cycle (a null id equals nothing). */
  predicate KeyMatches(row: Row, cid: Cell, cycle: int)
  {
    cid != Null && |row| > CycleColumn && row[CidColumn] == cid && row[CycleColumn] == Num(cycle)
  }

  /** The sector cache check: the table exists and some row has the exact key. */
  predicate SectorHit(t: Option<seq<Row>>, cid: Cell, cycle: int)
  {
    t.Some? && exists row :: row in t.value && KeyMatches(row, cid, cycle)
  }

  /** The roster endpoint answers the state with an empty list. */
  predicate RosterEmpty(api: Api, code: string)
  {
    api.candidates(code).Ok? && EmptyReply(api.candidates(code).value)
  }

  /** The sector endpoint answers the pair with an empty list. */
  predicate SectorEmpty(api: Api, cid: Cell, cycle: int)
  {
    api.sector(cid, cycle).Ok? && |api.sector(cid, cycle).value| == 0
  }

  /** The saved copies equal the tables in memory. */
  predicate Mirrored(s: Session)
  {
    s.roster == s.savedRoster && s.sectors == s.savedSectors
  }

  /** What a unit never does: shrink or rewrite a table, drop a table, forget a sleep,
      or let the saved copies drift from the tables. */
  predicate Grows(s: Session, s': Session)
  {
    Rows(s.roster) <= Rows(s'.roster) && Rows(s.sectors) <= Rows(s'.sectors) &&
    (s.roster.Some? ==> s'.roster.Some?) && (s.sectors.Some? ==> s'.sectors.Some?) &&
    s.sleeps <= s'.sleeps &&
    (Mirrored(s) ==> Mirrored(s'))
  }

  /** One wrapped remote call: sleep the current delay, then apply the backoff rule. */
  function Call(s: Session, dflt: nat, ok: bool): Session
  {
    s.(sleeps := s.sleeps + [s.wait], wait := Backoff.Next(s.wait, dflt, ok))
  }

  /** Ensure the roster holds the state `code`: the unit is recorded, the remote API is
      asked only on a miss, the roster only grows and the sector table is left alone. */
  function StateStep(api: Api, dflt: nat, s: Session, code: string): (r: (Session, Outcome))
    ensures r.0.visited == s.visited + [StateUnit(code)]
    ensures r.1.Hit? <==> RosterHit(s.roster, code)
    ensures r.1.Crashed? ==> r.1.fault == UnboundLocal
    ensures r.0.sectors == s.sectors && r.0.savedSectors == s.savedSectors
  {
    var s0 := s.(visited := s.visited + [StateUnit(code)]);
    if RosterHit(s.roster, code) then (s0, Hit)
    else
      var reply := api.candidates(code);
      var s1 := Call(s0, dflt, reply.Ok?);
      if reply.Raised? then (s1, Warned)
      else if EmptyReply(reply.value) then (s1, Crashed(UnboundLocal))
      else
        var t := Some(Rows(s.roster) + RosterRows(Records(reply.value)));
        (s1.(roster := t, savedRoster := t), Stored)
  }

  /** Ensure the sector table holds the pair (cid, cycle), with the same guarantees on
      the sector side. */
  function SectorStep(api: Api, dflt: nat, s: Session, cid: Cell, cycle: int): (r: (Session, Outcome))
    ensures r.0.visited == s.visited + [SectorUnit(cid, cycle)]
    ensures r.1.Hit? <==> SectorHit(s.sectors, cid, cycle)
    ensures r.1.Crashed? ==> r.1.fault == UnboundLocal
    ensures r.0.roster == s.roster && r.0.savedRoster == s.savedRoster
  {
    var s0 := s.(visited := s.visited + [SectorUnit(cid, cycle)]);
    if SectorHit(s.sectors, cid, cycle) then (s0, Hit)
    else
      var reply := api.sector(cid, cycle);
      var s1 := Call(s0, dflt, reply.Ok?);
      if reply.Raised? then (s1, Warned)
      else if |reply.value| == 0 then (s1, Crashed(UnboundLocal))
      else
        var t := Some(Rows(s.sectors) + SectorRows(reply.value, cid, cycle));
        (s1.(sectors := t, savedSectors := t), Stored)
  }

  /** The state phase: every code in the order given, until an uncaught error. It leaves
      the sector table alone, and the only error it can end with is the unbound table. */
  function StatesPhase(api: Api, dflt: nat, s: Session, codes: seq<string>): (r: (Session, Status))
    ensures r.0.sectors == s.sectors && r.0.savedSectors == s.savedSectors
    ensures r.1.Aborted? ==> r.1.fault == UnboundLocal
    decreases |codes|
  {
    if codes == [] then (s, Done)
    else
      var r := StateStep(api, dflt, s, codes[0]);
      if r.1.Crashed? then (r.0, Aborted(r.1.fault))
      else StatesPhase(api, dflt, r.0, codes[1..])
  }

  /** The sector phase: every (cycle, candidate) pair in the order given, until an
      uncaught error. It leaves the roster alone. */
  function SectorsPhase(api: Api, dflt: nat, s: Session, keys: seq<SectorKey>): (r: (Session, Status))
    ensures r.0.roster == s.roster && r.0.savedRoster == s.savedRoster
    ensures r.1.Aborted? ==> r.1.fault == UnboundLocal
    decreases |keys|
  {
    if keys == [] then (s, Done)
    else
      var r := SectorStep(api, dflt, s, keys[0].1, keys[0].0);
      if r.1.Crashed? then (r.0, Aborted(r.1.fault))
      else SectorsPhase(api, dflt, r.0, keys[1..])
  }

  /** The product cycles x politicians, cycle-major. */
  function Units(cycles: seq<int>, pols: seq<Cell>): seq<SectorKey>
    decreases |cycles|
  {
    if cycles == [] then []
    else seq(|pols|, j requires 0 <= j < |pols| => (cycles[0], pols[j])) + Units(cycles[1..], pols)
  }

  /** The 'cid' column of the roster, row by row. */
  function Cids(rows: seq<Row>): seq<Cell>
  {
    seq(|rows|, i requires 0 <= i < |rows| => if |rows[i]| > CidColumn then rows[i][CidColumn] else Null)
  }

  /** The politicians of the sector phase: the explicit list, or the roster's ids. */
  function Politicians(pols: Selector<Cell>, roster: Option<seq<Row>>): seq<Cell>
  {
    match pols
    case All => Cids(Rows(roster))
    case Explicit(ps) => ps
  }

  /** A whole run: the state phase, then the sector phase over the cycles and the
      politicians, which under 'All' are the roster's ids as the state phase left them;
      the 'cid' lookup fails exactly when that roster is absent. */
  function Run(api: Api, dflt: nat, cycles: seq<int>, codes: seq<string>, pols: Selector<Cell>,
               s: Session): (r: (Session, Status))
    ensures r.1 == Aborted(NotSubscriptable) <==>
              StatesPhase(api, dflt, s, codes).1.Done? && pols.All? &&
              StatesPhase(api, dflt, s, codes).0.roster.None?
  {
    var (mid, st) := StatesPhase(api, dflt, s, codes);
    if st.Aborted? then (mid, st)
    else if pols.All? && mid.roster.None? then (mid, Aborted(NotSubscriptable))
    else SectorsPhase(api, dflt, mid, Units(cycles, Politicians(pols, mid.roster)))
  }

  function StateVisits(codes: seq<string>): seq<FetchUnit>
  {
    seq(|codes|, i requires 0 <= i < |codes| => StateUnit(codes[i]))
  }

  function SectorVisits(keys: seq<SectorKey>): seq<FetchUnit>
  {
    seq(|keys|, i requires 0 <= i < |keys| => SectorUnit(keys[i].1, keys[i].0))
  }

  lemma StateVisitsPrefix(codes: seq<string>, m: nat)
    requires m < |codes|
    ensures StateVisits(codes) == [StateUnit(codes[0])] + StateVisits(codes[1..])
    ensures StateVisits(codes)[..m + 1] == [StateUnit(codes[0])] + StateVisits(codes[1..])[..m]
  {
  }

  lemma SectorVisitsPrefix(keys: seq<SectorKey>, m: nat)
    requires m < |keys|
    ensures SectorVisits(keys) == [SectorUnit(keys[0].1, keys[0].0)] + SectorVisits(keys[1..])
    ensures SectorVisits(keys)[..m + 1] == [SectorUnit(keys[0].1, keys[0].0)] + SectorVisits(keys[1..])[..m]
  {
  }

  // ---------------------------------------------------------------------------------
  // One unit

  /** The roster unit: a cache hit makes no call and changes nothing; otherwise exactly
      one call sleeps the current delay. A failed call leaves both tables and their
      saved copies as they were and doubles the delay; a zero-record reply is an
      uncaught error with the tables unchanged; any other reply appends its rows after
      the existing ones and saves the whole table. */
  lemma StateStepCases(api: Api, dflt: nat, s: Session, code: string)
    ensures var (s', o) := StateStep(api, dflt, s, code);
      (o.Hit? ==> s' == s.(visited := s'.visited)) &&
      (!o.Hit? ==> s'.sleeps == s.sleeps + [s.wait]) &&
      (o == Warned <==> !RosterHit(s.roster, code) && api.candidates(code).Raised?) &&
      (o.Crashed? <==> !RosterHit(s.roster, code) && RosterEmpty(api, code)) &&
      (o == Stored <==>
         !RosterHit(s.roster, code) && api.candidates(code).Ok? && !RosterEmpty(api, code)) &&
      (o == Warned ==> s'.wait == 2 * s.wait && s'.roster == s.roster && s'.savedRoster == s.savedRoster) &&
      (o.Crashed? ==> s'.wait == dflt && s'.roster == s.roster && s'.savedRoster == s.savedRoster) &&
      (o == Stored ==>
         s'.wait == dflt && s'.roster.Some? && s'.savedRoster == s'.roster &&
         s'.roster.value == Rows(s.roster) + RosterRows(Records(api.candidates(code).value)))
  {
  }

  /** The sector unit, with the exact-key cache check. */
  lemma SectorStepCases(api: Api, dflt: nat, s: Session, cid: Cell, cycle: int)
    ensures var (s', o) := SectorStep(api, dflt, s, cid, cycle);
      (o.Hit? ==> s' == s.(visited := s'.visited)) &&
      (!o.Hit? ==> s'.sleeps == s.sleeps + [s.wait]) &&
      (o == Warned <==> !SectorHit(s.sectors, cid, cycle) && api.sector(cid, cycle).Raised?) &&
      (o.Crashed? <==> !SectorHit(s.sectors, cid, cycle) && SectorEmpty(api, cid, cycle)) &&
      (o == Stored <==>
         !SectorHit(s.sectors, cid, cycle) && api.sector(cid, cycle).Ok? && !SectorEmpty(api, cid, cycle)) &&
      (o == Warned ==> s'.wait == 2 * s.wait && s'.sectors == s.sectors && s'.savedSectors == s.savedSectors) &&
      (o.Crashed? ==> s'.wait == dflt && s'.sectors == s.sectors && s'.savedSectors == s.savedSectors) &&
      (o == Stored ==>
         s'.wait == dflt && s'.sectors.Some? && s'.savedSectors == s'.sectors &&
         s'.sectors.value == Rows(s.sectors) + SectorRows(api.sector(cid, cycle).value, cid, cycle))
  {
  }

  /** Cache granularity: a roster row with office "TX5" serves "TX"; a sector row for
      ("X1", 2020) serves ("X1", 2020) but not ("X1", 2022). */
  lemma CacheExamples(row: Row, srow: Row)
    requires |row| == 21 && row[OfficeColumn] == Text("TX5")
    requires |srow| == 7 && srow[CidColumn] == Text("X1") && srow[CycleColumn] == Num(2020)
    ensures RosterHit(Some([row]), "TX")
    ensures SectorHit(Some([srow]), Text("X1"), 2020)
    ensures !SectorHit(Some([srow]), Text("X1"), 2022)
  {
    assert OfficeStarts(row, "TX");
    assert KeyMatches(srow, Text("X1"), 2020);
  }

  /** A stored sector unit is served from the table from then on: the next request for
      the same pair makes no remote call. */
  lemma {:induction false} SectorFetchThenHit(api: Api, dflt: nat, s: Session, cid: Cell, cycle: int)
    requires cid != Null
    requires SectorStep(api, dflt, s, cid, cycle).1 == Stored
    ensures var s1 := SectorStep(api, dflt, s, cid, cycle).0;
            SectorHit(s1.sectors, cid, cycle) &&
            SectorStep(api, dflt, s1, cid, cycle).1 == Hit &&
            SectorStep(api, dflt, s1, cid, cycle).0.sleeps == s1.sleeps
  {
    var records := api.sector(cid, cycle).value;
    var s1 := SectorStep(api, dflt, s, cid, cycle).0;
    var row := SectorRows(records, cid, cycle)[0];
    SectorRowShape(records[0], cid, cycle);
    assert KeyMatches(row, cid, cycle);
    assert s1.sectors.value == Rows(s.sectors) + SectorRows(records, cid, cycle);
    assert row == s1.sectors.value[|Rows(s.sectors)|];
  }

  /** The record's office attribute starts with the state code. */
  predicate OfficeIn(r: Record, code: string)
  {
    "office" in r.attributes && code <= r.attributes["office"]
  }

  /** The roster endpoint answers the state with a record for one of its offices. */
  predicate ServesState(api: Api, code: string)
  {
    api.candidates(code).Ok? &&
    exists r :: r in Records(api.candidates(code).value) && OfficeIn(r, code)
  }

  /** A stored roster unit is served from the table from then on when the reply held a
      record whose office starts with the state code. */
  lemma {:induction false} RosterFetchThenHit(api: Api, dflt: nat, s: Session, code: string, i: nat)
    requires StateStep(api, dflt, s, code).1 == Stored
    requires i < |Records(api.candidates(code).value)|
    requires OfficeIn(Records(api.candidates(code).value)[i], code)
    ensures var s1 := StateStep(api, dflt, s, code).0;
            RosterHit(s1.roster, code) &&
            StateStep(api, dflt, s1, code).1 == Hit &&
            StateStep(api, dflt, s1, code).0.sleeps == s1.sleeps
  {
    var records := Records(api.candidates(code).value);
    var s1 := StateStep(api, dflt, s, code).0;
    var row := RosterRows(records)[i];
    assert RosterFields[OfficeColumn] == "office";
    assert row[OfficeColumn] == Text(records[i].attributes["office"]);
    assert OfficeStarts(row, code);
    assert row == s1.roster.value[|Rows(s.roster)| + i];
  }

  /** Empty tables and a roster reply holding one unwrapped record for office "VT02"
      give a one-row roster, and asking for "VT" again makes no remote call. */
  lemma SingleRecordScenario(api: Api, dflt: nat, s: Session, r: Record)
    requires s.roster.None?
    requires api.candidates("VT") == Ok(Single(r))
    requires r.attributes == map["cid" := "V001", "office" := "VT02"]
    ensures var s1 := StateStep(api, dflt, s, "VT").0;
            s1.roster.Some? && |s1.roster.value| == 1 &&
            s1.roster.value[0][CidColumn] == Text("V001") &&
            StateStep(api, dflt, s1, "VT").1 == Hit &&
            StateStep(api, dflt, s1, "VT").0.sleeps == s1.sleeps
  {
    assert RosterFields[CidColumn] == "cid";
    assert "VT" <= "VT02";
    RosterFetchThenHit(api, dflt, s, "VT", 0);
  }

  /** A zero-record sector reply adds nothing, so the pair is fetched again next time. */
  lemma ZeroRecordsNotCached(api: Api, dflt: nat, s: Session, cid: Cell, cycle: int)
    requires !SectorHit(s.sectors, cid, cycle)
    requires api.sector(cid, cycle) == Ok([])
    ensures var (s1, o) := SectorStep(api, dflt, s, cid, cycle);
            o == Crashed(UnboundLocal) && s1.sectors == s.sectors &&
            !SectorHit(s1.sectors, cid, cycle) && SectorStep(api, dflt, s1, cid, cycle).1 != Hit
  {
  }

  /** Hits persist: a state served locally before is still served after any growth of
      the session, since rows are only ever appended. */
  lemma RosterHitsPersist(s: Session, s': Session, code: string)
    requires Grows(s, s')
    ensures RosterHit(s.roster, code) ==> RosterHit(s'.roster, code)
  {
    if RosterHit(s.roster, code) {
      var row :| row in s.roster.value && OfficeStarts(row, code);
      assert row in s'.roster.value;
    }
  }

  lemma SectorHitsPersist(s: Session, s': Session, cid: Cell, cycle: int)
    requires Grows(s, s')
    ensures SectorHit(s.sectors, cid, cycle) ==> SectorHit(s'.sectors, cid, cycle)
  {
    if SectorHit(s.sectors, cid, cycle) {
      var row :| row in s.sectors.value && KeyMatches(row, cid, cycle);
      assert row in s'.sectors.value;
    }
  }

  /** A unit only appends, keeps an existing table existing, only adds sleeps, and keeps
      the saved copies equal to the tables. */
  lemma StateStepGrows(api: Api, dflt: nat, s: Session, code: string)
    ensures Grows(s, StateStep(api, dflt, s, code).0)
  {
  }

  lemma SectorStepGrows(api: Api, dflt: nat, s: Session, cid: Cell, cycle: int)
    ensures Grows(s, SectorStep(api, dflt, s, cid, cycle).0)
  {
  }

  lemma GrowsTrans(s1: Session, s2: Session, s3: Session)
    requires Grows(s1, s2) && Grows(s2, s3)
    ensures Grows(s1, s3)
  {
  }

  // ---------------------------------------------------------------------------------
  // Phases and the run

  /** A phase only appends to its table, only adds sleeps and keeps the saved copies
      equal to the tables. */
  lemma {:induction false} StatesPhaseGrows(api: Api, dflt: nat, s: Session, codes: seq<string>)
    ensures Grows(s, StatesPhase(api, dflt, s, codes).0)
    decreases |codes|
  {
    if codes != [] {
      var r := StateStep(api, dflt, s, codes[0]);
      StateStepGrows(api, dflt, s, codes[0]);
      if !r.1.Crashed? {
        StatesPhaseGrows(api, dflt, r.0, codes[1..]);
        GrowsTrans(s, r.0, StatesPhase(api, dflt, r.0, codes[1..]).0);
      }
    }
  }

  lemma {:induction false} SectorsPhaseGrows(api: Api, dflt: nat, s: Session, keys: seq<SectorKey>)
    ensures Grows(s, SectorsPhase(api, dflt, s, keys).0)
    decreases |keys|
  {
    if keys != [] {
      var r := SectorStep(api, dflt, s, keys[0].1, keys[0].0);
      SectorStepGrows(api, dflt, s, keys[0].1, keys[0].0);
      if !r.1.Crashed? {
        SectorsPhaseGrows(api, dflt, r.0, keys[1..]);
        GrowsTrans(s, r.0, SectorsPhase(api, dflt, r.0, keys[1..]).0);
      }
    }
  }

  /** The state phase considers the codes in the order given: all of them when it
      completes, and a non-empty prefix of them when it aborts. */
  lemma {:induction false} StatesPhaseFacts(api: Api, dflt: nat, s: Session, codes: seq<string>)
    ensures var r := StatesPhase(api, dflt, s, codes);
      (r.1.Done? ==> r.0.visited == s.visited + StateVisits(codes)) &&
      (r.1.Aborted? ==>
         |s.visited| < |r.0.visited| <= |s.visited| + |codes| &&
         r.0.visited == s.visited + StateVisits(codes)[..|r.0.visited| - |s.visited|])
    decreases |codes|
  {
    if codes != [] {
      var r := StateStep(api, dflt, s, codes[0]);
      if !r.1.Crashed? {
        var p := StatesPhase(api, dflt, r.0, codes[1..]);
        StatesPhaseFacts(api, dflt, r.0, codes[1..]);
        if p.1.Aborted? {
          StateVisitsPrefix(codes, |p.0.visited| - |r.0.visited|);
        } else {
          StateVisitsPrefix(codes, 0);
        }
      } else {
        StateVisitsPrefix(codes, 0);
      }
    }
  }

  /** An aborted state phase stopped at the code numbered n - 1, n being the number of
      codes it considered: that code missed the roster and got a zero-record reply. */
  lemma {:induction false} StatesPhaseAbortCause(api: Api, dflt: nat, s: Session, codes: seq<string>)
    ensures var (s', st) := StatesPhase(api, dflt, s, codes);
      var n := |s'.visited| - |s.visited|;
      st.Aborted? ==>
        0 < n <= |codes| && !RosterHit(s'.roster, codes[n - 1]) && RosterEmpty(api, codes[n - 1])
    decreases |codes|
  {
    if codes != [] {
      var r := StateStep(api, dflt, s, codes[0]);
      if !r.1.Crashed? {
        StatesPhaseAbortCause(api, dflt, r.0, codes[1..]);
        var (s', st) := StatesPhase(api, dflt, r.0, codes[1..]);
        if st.Aborted? {
          var m := |s'.visited| - |r.0.visited|;
          assert codes[m] == codes[1..][m - 1];
        }
      } else {
        assert r.0.roster == s.roster && RosterEmpty(api, codes[0]);
      }
    }
  }

  /** The sector phase considers the pairs in the order given: all of them, or a
      non-empty prefix of them when it aborts. */
  lemma {:induction false} SectorsPhaseFacts(api: Api, dflt: nat, s: Session, keys: seq<SectorKey>)
    ensures var r := SectorsPhase(api, dflt, s, keys);
      (r.1.Done? ==> r.0.visited == s.visited + SectorVisits(keys)) &&
      (r.1.Aborted? ==>
         |s.visited| < |r.0.visited| <= |s.visited| + |keys| &&
         r.0.visited == s.visited + SectorVisits(keys)[..|r.0.visited| - |s.visited|])
    decreases |keys|
  {
    if keys != [] {
      var r := SectorStep(api, dflt, s, keys[0].1, keys[0].0);
      if !r.1.Crashed? {
        var p := SectorsPhase(api, dflt, r.0, keys[1..]);
        SectorsPhaseFacts(api, dflt, r.0, keys[1..]);
        if p.1.Aborted? {
          SectorVisitsPrefix(keys, |p.0.visited| - |r.0.visited|);
        } else {
          SectorVisitsPrefix(keys, 0);
        }
      } else {
        SectorVisitsPrefix(keys, 0);
      }
    }
  }

  /** An aborted sector phase stopped at the pair numbered n - 1: that pair missed the
      table and got a zero-record reply. */
  lemma {:induction false} SectorsPhaseAbortCause(api: Api, dflt: nat, s: Session, keys: seq<SectorKey>)
    ensures var (s', st) := SectorsPhase(api, dflt, s, keys);
      var n := |s'.visited| - |s.visited|;
      st.Aborted? ==>
        0 < n <= |keys| && !SectorHit(s'.sectors, keys[n - 1].1, keys[n - 1].0) &&
        SectorEmpty(api, keys[n - 1].1, keys[n - 1].0)
    decreases |keys|
  {
    if keys != [] {
      var r := SectorStep(api, dflt, s, keys[0].1, keys[0].0);
      if !r.1.Crashed? {
        SectorsPhaseAbortCause(api, dflt, r.0, keys[1..]);
        var (s', st) := SectorsPhase(api, dflt, r.0, keys[1..]);
        if st.Aborted? {
          var m := |s'.visited| - |r.0.visited|;
          assert keys[m] == keys[1..][m - 1];
        }
      } else {
        assert r.0.sectors == s.sectors && SectorEmpty(api, keys[0].1, keys[0].0);
      }
    }
  }

  /** A state phase in which no code that misses gets a zero-record reply completes. */
  lemma {:induction false} StatesPhaseDone(api: Api, dflt: nat, s: Session, codes: seq<string>)
    requires forall c :: c in codes ==> RosterHit(s.roster, c) || !RosterEmpty(api, c)
    ensures StatesPhase(api, dflt, s, codes).1.Done?
    decreases |codes|
  {
    if codes != [] {
      assert codes[0] in codes;
      var r := StateStep(api, dflt, s, codes[0]);
      StateStepGrows(api, dflt, s, codes[0]);
      forall c | c in codes[1..]
        ensures RosterHit(r.0.roster, c) || !RosterEmpty(api, c)
      {
        assert c in codes;
        RosterHitsPersist(s, r.0, c);
      }
      StatesPhaseDone(api, dflt, r.0, codes[1..]);
    }
  }

  /** A sector phase in which no pair that misses gets a zero-record reply completes. */
  lemma {:induction false} SectorsPhaseDone(api: Api, dflt: nat, s: Session, keys: seq<SectorKey>)
    requires forall k :: k in keys ==> SectorHit(s.sectors, k.1, k.0) || !SectorEmpty(api, k.1, k.0)
    ensures SectorsPhase(api, dflt, s, keys).1.Done?
    decreases |keys|
  {
    if keys != [] {
      assert keys[0] in keys;
      var r := SectorStep(api, dflt, s, keys[0].1, keys[0].0);
      SectorStepGrows(api, dflt, s, keys[0].1, keys[0].0);
      forall k | k in keys[1..]
        ensures SectorHit(r.0.sectors, k.1, k.0) || !SectorEmpty(api, k.1, k.0)
      {
        assert k in keys;
        SectorHitsPersist(s, r.0, k.1, k.0);
      }
      SectorsPhaseDone(api, dflt, r.0, keys[1..]);
    }
  }

  /** A run only appends and keeps the saved copies equal to the tables; a completed
      run has considered every state in order and then exactly the cycle-major product
      of the cycles and the politicians, read from the roster after the state phase
      under 'All'. */
  lemma RunFacts(api: Api, dflt: nat, cycles: seq<int>, codes: seq<string>, pols: Selector<Cell>,
                 s: Session)
    ensures var (s', st) := Run(api, dflt, cycles, codes, pols, s);
      var mid := StatesPhase(api, dflt, s, codes).0;
      Grows(s, s') &&
      (st.Done? ==> StatesPhase(api, dflt, s, codes).1.Done? &&
                    s'.visited == s.visited + StateVisits(codes)
                                  + SectorVisits(Units(cycles, Politicians(pols, mid.roster))))
  {
    var (mid, st1) := StatesPhase(api, dflt, s, codes);
    StatesPhaseGrows(api, dflt, s, codes);
    StatesPhaseFacts(api, dflt, s, codes);
    if st1.Done? && !(pols.All? && mid.roster.None?) {
      var keys := Units(cycles, Politicians(pols, mid.roster));
      SectorsPhaseGrows(api, dflt, mid, keys);
      GrowsTrans(s, mid, SectorsPhase(api, dflt, mid, keys).0);
      SectorsPhaseFacts(api, dflt, mid, keys);
    }
  }

  /** The product has |cycles| * |politicians| pairs, cycle-major: pair i * |pols| + j is
      (cycles[i], pols[j]). */
  lemma {:induction false} UnitsAt(cycles: seq<int>, pols: seq<Cell>, i: nat, j: nat)
    requires i < |cycles| && j < |pols|
    ensures |Units(cycles, pols)| == |cycles| * |pols|
    ensures i * |pols| + j < |Units(cycles, pols)|
    ensures Units(cycles, pols)[i * |pols| + j] == (cycles[i], pols[j])
    decreases |cycles|
  {
    UnitsLength(cycles, pols);
    if i > 0 {
      UnitsAt(cycles[1..], pols, i - 1, j);
      assert i * |pols| + j == |pols| + ((i - 1) * |pols| + j);
    }
  }

  lemma {:induction false} UnitsLength(cycles: seq<int>, pols: seq<Cell>)
    ensures |Units(cycles, pols)| == |cycles| * |pols|
    decreases |cycles|
  {
    if cycles != [] {
      UnitsLength(cycles[1..], pols);
      assert |cycles| * |pols| == |pols| + (|cycles| - 1) * |pols|;
    }
  }

  /** Re-running over units that are all served locally makes no remote call and
      changes nothing but the units considered. */
  lemma {:induction false} StatesPhaseAllHits(api: Api, dflt: nat, s: Session, codes: seq<string>)
    requires forall c :: c in codes ==> RosterHit(s.roster, c)
    ensures var (s', st) := StatesPhase(api, dflt, s, codes);
            st.Done? && s' == s.(visited := s.visited + StateVisits(codes))
    decreases |codes|
  {
    if codes != [] {
      assert codes[0] in codes;
      var s1 := StateStep(api, dflt, s, codes[0]).0;
      assert forall c :: c in codes[1..] ==> c in codes;
      StatesPhaseAllHits(api, dflt, s1, codes[1..]);
      assert StateVisits(codes) == [StateUnit(codes[0])] + StateVisits(codes[1..]);
    }
  }

  lemma {:induction false} SectorsPhaseAllHits(api: Api, dflt: nat, s: Session, keys: seq<SectorKey>)
    requires forall k :: k in keys ==> SectorHit(s.sectors, k.1, k.0)
    ensures var (s', st) := SectorsPhase(api, dflt, s, keys);
            st.Done? && s' == s.(visited := s.visited + SectorVisits(keys))
    decreases |keys|
  {
    if keys != [] {
      assert keys[0] in keys;
      var s1 := SectorStep(api, dflt, s, keys[0].1, keys[0].0).0;
      assert forall k :: k in keys[1..] ==> k in keys;
      SectorsPhaseAllHits(api, dflt, s1, keys[1..]);
      assert SectorVisits(keys) == [SectorUnit(keys[0].1, keys[0].0)] + SectorVisits(keys[1..]);
    }
  }

  /** A roster unit that does not abort leaves its state served locally when it was
      served before or its reply carries a record for one of its offices. */
  lemma StateStepServes(api: Api, dflt: nat, s: Session, code: string)
    requires RosterHit(s.roster, code) || ServesState(api, code)
    requires !StateStep(api, dflt, s, code).1.Crashed?
    ensures RosterHit(StateStep(api, dflt, s, code).0.roster, code)
  {
    if !RosterHit(s.roster, code) {
      var recs := Records(api.candidates(code).value);
      var rec :| rec in recs && OfficeIn(rec, code);
      var i :| 0 <= i < |recs| && recs[i] == rec;
      RosterFetchThenHit(api, dflt, s, code, i);
    }
  }

  /** A sector unit that does not abort leaves its pair served locally when it was
      served before or its id is non-null and its reply successful. */
  lemma SectorStepServes(api: Api, dflt: nat, s: Session, cid: Cell, cycle: int)
    requires SectorHit(s.sectors, cid, cycle) || (cid != Null && api.sector(cid, cycle).Ok?)
    requires !SectorStep(api, dflt, s, cid, cycle).1.Crashed?
    ensures SectorHit(SectorStep(api, dflt, s, cid, cycle).0.sectors, cid, cycle)
  {
    if !SectorHit(s.sectors, cid, cycle) {
      SectorFetchThenHit(api, dflt, s, cid, cycle);
    }
  }

  /** A completed state phase leaves a state of its list served locally when it was
      served before or its reply carries a record for one of its offices. */
  lemma {:induction false} StatesPhaseServes(api: Api, dflt: nat, s: Session, codes: seq<string>,
                                             code: string)
    requires StatesPhase(api, dflt, s, codes).1.Done?
    requires code in codes
    requires RosterHit(s.roster, code) || ServesState(api, code)
    ensures RosterHit(StatesPhase(api, dflt, s, codes).0.roster, code)
    decreases |codes|
  {
    var r := StateStep(api, dflt, s, codes[0]);
    var fin := StatesPhase(api, dflt, r.0, codes[1..]).0;
    StateStepGrows(api, dflt, s, codes[0]);
    if code == codes[0] {
      StateStepServes(api, dflt, s, code);
      StatesPhaseGrows(api, dflt, r.0, codes[1..]);
      RosterHitsPersist(r.0, fin, code);
    } else {
      assert codes == [codes[0]] + codes[1..];
      RosterHitsPersist(s, r.0, code);
      StatesPhaseServes(api, dflt, r.0, codes[1..], code);
    }
  }

  /** A completed sector phase leaves a pair of its list served locally when it was
      served before or its id is non-null and its reply successful. */
  lemma {:induction false} SectorsPhaseServes(api: Api, dflt: nat, s: Session, keys: seq<SectorKey>,
                                              key: SectorKey)
    requires SectorsPhase(api, dflt, s, keys).1.Done?
    requires key in keys
    requires SectorHit(s.sectors, key.1, key.0) || (key.1 != Null && api.sector(key.1, key.0).Ok?)
    ensures SectorHit(SectorsPhase(api, dflt, s, keys).0.sectors, key.1, key.0)
    decreases |keys|
  {
    var r := SectorStep(api, dflt, s, keys[0].1, keys[0].0);
    var fin := SectorsPhase(api, dflt, r.0, keys[1..]).0;
    SectorStepGrows(api, dflt, s, keys[0].1, keys[0].0);
    if key == keys[0] {
      SectorStepServes(api, dflt, s, key.1, key.0);
      SectorsPhaseGrows(api, dflt, r.0, keys[1..]);
      SectorHitsPersist(r.0, fin, key.1, key.0);
    } else {
      assert keys == [keys[0]] + keys[1..];
      SectorHitsPersist(s, r.0, key.1, key.0);
      SectorsPhaseServes(api, dflt, r.0, keys[1..], key);
    }
  }

  /** Running again is idempotent: after a completed run in which every missed state got
      a record for one of its offices and every missed pair has a non-null id and a
      successful reply, a second run with the same settings completes without a remote
      call and changes nothing but the units considered. */
  lemma RunIdempotent(api: Api, dflt: nat, cycles: seq<int>, codes: seq<string>,
                      pols: Selector<Cell>, s: Session)
    requires Run(api, dflt, cycles, codes, pols, s).1 == Done
    requires forall c :: c in codes ==> RosterHit(s.roster, c) || ServesState(api, c)
    requires forall k :: k in Units(cycles, Politicians(pols, StatesPhase(api, dflt, s, codes).0.roster)) ==>
               SectorHit(s.sectors, k.1, k.0) || (k.1 != Null && api.sector(k.1, k.0).Ok?)
    ensures var s1 := Run(api, dflt, cycles, codes, pols, s).0;
            var (s2, st2) := Run(api, dflt, cycles, codes, pols, s1);
            st2 == Done && s2 == s1.(visited := s2.visited)
  {
    var mid := StatesPhase(api, dflt, s, codes).0;
    var keys := Units(cycles, Politicians(pols, mid.roster));
    var s1 := SectorsPhase(api, dflt, mid, keys).0;
    forall c | c in codes
      ensures RosterHit(s1.roster, c)
    {
      StatesPhaseServes(api, dflt, s, codes, c);
    }
    StatesPhaseAllHits(api, dflt, s1, codes);
    var mid2 := StatesPhase(api, dflt, s1, codes).0;
    forall k | k in keys
      ensures SectorHit(mid2.sectors, k.1, k.0)
    {
      SectorsPhaseServes(api, dflt, mid, keys, k);
    }
    SectorsPhaseAllHits(api, dflt, mid2, keys);
  }

  // ---------------------------------------------------------------------------------
  // The remote calls of a phase and the backoff rule

  /** The outcome of the remote call a roster unit makes (none on a hit). */
  function StateCalls(api: Api, s: Session, code: string): seq<bool>
  {
    if RosterHit(s.roster, code) then [] else [api.candidates(code).Ok?]
  }

  function SectorCalls(api: Api, s: Session, cid: Cell, cycle: int): seq<bool>
  {
    if SectorHit(s.sectors, cid, cycle) then [] else [api.sector(cid, cycle).Ok?]
  }

  /** The outcomes of the remote calls of a state phase, in order. */
  function StatesPhaseCalls(api: Api, dflt: nat, s: Session, codes: seq<string>): seq<bool>
    decreases |codes|
  {
    if codes == [] then []
    else
      var r := StateStep(api, dflt, s, codes[0]);
      StateCalls(api, s, codes[0])
        + (if r.1.Crashed? then [] else StatesPhaseCalls(api, dflt, r.0, codes[1..]))
  }

  function SectorsPhaseCalls(api: Api, dflt: nat, s: Session, keys: seq<SectorKey>): seq<bool>
    decreases |keys|
  {
    if keys == [] then []
    else
      var r := SectorStep(api, dflt, s, keys[0].1, keys[0].0);
      SectorCalls(api, s, keys[0].1, keys[0].0)
        + (if r.1.Crashed? then [] else SectorsPhaseCalls(api, dflt, r.0, keys[1..]))
  }

  /** The outcomes of the remote calls of a run, in order. */
  function RunCalls(api: Api, dflt: nat, cycles: seq<int>, codes: seq<string>,
                    pols: Selector<Cell>, s: Session): seq<bool>
  {
    var (mid, st) := StatesPhase(api, dflt, s, codes);
    var h := StatesPhaseCalls(api, dflt, s, codes);
    if st.Aborted? || (pols.All? && mid.roster.None?) then h
    else h + SectorsPhaseCalls(api, dflt, mid, Units(cycles, Politicians(pols, mid.roster)))
  }

  lemma StateStepBackoff(api: Api, dflt: nat, s: Session, code: string)
    ensures var s' := StateStep(api, dflt, s, code).0;
            var h := StateCalls(api, s, code);
            s'.wait == Backoff.After(s.wait, dflt, h) &&
            s'.sleeps == s.sleeps + Backoff.Waits(s.wait, dflt, h)
  {
    if !RosterHit(s.roster, code) {
      Backoff.OneCall(s.wait, dflt, api.candidates(code).Ok?);
    }
  }

  lemma SectorStepBackoff(api: Api, dflt: nat, s: Session, cid: Cell, cycle: int)
    ensures var s' := SectorStep(api, dflt, s, cid, cycle).0;
            var h := SectorCalls(api, s, cid, cycle);
            s'.wait == Backoff.After(s.wait, dflt, h) &&
            s'.sleeps == s.sleeps + Backoff.Waits(s.wait, dflt, h)
  {
    if !SectorHit(s.sectors, cid, cycle) {
      Backoff.OneCall(s.wait, dflt, api.sector(cid, cycle).Ok?);
    }
  }

  /** The delay and sleeps of a session that followed the backoff rule over h0 and then
      over h1 are those of the rule over h0 + h1. */
  lemma BackoffChain(dflt: nat, s: Session, mid: Session, fin: Session, h0: seq<bool>, h1: seq<bool>)
    requires mid.wait == Backoff.After(s.wait, dflt, h0)
    requires mid.sleeps == s.sleeps + Backoff.Waits(s.wait, dflt, h0)
    requires fin.wait == Backoff.After(mid.wait, dflt, h1)
    requires fin.sleeps == mid.sleeps + Backoff.Waits(mid.wait, dflt, h1)
    ensures fin.wait == Backoff.After(s.wait, dflt, h0 + h1)
    ensures fin.sleeps == s.sleeps + Backoff.Waits(s.wait, dflt, h0 + h1)
  {
    Backoff.AfterAppend(s.wait, dflt, h0, h1);
    Backoff.WaitsAppend(s.wait, dflt, h0, h1);
  }

  /** Over a whole state phase the delay follows the backoff rule: after the phase it
      is the delay after the phase's call outcomes, and the call numbered i slept the
      delay after the first i outcomes. */
  lemma {:induction false} StatesPhaseBackoff(api: Api, dflt: nat, s: Session, codes: seq<string>)
    ensures var s' := StatesPhase(api, dflt, s, codes).0;
            var h := StatesPhaseCalls(api, dflt, s, codes);
            s'.wait == Backoff.After(s.wait, dflt, h) &&
            s'.sleeps == s.sleeps + Backoff.Waits(s.wait, dflt, h)
    decreases |codes|
  {
    if codes != [] {
      var r := StateStep(api, dflt, s, codes[0]);
      var h0 := StateCalls(api, s, codes[0]);
      StateStepBackoff(api, dflt, s, codes[0]);
      if r.1.Crashed? {
        assert h0 + [] == h0;
      } else {
        var h1 := StatesPhaseCalls(api, dflt, r.0, codes[1..]);
        StatesPhaseBackoff(api, dflt, r.0, codes[1..]);
        BackoffChain(dflt, s, r.0, StatesPhase(api, dflt, r.0, codes[1..]).0, h0, h1);
      }
    }
  }

  lemma {:induction false} SectorsPhaseBackoff(api: Api, dflt: nat, s: Session, keys: seq<SectorKey>)
    ensures var s' := SectorsPhase(api, dflt, s, keys).0;
            var h := SectorsPhaseCalls(api, dflt, s, keys);
            s'.wait == Backoff.After(s.wait, dflt, h) &&
            s'.sleeps == s.sleeps + Backoff.Waits(s.wait, dflt, h)
    decreases |keys|
  {
    if keys != [] {
      var r := SectorStep(api, dflt, s, keys[0].1, keys[0].0);
      var h0 := SectorCalls(api, s, keys[0].1, keys[0].0);
      SectorStepBackoff(api, dflt, s, keys[0].1, keys[0].0);
      if r.1.Crashed? {
        assert h0 + [] == h0;
      } else {
        var h1 := SectorsPhaseCalls(api, dflt, r.0, keys[1..]);
        SectorsPhaseBackoff(api, dflt, r.0, keys[1..]);
        BackoffChain(dflt, s, r.0, SectorsPhase(api, dflt, r.0, keys[1..]).0, h0, h1);
      }
    }
  }

  /** Over a whole run the delay follows the backoff rule across both phases. */
  lemma RunBackoff(api: Api, dflt: nat, cycles: seq<int>, codes: seq<string>, pols: Selector<Cell>,
                   s: Session)
    ensures var s' := Run(api, dflt, cycles, codes, pols, s).0;
            var h := RunCalls(api, dflt, cycles, codes, pols, s);
            s'.wait == Backoff.After(s.wait, dflt, h) &&
            s'.sleeps == s.sleeps + Backoff.Waits(s.wait, dflt, h)
  {
    var p := StatesPhase(api, dflt, s, codes);
    var h0 := StatesPhaseCalls(api, dflt, s, codes);
    StatesPhaseBackoff(api, dflt, s, codes);
    if p.1.Done? && !(pols.All? && p.0.roster.None?) {
      var keys := Units(cycles, Politicians(pols, p.0.roster));
      var h1 := SectorsPhaseCalls(api, dflt, p.0, keys);
      assert Run(api, dflt, cycles, codes, pols, s) == SectorsPhase(api, dflt, p.0, keys);
      assert RunCalls(api, dflt, cycles, codes, pols, s) == h0 + h1;
      SectorsPhaseBackoff(api, dflt, p.0, keys);
      BackoffChain(dflt, s, p.0, SectorsPhase(api, dflt, p.0, keys).0, h0, h1);
    } else {
      assert Run(api, dflt, cycles, codes, pols, s).0 == p.0;
      assert RunCalls(api, dflt, cycles, codes, pols, s) == h0;
    }
  }

  // ---------------------------------------------------------------------------------
  // No repeated sector rows

  /** Two rows of the sector table for the same (candidate, cycle, sector), the
      candidate id being non-null. */
  predicate SameEntry(a: Row, b: Row)
  {
    |a| == |SectorColumns| && |b| == |SectorColumns| && a[CidColumn] != Null &&
    a[CidColumn] == b[CidColumn] && a[CycleColumn] == b[CycleColumn] &&
    a[SectorIdColumn] == b[SectorIdColumn]
  }

  predicate NoRepeats(rows: seq<Row>)
  {
    forall i, j :: 0 <= i < j < |rows| ==> !SameEntry(rows[i], rows[j])
  }

  /** Every record of a sector reply names its sector, and no sector is listed twice. */
  predicate DistinctSectors(records: seq<Record>)
  {
    (forall i :: 0 <= i < |records| ==> "sectorid" in records[i].attributes) &&
    (forall i, j :: 0 <= i < j < |records| ==>
       records[i].attributes["sectorid"] != records[j].attributes["sectorid"])
  }

  predicate DistinctReply(api: Api, cid: Cell, cycle: int)
  {
    api.sector(cid, cycle).Ok? ==> DistinctSectors(api.sector(cid, cycle).value)
  }

  /** The rows stored for one pair carry its key and, when the reply lists each sector
      once, hold no repeated sector. */
  lemma SectorRowsNoRepeats(recs: seq<Record>, cid: Cell, cycle: int)
    requires DistinctSectors(recs)
    ensures NoRepeats(SectorRows(recs, cid, cycle))
    ensures forall row :: row in SectorRows(recs, cid, cycle) ==>
              |row| == |SectorColumns| && row[CidColumn] == cid && row[CycleColumn] == Num(cycle)
  {
    var t := SectorRows(recs, cid, cycle);
    forall i | 0 <= i < |t|
      ensures |t[i]| == |SectorColumns| && t[i][CidColumn] == cid && t[i][CycleColumn] == Num(cycle)
      ensures t[i][SectorIdColumn] == Text(recs[i].attributes["sectorid"])
    {
      SectorRowKey(recs[i], cid, cycle);
    }
  }

  /** Appending rows that all carry a key no existing row carries keeps the table free
      of repeats. */
  lemma AppendNoRepeats(prev: seq<Row>, rows: seq<Row>, cid: Cell, cycle: int)
    requires NoRepeats(prev) && NoRepeats(rows)
    requires forall row :: row in prev ==> !KeyMatches(row, cid, cycle)
    requires forall row :: row in rows ==> |row| > CycleColumn && row[CidColumn] == cid && row[CycleColumn] == Num(cycle)
    ensures NoRepeats(prev + rows)
  {
    var t := prev + rows;
    forall i, j | 0 <= i < j < |t|
      ensures !SameEntry(t[i], t[j])
    {
      if j < |prev| {
        assert t[i] == prev[i] && t[j] == prev[j];
      } else if i < |prev| {
        assert t[i] in prev && t[j] in rows;
      } else {
        assert t[i] == rows[i - |prev|] && t[j] == rows[j - |prev|];
      }
    }
  }

  /** The exact-key check keeps the sector table free of repeated (candidate, cycle,
      sector) rows: a pair is fetched only when no row carries it, and every row stored
      for it carries it. */
  lemma SectorStepNoRepeats(api: Api, dflt: nat, s: Session, cid: Cell, cycle: int)
    requires NoRepeats(Rows(s.sectors))
    requires DistinctReply(api, cid, cycle)
    ensures NoRepeats(Rows(SectorStep(api, dflt, s, cid, cycle).0.sectors))
  {
    var r := SectorStep(api, dflt, s, cid, cycle);
    if r.1 == Stored {
      var recs := api.sector(cid, cycle).value;
      assert Rows(r.0.sectors) == Rows(s.sectors) + SectorRows(recs, cid, cycle);
      SectorRowsNoRepeats(recs, cid, cycle);
      assert forall row :: row in Rows(s.sectors) ==> row in s.sectors.value;
      AppendNoRepeats(Rows(s.sectors), SectorRows(recs, cid, cycle), cid, cycle);
    }
  }

  lemma {:induction false} SectorsPhaseNoRepeats(api: Api, dflt: nat, s: Session, keys: seq<SectorKey>)
    requires NoRepeats(Rows(s.sectors))
    requires forall k :: k in keys ==> DistinctReply(api, k.1, k.0)
    ensures NoRepeats(Rows(SectorsPhase(api, dflt, s, keys).0.sectors))
    decreases |keys|
  {
    if keys != [] {
      assert keys[0] in keys;
      var r := SectorStep(api, dflt, s, keys[0].1, keys[0].0);
      SectorStepNoRepeats(api, dflt, s, keys[0].1, keys[0].0);
      if !r.1.Crashed? {
        assert forall k :: k in keys[1..] ==> k in keys;
        SectorsPhaseNoRepeats(api, dflt, r.0, keys[1..]);
      }
    }
  }

  /** Across a whole run, and so across runs, the sector table stays free of repeated
      rows when it starts so and every sector reply lists each sector once. */
  lemma RunNoRepeats(api: Api, dflt: nat, cycles: seq<int>, codes: seq<string>,
                     pols: Selector<Cell>, s: Session)
    requires NoRepeats(Rows(s.sectors))
    requires forall cid, cycle :: DistinctReply(api, cid, cycle)
    ensures NoRepeats(Rows(Run(api, dflt, cycles, codes, pols, s).0.sectors))
  {
    var (mid, st) := StatesPhase(api, dflt, s, codes);
    if st.Done? && !(pols.All? && mid.roster.None?) {
      SectorsPhaseNoRepeats(api, dflt, mid, Units(cycles, Politicians(pols, mid.roster)));
    }
  }
}
