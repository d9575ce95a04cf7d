/** The loader object (dataloader.py, class DataLoader): the delay and the two tables are
    fields its methods update in place, and each method is proved to follow the session
    functions of module Harvest. */
module Loader {
  import opened Schema
  import opened Harvest

  /** The states to harvest: the explicit list, or under 'All' the codes of the states
      table; 'All' without a states table is refused (ValueError). */
  function ResolveStates(states: Selector<string>, table: Option<seq<string>>): (r: Option<seq<string>>)
    ensures r.None? <==> states.All? && table.None?
    ensures states.Explicit? ==> r == Some(states.items)
    ensures states.All? && table.Some? ==> r == table
  {
    match states
    case All => table
    case Explicit(items) => Some(items)
  }

  /** The result of constructing a loader. */
  datatype Opened = Ready(loader: DataLoader) | ValueError

  class DataLoader {
    /** The remote source (the API client). */
    const api: Api
    const cycles: seq<int>
    const states: seq<string>
    const politicians: Selector<Cell>
    const defaultWait: nat

    /** The delay slept before the next remote call. */
    var wait: nat
    /** The delays slept so far, one per remote call, in order. */
    ghost var sleeps: seq<nat>
    /** The roster and sector tables in memory, absent until loaded or first fetched. */
    var roster: Option<seq<Row>>
    var sectors: Option<seq<Row>>
    /** The contents of the two table files. */
    var savedRoster: Option<seq<Row>>
    var savedSectors: Option<seq<Row>>
    /** The fetch units considered so far, in order. */
    ghost var visited: seq<FetchUnit>

    ghost function State(): Session
      reads this
    {
      Session(wait, sleeps, roster, savedRoster, sectors, savedSectors, visited)
    }

    /** Every table in memory is also on disk as it stands. */
    ghost predicate Valid()
      reads this
    {
      Mirrored(State())
    }

    /** A loader over tables loaded from their files (absent when there is no file), with
        the delay at its default. */
    constructor (api: Api, cycles: seq<int>, states: seq<string>, politicians: Selector<Cell>,
                 wait: nat, rosterFile: Option<seq<Row>>, sectorFile: Option<seq<Row>>)
      ensures Valid()
      ensures this.api == api && this.cycles == cycles && this.states == states
      ensures this.politicians == politicians
      ensures defaultWait == wait && this.wait == wait && sleeps == [] && visited == []
      ensures roster == rosterFile && sectors == sectorFile
    {
      this.api := api;
      this.cycles := cycles;
      this.states := states;
      this.politicians := politicians;
      defaultWait := wait;
      this.wait := wait;
      sleeps := [];
      roster, savedRoster := rosterFile, rosterFile;
      sectors, savedSectors := sectorFile, sectorFile;
      visited := [];
    }

    /** The most recent election year not after `year`. */
    static method LatestElectionCycle(year: int) returns (y: int)
      ensures y % 4 == 0 && y <= year && year - y < 4
    {
      y := year;
      while y % 4 != 0
        invariant year - year % 4 <= y <= year
        decreases y - (year - year % 4)
      {
        y := y - 1;
      }
    }

    /** Sleeps the current delay and passes the call's outcome through: a success
        restores the default delay, a failure doubles the delay and is re-raised. */
    method WrapCall<T>(reply: Fetch<T>) returns (r: Fetch<T>)
      modifies this`wait, this`sleeps
      ensures r == reply
      ensures sleeps == old(sleeps) + [old(wait)]
      ensures wait == (if reply.Ok? then defaultWait else 2 * old(wait))
    {
      sleeps := sleeps + [wait];
      if reply.Ok? {
        wait := defaultWait;
      } else {
        wait := wait * 2;
      }
      r := reply;
    }

    /** Ensures the roster holds the state `code` (see Harvest.StateStepCases). */
    method LoadStatePoliticians(code: string) returns (o: Outcome)
      requires Valid()
      modifies this`wait, this`sleeps, this`roster, this`savedRoster, this`visited
      ensures Valid()
      ensures (State(), o) == StateStep(api, defaultWait, old(State()), code)
      ensures o.Hit? <==> old(RosterHit(roster, code))
      ensures o == Stored ==> old(Rows(roster)) <= Rows(roster)
      ensures !o.Stored? ==> roster == old(roster) && savedRoster == old(savedRoster)
    {
      visited := visited + [StateUnit(code)];
      if RosterHit(roster, code) {
        return Hit;
      }
      var reply := WrapCall(api.candidates(code));
      if reply.Raised? {
        return Warned;
      }
      if EmptyReply(reply.value) {
        return Crashed(UnboundLocal);
      }
      var rows := PoliticiansInfoToRows(reply.value);
      if roster.None? {
        assert Rows(roster) + rows == rows;
        roster := Some(rows);
      } else {
        roster := Some(roster.value + rows);
      }
      savedRoster := roster;
      return Stored;
    }

    /** Ensures the sector table holds the pair (cid, cycle) (see Harvest.SectorStepCases). */
    method LoadPoliticianSectors(cid: Cell, cycle: int) returns (o: Outcome)
      requires Valid()
      modifies this`wait, this`sleeps, this`sectors, this`savedSectors, this`visited
      ensures Valid()
      ensures (State(), o) == SectorStep(api, defaultWait, old(State()), cid, cycle)
      ensures o.Hit? <==> old(SectorHit(sectors, cid, cycle))
      ensures o == Stored ==> old(Rows(sectors)) <= Rows(sectors)
      ensures !o.Stored? ==> sectors == old(sectors) && savedSectors == old(savedSectors)
    {
      visited := visited + [SectorUnit(cid, cycle)];
      if SectorHit(sectors, cid, cycle) {
        return Hit;
      }
      var reply := WrapCall(api.sector(cid, cycle));
      if reply.Raised? {
        return Warned;
      }
      if |reply.value| == 0 {
        return Crashed(UnboundLocal);
      }
      var rows := SectorInfoToRows(reply.value, cid, cycle);
      if sectors.None? {
        assert Rows(sectors) + rows == rows;
        sectors := Some(rows);
      } else {
        sectors := Some(sectors.value + rows);
      }
      savedSectors := sectors;
      return Stored;
    }

    /** The state phase, then the cycle x politician phase (see Harvest.RunFacts). */
    method Run() returns (st: Status)
      requires Valid()
      modifies this`wait, this`sleeps, this`roster, this`savedRoster
      modifies this`sectors, this`savedSectors, this`visited
      ensures Valid()
      ensures (State(), st) == Harvest.Run(api, defaultWait, cycles, states, politicians, old(State()))
      ensures old(Rows(roster)) <= Rows(roster) && old(Rows(sectors)) <= Rows(sectors)
      ensures old(sleeps) <= sleeps
    {
      RunFacts(api, defaultWait, cycles, states, politicians, State());
      var i := 0;
      while i < |states|
        invariant 0 <= i <= |states| && Valid()
        invariant StatesPhase(api, defaultWait, State(), states[i..])
               == StatesPhase(api, defaultWait, old(State()), states)
      {
        var o := LoadStatePoliticians(states[i]);
        assert states[i..][1..] == states[i + 1..];
        if o.Crashed? {
          return Aborted(o.fault);
        }
        i := i + 1;
      }
      ghost var mid := State();
      var pols: seq<Cell>;
      if politicians.All? {
        if roster.None? {
          return Aborted(NotSubscriptable);
        }
        pols := Cids(roster.value);
      } else {
        pols := politicians.items;
      }
      var keys := Units(cycles, pols);
      var j := 0;
      while j < |keys|
        invariant 0 <= j <= |keys| && Valid()
        invariant SectorsPhase(api, defaultWait, State(), keys[j..])
               == SectorsPhase(api, defaultWait, mid, keys)
      {
        var o := LoadPoliticianSectors(keys[j].1, keys[j].0);
        assert keys[j..][1..] == keys[j + 1..];
        if o.Crashed? {
          return Aborted(o.fault);
        }
        j := j + 1;
      }
      return Done;
    }
  }

  /** Constructs a loader: the cycles default to the latest election cycle of `year`, the
      states selector is resolved against the optional states table, and the roster and
      sector tables start from their files. */
  method Open(api: Api, year: int, cycles: Option<seq<int>>, states: Selector<string>,
              politicians: Selector<Cell>, wait: nat, statesFile: Option<seq<string>>,
              rosterFile: Option<seq<Row>>, sectorFile: Option<seq<Row>>) returns (r: Opened)
    ensures r.ValueError? <==> states.All? && statesFile.None?
    ensures r.Ready? ==> fresh(r.loader) && r.loader.Valid()
    ensures r.Ready? ==> r.loader.states == ResolveStates(states, statesFile).value
    ensures r.Ready? && cycles.Some? ==> r.loader.cycles == cycles.value
    ensures r.Ready? && cycles.None? ==>
              |r.loader.cycles| == 1 && r.loader.cycles[0] % 4 == 0 &&
              r.loader.cycles[0] <= year < r.loader.cycles[0] + 4
    ensures r.Ready? ==> r.loader.api == api && r.loader.politicians == politicians
    ensures r.Ready? ==> r.loader.defaultWait == wait && r.loader.wait == wait
    ensures r.Ready? ==> r.loader.sleeps == [] && r.loader.visited == []
    ensures r.Ready? ==> r.loader.roster == rosterFile && r.loader.sectors == sectorFile
  {
    var cs: seq<int>;
    if cycles.None? {
      var latest := DataLoader.LatestElectionCycle(year);
      cs := [latest];
    } else {
      cs := cycles.value;
    }
    var resolved := ResolveStates(states, statesFile);
    if resolved.None? {
      return ValueError;
    }
    var loader := new DataLoader(api, cs, resolved.value, politicians, wait, rosterFile, sectorFile);
    return Ready(loader);
  }
}
