/** Remote records, table rows and the projection of one onto the other
    (dataloader.py, politicians_info_to_df and sector_info_to_df). */
module Schema {

  datatype Option<T> = None | Some(value: T)

  /** A table cell: missing (null), a string, or an integer (the injected cycle). */
  datatype Cell = Null | Text(s: string) | Num(n: int)

  /** A table row: one cell per column of the table's fixed schema. */
  type Row = seq<Cell>

  /** A remote record; only its '@attributes' bag of string pairs is read. */
  datatype Record = Record(attributes: map<string, string>)

  /** The roster endpoint answers with one unwrapped record or with a list of them. */
  datatype RosterReply = Single(record: Record) | Many(records: seq<Record>)

  /** The roster table's 21 columns, in their persisted order. */
  const RosterFields: seq<string> := [
    "cid", "firstlast", "lastname", "party", "office", "gender", "firstelectoff",
    "exitcode", "comments", "phone", "fax", "website", "webform", "congress_office",
    "bioguide_id", "votesmart_id", "feccandid", "twitter_id", "youtube_url",
    "facebook_id", "birthdate"]

  /** The five value columns of a sector breakdown. */
  const SectorFields: seq<string> := ["sector_name", "sectorid", "indivs", "pacs", "total"]

  /** The sector table's 7 columns: the two key columns, then the value columns. */
  const SectorColumns: seq<string> := ["candidate_id", "cycle"] + SectorFields

  /** Positions of the columns the cache checks and the orchestrator read. */
  const CidColumn: nat := 0
  const OfficeColumn: nat := 4
  const CycleColumn: nat := 1
  const SectorIdColumn: nat := 3

  /** A record's attribute bag, as table cells. */
  function Bag(r: Record): map<string, Cell>
  {
    map k | k in r.attributes :: Text(r.attributes[k])
  }

  /** Projection of a bag onto a fixed list of columns: column k holds the bag's value
      for that name when there is one and null otherwise; names outside the list are
      dropped. */
  function Project(bag: map<string, Cell>, fields: seq<string>): (row: Row)
    ensures |row| == |fields|
    ensures forall k :: 0 <= k < |fields| ==>
              row[k] == (if fields[k] in bag then bag[fields[k]] else Null)
    decreases |fields|
  {
    if fields == [] then []
    else
      var name := fields[|fields| - 1];
      Project(bag, fields[..|fields| - 1]) + [if name in bag then bag[name] else Null]
  }

  /** The records of a roster reply, a single record being normalised into a list. */
  function Records(reply: RosterReply): seq<Record>
  {
    match reply
    case Single(r) => [r]
    case Many(rs) => rs
  }

  /** len(reply) == 0: only an empty list. A single record is a dictionary holding at
      least its '@attributes' entry, so its length is never zero. */
  predicate EmptyReply(reply: RosterReply)
  {
    reply.Many? && |reply.records| == 0
  }

  /** The roster rows built from a list of records: one row per record, in order. */
  function RosterRows(records: seq<Record>): seq<Row>
  {
    seq(|records|, i requires 0 <= i < |records| => Project(Bag(records[i]), RosterFields))
  }

  /** The attribute bag of a sector record after `candidate_id` and `cycle` have been
      written into it, overriding any remote attributes of the same names. */
  function SectorBag(r: Record, cid: Cell, cycle: int): map<string, Cell>
  {
    Bag(r)["candidate_id" := cid]["cycle" := Num(cycle)]
  }

  /** The sector rows built from a list of records for one (candidate, cycle) unit. */
  function SectorRows(records: seq<Record>, cid: Cell, cycle: int): seq<Row>
  {
    seq(|records|, i requires 0 <= i < |records| => Project(SectorBag(records[i], cid, cycle), SectorColumns))
  }

  /** Builds the roster rows of a reply, one record at a time. */
  method PoliticiansInfoToRows(info: RosterReply) returns (rows: seq<Row>)
    ensures rows == RosterRows(Records(info))
  {
    var records := Records(info);
    rows := [];
    for i := 0 to |records|
      invariant |rows| == i
      invariant forall k :: 0 <= k < i ==> rows[k] == Project(Bag(records[k]), RosterFields)
    {
      rows := rows + [Project(Bag(records[i]), RosterFields)];
    }
  }

  /** Builds the sector rows of one (candidate, cycle) unit, one record at a time. */
  method SectorInfoToRows(info: seq<Record>, cid: Cell, cycle: int) returns (rows: seq<Row>)
    ensures rows == SectorRows(info, cid, cycle)
  {
    rows := [];
    for i := 0 to |info|
      invariant |rows| == i
      invariant forall k :: 0 <= k < i ==> rows[k] == Project(SectorBag(info[k], cid, cycle), SectorColumns)
    {
      var d := SectorBag(info[i], cid, cycle);
      rows := rows + [Project(d, SectorColumns)];
    }
  }

  /** A roster reply of n records gives n rows; an unwrapped record gives one. */
  lemma RosterRowCount(info: RosterReply)
    ensures |RosterRows(Records(info))| == (if info.Single? then 1 else |info.records|)
  {
  }

  /** Roster projection: row i, in record order, has the 21 roster columns, holding the
      record's attribute where present and null where absent. */
  lemma RosterRowsShape(info: RosterReply, i: nat, k: nat)
    requires i < |Records(info)| && k < |RosterFields|
    ensures |RosterRows(Records(info))[i]| == 21
    ensures var a := Records(info)[i].attributes;
            RosterRows(Records(info))[i][k]
              == (if RosterFields[k] in a then Text(a[RosterFields[k]]) else Null)
  {
  }

  /** Attributes outside the column list do not reach the row: two bags that agree on
      the listed names project to the same row. */
  lemma ProjectDropsExtra(bag1: map<string, Cell>, bag2: map<string, Cell>, fields: seq<string>)
    requires forall f :: f in fields ==> (f in bag1 <==> f in bag2)
    requires forall f :: f in fields && f in bag1 ==> bag1[f] == bag2[f]
    ensures Project(bag1, fields) == Project(bag2, fields)
  {
    var r1, r2 := Project(bag1, fields), Project(bag2, fields);
    forall k | 0 <= k < |fields|
      ensures r1[k] == r2[k]
    {
      assert fields[k] in fields;
    }
  }

  /** The key cells of a sector row: the unit's candidate id and cycle, and the
      record's sector id or null. */
  lemma SectorRowKey(r: Record, cid: Cell, cycle: int)
    ensures var row := Project(SectorBag(r, cid, cycle), SectorColumns);
            |row| == |SectorColumns| && row[CidColumn] == cid && row[CycleColumn] == Num(cycle) &&
            row[SectorIdColumn] == (if "sectorid" in r.attributes then Text(r.attributes["sectorid"]) else Null)
  {
    assert SectorColumns[SectorIdColumn] == "sectorid";
  }

  /** Sector projection: each row has 7 columns, begins with the unit's candidate id and
      cycle whatever the record says under those names, and then holds the five sector
      fields of the record, or null where absent. */
  lemma SectorRowShape(r: Record, cid: Cell, cycle: int)
    ensures var row := Project(SectorBag(r, cid, cycle), SectorColumns);
            |row| == 7 && row[CidColumn] == cid && row[CycleColumn] == Num(cycle) &&
            forall k :: 0 <= k < 5 ==>
              row[2 + k] == (if SectorFields[k] in r.attributes
                             then Text(r.attributes[SectorFields[k]]) else Null)
  {
    var row := Project(SectorBag(r, cid, cycle), SectorColumns);
    forall k | 0 <= k < 5
      ensures row[2 + k] == (if SectorFields[k] in r.attributes
                             then Text(r.attributes[SectorFields[k]]) else Null)
    {
      assert SectorColumns[2 + k] == SectorFields[k];
      assert SectorFields[k] != "candidate_id" && SectorFields[k] != "cycle";
    }
  }
}
