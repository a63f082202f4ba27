// The volume registry's single-row writes, conditional and unconditional, as the
// manager and the monitor issue them, and the graph registry's routing write.

module Registry {
  import opened Basics

  type Volume = string
  type Instance = string
  type Database = string

  const UNATTACHED: Instance := "unattached"
  const STALE_CLAIM_SECONDS := 900
  const ORPHAN_SECONDS := 86400

  // Other covers a missing or unknown status attribute.
  datatype Status = Available | Claiming | Attaching | Attached | Expanding | Detaching | Other

  datatype Row = Row(
    status: Status,
    instance: Instance,
    az: string,
    tier: string,
    databases: seq<Database>,
    claimedAt: Option<int>,
    lastDetached: Option<int>)

  type Rows = map<Volume, Row>

  // EC2's view: each existing volume and the one instance it is attached to.
  type Attachments = map<Volume, Option<Instance>>

  // The graph registry: where each graph's queries go.
  type Routes = map<Database, Instance>

  // An update of a missing row creates it with only the attributes it sets.
  const BLANK := Row(Other, "", "", "", [], None, None)

  function RowOf(rows: Rows, v: Volume): Row { if v in rows then rows[v] else BLANK }

  predicate Claimable(rows: Rows, v: Volume) { v in rows && rows[v].status == Available }

  function ClaimWrite(rows: Rows, v: Volume, i: Instance, now: int): Rows {
    if Claimable(rows, v)
    then rows[v := rows[v].(status := Claiming, instance := i, claimedAt := Some(now))]
    else rows
  }

  predicate HoldsClaim(rows: Rows, v: Volume, i: Instance) {
    v in rows && rows[v].status == Claiming && rows[v].instance == i
  }

  function ReleaseWrite(rows: Rows, v: Volume, i: Instance): Rows {
    if HoldsClaim(rows, v, i) then rows[v := rows[v].(status := Available, claimedAt := None)] else rows
  }

  predicate StaleClaim(rows: Rows, v: Volume, cutoff: int) {
    v in rows && rows[v].status == Claiming && rows[v].claimedAt.Some? && rows[v].claimedAt.value < cutoff
  }

  function SweepWrite(rows: Rows, v: Volume, cutoff: int): Rows {
    if StaleClaim(rows, v, cutoff) then rows[v := rows[v].(status := Available, claimedAt := None)] else rows
  }

  /** The list an attach registers: what the row already carries, else the caller's. */
  function FinalDatabases(rows: Rows, v: Volume, caller: seq<Database>): seq<Database> {
    if RowOf(rows, v).databases != [] then RowOf(rows, v).databases else caller
  }

  function AttachWrite(rows: Rows, v: Volume, i: Instance, databases: seq<Database>): Rows {
    rows[v := RowOf(rows, v).(status := Attached, instance := i, databases := databases)]
  }

  /** A row is freed with a list read earlier. */
  function FreeWrite(rows: Rows, v: Volume, databases: seq<Database>, now: int): Rows {
    rows[v := RowOf(rows, v).(status := Available, instance := UNATTACHED, lastDetached := Some(now),
                              databases := databases)]
  }

  /** A detach writes back the list it reads. */
  function DetachWrite(rows: Rows, v: Volume, now: int): Rows {
    FreeWrite(rows, v, RowOf(rows, v).databases, now)
  }

  function ExpandWrite(rows: Rows, v: Volume): Rows {
    rows[v := RowOf(rows, v).(status := Expanding)]
  }

  function MarkAttachedWrite(rows: Rows, v: Volume): Rows {
    if v in rows && rows[v].status == Expanding then rows[v := rows[v].(status := Attached)] else rows
  }

  function SyncRenameWrite(rows: Rows, v: Volume, i: Instance): Rows {
    rows[v := RowOf(rows, v).(instance := i)]
  }

  /** A recovery rebuilds a row from the volume's tags. */
  function RecoverWrite(rows: Rows, v: Volume, database: Database, az: string, tier: string): Rows {
    rows[v := Row(Available, UNATTACHED, az, tier, [database], None, None)]
  }

  /** The allocator adds a database to the end of the list, unless it is there. */
  function AppendWrite(rows: Rows, v: Volume, database: Database): Rows {
    var databases := RowOf(rows, v).databases;
    if database in databases then rows else rows[v := RowOf(rows, v).(databases := databases + [database])]
  }

  function Without(databases: seq<Database>, database: Database): (rest: seq<Database>)
    ensures forall db :: db in rest <==> db in databases && db != database
  {
    if databases == [] then []
    else (if databases[0] == database then [] else [databases[0]]) + Without(databases[1..], database)
  }

  /** The allocator removes a database by writing the list it read without it, if the row
      still lists the database. */
  function RemoveWrite(rows: Rows, v: Volume, database: Database, read: seq<Database>): Rows {
    if v in rows && database in rows[v].databases
    then rows[v := rows[v].(databases := Without(read, database))]
    else rows
  }

  predicate Orphaned(rows: Rows, v: Volume, now: int) {
    && v in rows && rows[v].status == Available && rows[v].databases == []
    && rows[v].lastDetached.Some? && rows[v].lastDetached.value < now - ORPHAN_SECONDS
  }

  /** Subgraph ids live under their parent's registry entry. */
  predicate IsSubgraph(db: Database) { '_' in db && "kg" <= db }

  predicate Routable(routes: Routes, db: Database) { db in routes && !IsSubgraph(db) }

  function RouteWrite(routes: Routes, db: Database, i: Instance): Routes {
    if Routable(routes, db) then routes[db := i] else routes
  }
}
