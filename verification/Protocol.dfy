// Concurrent launches, recoveries, sweeps, detaches, expansions, syncs, cleanups and list
// edits over the two registries, interleaved at single reads and writes. EC2's single
// attachment is the one rule assumed of the environment.

module Protocol {
  import opened Basics
  import opened Registry

  type LaunchId = nat

  // How far a launch that works on a volume has come: it has created the volume but not
  // its row, it has claimed or created it, EC2 has accepted the attach, it has read the
  // row's databases, it has written `attached` and is routing the rest of the list.
  // Outdated marks, for the proofs, a launch whose volume was detached while it was
  // routing; it goes on all the same.
  datatype Phase =
    | Creating
    | Holding
    | Accepted
    | Ready(databases: seq<Database>)
    | Routing(pending: seq<Database>)
    | Outdated(pending: seq<Database>)

  // `claimedAt` is None for a launch that created its volume.
  datatype Launch = Launch(
    instance: Instance, volume: Volume, claimedAt: Option<int>, caller: seq<Database>, phase: Phase)

  type TaskId = nat

  // What a recovery, a round of the monitor's status sync, a detach, the health check's
  // release of a dead instance's volumes or the removal of a database knows of a volume
  // between its reads and the write it makes on them. Recovery: EC2 has it available; it
  // has no row. Sync: the row it scanned. Detach: the list it read. Then what is decided -
  // to drop the row, to free it with the list read, to name another instance, or to write
  // the list read without a database.
  datatype Task =
    | Found(volume: Volume)
    | Rowless(volume: Volume)
    | Scanned(volume: Volume, row: Row)
    | Parting(volume: Volume, databases: seq<Database>)
    | Dropping(volume: Volume)
    | Freeing(volume: Volume, databases: seq<Database>)
    | Renaming(volume: Volume, instance: Instance)
    | Removing(volume: Volume, database: Database, databases: seq<Database>)

  // `draining`: volumes EC2 is letting go of. `held`: volumes marked attached by a launch,
  // and to which instance, until EC2 starts to let go. `routed`: those whose launch went
  // through the whole list. `doomed`: volumes a cleanup has scanned and may delete. `gone`:
  // those it has deleted from EC2 but not yet from the registry. `known`: ids ever handed
  // out.
  datatype State = State(
    now: int,
    rows: Rows,
    ec2: Attachments,
    draining: set<Volume>,
    routes: Routes,
    live: map<LaunchId, Launch>,
    tasks: map<TaskId, Task>,
    held: map<Volume, Instance>,
    routed: set<Volume>,
    doomed: set<Volume>,
    gone: set<Volume>,
    known: set<Volume>)

  datatype Step =
    | Tick(seconds: nat)
    | Claim(launch: LaunchId, instance: Instance, volume: Volume, caller: seq<Database>)
    | Create(launch: LaunchId, instance: Instance, volume: Volume, caller: seq<Database>)
    | Register(launch: LaunchId, az: string, tier: string)
    | Accept(launch: LaunchId)
    | ReadDatabases(launch: LaunchId)
    | WriteAttached(launch: LaunchId)
    | Route(launch: LaunchId)
    | Fail(launch: LaunchId)
    | Die(launch: LaunchId)
    | Sweep(volume: Volume, cutoff: int)
    | Detach(volume: Volume)
    | Ends(volume: Volume)
    | Drained(volume: Volume)
    | Expand(volume: Volume)
    | MarkAttached(volume: Volume)
    | SyncScan(task: TaskId, volume: Volume)
    | SyncDescribe(task: TaskId, gone: bool)
    | DetachRead(task: TaskId, volume: Volume)
    | DetachAccept(task: TaskId, volume: Volume)
    | DetachForce(task: TaskId)
    | LateWrite(task: TaskId)
    | RecoverFind(task: TaskId, volume: Volume)
    | RecoverCheck(task: TaskId)
    | RecoverPut(task: TaskId, database: Database, az: string, tier: string)
    | CleanupScan(scanned: set<Volume>)
    | CleanupDelete(volume: Volume)
    | CleanupForget(volume: Volume)
    | Append(volume: Volume, database: Database)
    | RemoveRead(task: TaskId, volume: Volume, database: Database)
    | Remove(task: TaskId, volume: Volume, database: Database)
    | ReleaseScan(task: TaskId, volume: Volume)

  /** The launch has written `attached`; what is left is routing, whose errors it swallows. */
  predicate PastWrite(x: Launch) { x.phase.Routing? || x.phase.Outdated? }

  /** The launch is between EC2's acceptance and its own write. */
  predicate BeforeWrite(x: Launch) { x.phase.Accepted? || x.phase.Ready? }

  predicate MidAttach(s: State, l: LaunchId, v: Volume) {
    l in s.live && s.live[l].volume == v && BeforeWrite(s.live[l])
  }

  // A launch's own steps; those of recoveries, the status sync and interrupted detaches;
  // those of the allocator and the health check; and the rest.
  predicate IsLaunchStep(step: Step) {
    step.Claim? || step.Create? || step.Register? || step.Accept? || step.ReadDatabases?
    || step.WriteAttached? || step.Route? || step.Fail? || step.Die?
  }

  predicate IsTaskStep(step: Step) {
    step.SyncScan? || step.SyncDescribe? || step.DetachRead? || step.DetachAccept? || step.DetachForce?
    || step.LateWrite? || step.RecoverFind? || step.RecoverCheck? || step.RecoverPut?
  }

  predicate IsListStep(step: Step) { step.Append? || step.RemoveRead? || step.Remove? || step.ReleaseScan? }

  predicate IsTableStep(step: Step) { !IsLaunchStep(step) && !IsTaskStep(step) && !IsListStep(step) }

  predicate LaunchEnabled(s: State, step: Step)
    requires IsLaunchStep(step)
  {
    match step
    case Claim(l, _, v, _) => l !in s.live && Claimable(s.rows, v)
    case Create(l, _, v, _) => l !in s.live && v !in s.known
    case Register(l, _, _) => l in s.live && s.live[l].phase.Creating?
    case Accept(l) =>
      l in s.live && s.live[l].phase.Holding? && s.live[l].volume in s.ec2 && s.ec2[s.live[l].volume] == None
    case ReadDatabases(l) => l in s.live && s.live[l].phase.Accepted?
    case WriteAttached(l) => l in s.live && s.live[l].phase.Ready?
    case Route(l) => l in s.live && PastWrite(s.live[l])
    case Fail(l) => l in s.live && !PastWrite(s.live[l])
    case Die(l) => l in s.live
  }

  predicate TaskEnabled(s: State, step: Step)
    requires IsTaskStep(step)
  {
    match step
    case SyncScan(k, v) => k !in s.tasks && v in s.rows && s.rows[v].status != Available
    case SyncDescribe(k, _) => k in s.tasks && s.tasks[k].Scanned?
    case DetachRead(k, v) => k !in s.tasks && v in s.known
    case DetachAccept(k, v) =>
      k in s.tasks && s.tasks[k].Parting? && s.tasks[k].volume == v && v in s.ec2 && s.ec2[v] != None
    case DetachForce(k) => k in s.tasks && s.tasks[k].Parting?
    case LateWrite(k) => k in s.tasks && (s.tasks[k].Dropping? || s.tasks[k].Freeing? || s.tasks[k].Renaming?)
    case RecoverFind(k, v) => k !in s.tasks && v in s.ec2 && s.ec2[v] == None
    case RecoverCheck(k) => k in s.tasks && s.tasks[k].Found?
    case RecoverPut(k, _, _, _) => k in s.tasks && s.tasks[k].Rowless?
  }

  predicate TableEnabled(s: State, step: Step)
    requires IsTableStep(step)
  {
    match step
    case Tick(_) => true
    case Sweep(_, cutoff) => cutoff <= s.now - STALE_CLAIM_SECONDS
    case Detach(v) => v in s.known
    case Ends(v) => v in s.ec2 && s.ec2[v] != None
    case Drained(v) => v in s.draining
    case Expand(v) => v in s.ec2
    case MarkAttached(_) => true
    case CleanupScan(scanned) => forall v :: v in scanned ==> Orphaned(s.rows, v, s.now)
    case CleanupDelete(v) => v in s.doomed && v in s.ec2 && s.ec2[v] == None
    case CleanupForget(v) => v in s.gone
  }

  predicate ListEnabled(s: State, step: Step)
    requires IsListStep(step)
  {
    match step
    case Append(v, _) => v in s.known
    case RemoveRead(k, v, db) =>
      k !in s.tasks && v in s.rows && s.rows[v].status == Attached && db in s.rows[v].databases
    case Remove(k, v, db) =>
      k in s.tasks && s.tasks[k].Removing? && s.tasks[k].volume == v && s.tasks[k].database == db
    case ReleaseScan(k, v) => k !in s.tasks && v in s.rows
  }

  predicate Enabled(s: State, step: Step) {
    if IsLaunchStep(step) then LaunchEnabled(s, step)
    else if IsTaskStep(step) then TaskEnabled(s, step)
    else if IsListStep(step) then ListEnabled(s, step)
    else TableEnabled(s, step)
  }

  function Advance(x: Launch): (next: Launch)
    requires PastWrite(x) && x.phase.pending != []
    ensures PastWrite(next) && next.volume == x.volume && next.phase.Outdated? == x.phase.Outdated?
  {
    x.(phase := if x.phase.Routing? then Routing(x.phase.pending[1..]) else Outdated(x.phase.pending[1..]))
  }

  function Outdate(x: Launch, v: Volume): (next: Launch)
    ensures next.volume == x.volume && BeforeWrite(next) == BeforeWrite(x) && PastWrite(next) == PastWrite(x)
  {
    if x.volume == v && x.phase.Routing? then x.(phase := Outdated(x.phase.pending)) else x
  }

  function FreeInEc2(s: State, v: Volume): State {
    s.(ec2 := if v in s.ec2 then s.ec2[v := None] else s.ec2, draining := s.draining - {v})
  }

  /** EC2 starts to let the volume go: whoever marked it attached no longer holds it. */
  function LetGo(s: State, v: Volume): State {
    s.(live := map l | l in s.live :: Outdate(s.live[l], v), held := s.held - {v}, routed := s.routed - {v},
       draining := s.draining + {v})
  }

  /** What the status sync makes of a scanned row once EC2 is asked. `gone`: EC2 no longer
      knows the instance the row named, or reports it terminated. */
  function Decide(tasks: map<TaskId, Task>, k: TaskId, v: Volume, row: Row, ec2: Attachments, gone: bool)
    : map<TaskId, Task>
  {
    if v !in ec2 then tasks[k := Dropping(v)]
    else if row.status != Attached then tasks - {k}
    else if ec2[v] == None then tasks[k := Freeing(v, row.databases)]
    else if ec2[v].value != row.instance && gone then tasks[k := Renaming(v, ec2[v].value)]
    else tasks - {k}
  }

  function DecidedWrite(rows: Rows, task: Task, now: int): Rows {
    match task
    case Dropping(v) => rows - {v}
    case Freeing(v, databases) => FreeWrite(rows, v, databases, now)
    case Renaming(v, i) => SyncRenameWrite(rows, v, i)
    case _ => rows
  }

  function LaunchNext(s: State, step: Step): State
    requires IsLaunchStep(step) && LaunchEnabled(s, step)
  {
    match step
    case Claim(l, i, v, caller) =>
      s.(rows := ClaimWrite(s.rows, v, i, s.now), live := s.live[l := Launch(i, v, Some(s.now), caller, Holding)])
    case Create(l, i, v, caller) =>
      s.(ec2 := s.ec2[v := None], known := s.known + {v},
         live := s.live[l := Launch(i, v, None, caller, Creating)])
    case Register(l, az, tier) =>
      var x := s.live[l];
      s.(rows := s.rows[x.volume := Row(Attaching, x.instance, az, tier, x.caller, None, None)],
         live := s.live[l := x.(phase := Holding)])
    case Accept(l) =>
      s.(ec2 := s.ec2[s.live[l].volume := Some(s.live[l].instance)],
         live := s.live[l := s.live[l].(phase := Accepted)])
    case ReadDatabases(l) =>
      s.(live := s.live[l := s.live[l].(phase := Ready(FinalDatabases(s.rows, s.live[l].volume, s.live[l].caller)))])
    case WriteAttached(l) =>
      var x := s.live[l];
      s.(rows := AttachWrite(s.rows, x.volume, x.instance, x.phase.databases),
         held := s.held[x.volume := x.instance],
         live := s.live[l := x.(phase := Routing(x.phase.databases))])
    case Route(l) =>
      var x := s.live[l];
      if x.phase.pending == []
      then s.(live := s.live - {l}, routed := if x.phase.Routing? then s.routed + {x.volume} else s.routed)
      else s.(routes := RouteWrite(s.routes, x.phase.pending[0], x.instance),
              live := s.live[l := Advance(x)])
    case Fail(l) =>
      var x := s.live[l];
      s.(rows := if x.claimedAt.Some? then ReleaseWrite(s.rows, x.volume, x.instance) else s.rows,
         live := s.live - {l})
    case Die(l) => s.(live := s.live - {l})
  }

  function TaskNext(s: State, step: Step): State
    requires IsTaskStep(step) && TaskEnabled(s, step)
  {
    match step
    case SyncScan(k, v) => s.(tasks := s.tasks[k := Scanned(v, s.rows[v])])
    case SyncDescribe(k, gone) => s.(tasks := Decide(s.tasks, k, s.tasks[k].volume, s.tasks[k].row, s.ec2, gone))
    case DetachRead(k, v) => s.(tasks := s.tasks[k := Parting(v, RowOf(s.rows, v).databases)])
    case DetachAccept(k, v) =>
      LetGo(s, v).(tasks := s.tasks[k := Freeing(v, s.tasks[k].databases)])
    case DetachForce(k) => s.(tasks := s.tasks[k := Freeing(s.tasks[k].volume, s.tasks[k].databases)])
    case LateWrite(k) => s.(rows := DecidedWrite(s.rows, s.tasks[k], s.now), tasks := s.tasks - {k})
    case RecoverFind(k, v) => s.(tasks := s.tasks[k := Found(v)])
    case RecoverCheck(k) =>
      var v := s.tasks[k].volume;
      s.(tasks := if v in s.rows then s.tasks - {k} else s.tasks[k := Rowless(v)])
    case RecoverPut(k, db, az, tier) =>
      s.(rows := RecoverWrite(s.rows, s.tasks[k].volume, db, az, tier), tasks := s.tasks - {k})
  }

  function TableNext(s: State, step: Step): State
    requires IsTableStep(step) && TableEnabled(s, step)
  {
    match step
    case Tick(seconds) => s.(now := s.now + seconds)
    case Sweep(v, cutoff) => s.(rows := SweepWrite(s.rows, v, cutoff))
    case Detach(v) => FreeInEc2(LetGo(s, v), v).(rows := DetachWrite(s.rows, v, s.now))
    case Ends(v) => LetGo(s, v)
    case Drained(v) => FreeInEc2(s, v)
    case Expand(v) => s.(rows := ExpandWrite(s.rows, v))
    case MarkAttached(v) => s.(rows := MarkAttachedWrite(s.rows, v))
    case CleanupScan(scanned) => s.(doomed := s.doomed + scanned)
    case CleanupDelete(v) => s.(ec2 := s.ec2 - {v}, doomed := s.doomed - {v}, gone := s.gone + {v})
    case CleanupForget(v) => s.(rows := s.rows - {v}, gone := s.gone - {v})
  }

  function ListNext(s: State, step: Step): State
    requires IsListStep(step) && ListEnabled(s, step)
  {
    match step
    case Append(v, db) => s.(rows := AppendWrite(s.rows, v, db))
    case RemoveRead(k, v, db) => s.(tasks := s.tasks[k := Removing(v, db, s.rows[v].databases)])
    case Remove(k, v, db) => s.(rows := RemoveWrite(s.rows, v, db, s.tasks[k].databases), tasks := s.tasks - {k})
    case ReleaseScan(k, v) => s.(tasks := s.tasks[k := Freeing(v, s.rows[v].databases)])
  }

  function Next(s: State, step: Step): State
    requires Enabled(s, step)
  {
    if IsLaunchStep(step) then LaunchNext(s, step)
    else if IsTaskStep(step) then TaskNext(s, step)
    else if IsListStep(step) then ListNext(s, step)
    else TableNext(s, step)
  }

  ghost predicate Leads(s: State, step: Step, t: State) { Enabled(s, step) && t == Next(s, step) }

  lemma DetachReads(s: State, k: TaskId, v: Volume)
    requires k !in s.tasks && v in s.known
    ensures Leads(s, DetachRead(k, v), s.(tasks := s.tasks[k := Parting(v, RowOf(s.rows, v).databases)]))
  {
  }

  lemma DetachAccepted(s: State, read: State, k: TaskId, v: Volume, databases: seq<Database>)
    requires read == s.(tasks := s.tasks[k := Parting(v, databases)]) && v in s.ec2 && s.ec2[v] != None
    ensures Leads(read, DetachAccept(k, v), LetGo(s, v).(tasks := s.tasks[k := Freeing(v, databases)]))
  {
    hide LaunchEnabled, LaunchNext, TableEnabled, TableNext, ListEnabled, ListNext, Outdate;
  }

  lemma LateFrees(s: State, k: TaskId, v: Volume, databases: seq<Database>)
    requires k in s.tasks && s.tasks[k] == Freeing(v, databases)
    ensures Leads(s, LateWrite(k), s.(rows := FreeWrite(s.rows, v, databases, s.now), tasks := s.tasks - {k}))
  {
    hide LaunchEnabled, LaunchNext, TableEnabled, TableNext, ListEnabled, ListNext, FreeWrite;
  }

  lemma DetachDrained(s: State, accepted: State, v: Volume)
    requires v in s.known && accepted == LetGo(s, v).(tasks := accepted.tasks)
    ensures Leads(accepted, Drained(v), FreeInEc2(LetGo(s, v), v).(tasks := accepted.tasks))
    ensures Leads(s, Detach(v), FreeInEc2(LetGo(s, v), v).(rows := DetachWrite(s.rows, v, s.now)))
  {
    hide LaunchEnabled, LaunchNext, TaskEnabled, TaskNext, ListEnabled, ListNext, Outdate;
  }

  /** A detach that nothing interrupts is its read, EC2's acceptance and completion, and its
      write in a row. */
  lemma DetachInOnePiece(s: State, k: TaskId, v: Volume)
    returns (read: State, accepted: State, drained: State, t: State)
    requires k !in s.tasks && v in s.known && v in s.ec2 && s.ec2[v] != None
    ensures Leads(s, DetachRead(k, v), read) && Leads(read, DetachAccept(k, v), accepted)
    ensures Leads(accepted, Drained(v), drained) && Leads(drained, LateWrite(k), t)
    ensures Leads(s, Detach(v), t)
  {
    hide Leads, Outdate, FreeWrite;
    var databases := RowOf(s.rows, v).databases;
    read := s.(tasks := s.tasks[k := Parting(v, databases)]);
    accepted := LetGo(s, v).(tasks := s.tasks[k := Freeing(v, databases)]);
    drained := FreeInEc2(LetGo(s, v), v).(tasks := accepted.tasks);
    t := FreeInEc2(LetGo(s, v), v).(rows := DetachWrite(s.rows, v, s.now));
    DetachReads(s, k, v);
    DetachAccepted(s, read, k, v, databases);
    DetachDrained(s, accepted, v);
    LateFrees(drained, k, v, databases);
    assert accepted.tasks - {k} == s.tasks;
  }

  // ---------------------------------------------------------------------
  // Runs
  // ---------------------------------------------------------------------

  /** No launch is in flight; registry and EC2 may disagree in any way. */
  predicate Initial(s: State) {
    && s.live == map[] && s.tasks == map[] && s.held == map[] && s.routed == {} && s.doomed == {} && s.gone == {}
    && s.draining == {}
    && s.rows.Keys <= s.known && s.ec2.Keys <= s.known
  }

  predicate InUse(s: State, v: Volume) { v in s.rows && s.rows[v].status in {Attached, Expanding} }

  predicate NoneHolding(s: State, v: Volume) {
    forall l :: l in s.live && s.live[l].phase.Holding? ==> s.live[l].volume != v
  }

  /** No launch can mark the volume attached on the strength of what EC2 had before. */
  predicate SafeToFree(s: State, v: Volume) {
    && (forall l :: l in s.live ==> !MidAttach(s, l, v))
    && (InUse(s, v) ==> NoneHolding(s, v))
  }

  /** The volume is attached, and EC2 is not letting it go. */
  predicate Settled(s: State, v: Volume) { v in s.ec2 && s.ec2[v] != None && v !in s.draining }

  /** The row is in use already, or no launch is attaching the volume or can yet. */
  predicate SafeToExpand(s: State, v: Volume) {
    || InUse(s, v)
    || forall l :: l in s.live && s.live[l].volume == v ==>
         !BeforeWrite(s.live[l]) && (s.live[l].phase.Holding? ==> Settled(s, v))
  }

  /** Detaches go only to rows that are attached or expanding; EC2 lets a volume go before
      its row is written, and an expansion is written, only when that spares every launch
      that is attaching the volume or is yet to. */
  predicate SparesAttaches(s: State, step: Step) {
    && (step.Detach? ==> InUse(s, step.volume))
    && (step.DetachAccept? || step.Ends? ==> SafeToFree(s, step.volume))
    && (step.Expand? ==> SafeToExpand(s, step.volume))
  }

  /** An unconditional write decided on earlier reads - a recovery's put, a new volume's
      registration, the status sync's, an interrupted detach's - leaves volumes marked
      attached as they are. */
  predicate SparesHeld(s: State, step: Step)
    requires Enabled(s, step)
  {
    match step
    case Register(l, _, _) => s.live[l].volume !in s.held
    case RecoverPut(k, _, _, _) => s.tasks[k].volume !in s.held
    case LateWrite(k) =>
      (s.tasks[k].Freeing? ==> s.tasks[k].volume !in s.held)
      && (s.tasks[k].Renaming? && s.tasks[k].volume in s.held ==> s.held[s.tasks[k].volume] == s.tasks[k].instance)
    case _ => true
  }

  /** No launch is short of its own write on the volume. */
  predicate NoneShort(s: State, v: Volume) {
    forall l :: l in s.live && !PastWrite(s.live[l]) ==> s.live[l].volume != v
  }

  /** A row is made available, or marked as expanding, only when no launch is short of its own
      write on it. */
  predicate SparesLaunches(s: State, step: Step)
    requires Enabled(s, step)
  {
    match step
    case RecoverPut(k, _, _, _) => NoneShort(s, s.tasks[k].volume)
    case LateWrite(k) => s.tasks[k].Freeing? ==> NoneShort(s, s.tasks[k].volume)
    case Sweep(v, cutoff) => StaleClaim(s.rows, v, cutoff) ==> NoneShort(s, v)
    case Expand(v) => NoneShort(s, v)
    case _ => true
  }

  /** The list that a write decided on earlier reads puts in the row, and whose row it is. */
  function ListWritten(s: State, step: Step): Option<(Volume, seq<Database>)>
    requires Enabled(s, step)
  {
    match step
    case Register(l, _, _) => Some((s.live[l].volume, s.live[l].caller))
    case RecoverPut(k, db, _, _) => Some((s.tasks[k].volume, [db]))
    case LateWrite(k) =>
      if s.tasks[k].Freeing? then Some((s.tasks[k].volume, s.tasks[k].databases)) else None
    case _ => None
  }

  /** Such a list contains every database the row lists, but for one it is to remove. */
  predicate SparesLists(s: State, step: Step)
    requires Enabled(s, step)
  {
    var written := ListWritten(s, step);
    && (written.Some? ==> forall db :: db in RowOf(s.rows, written.value.0).databases ==> db in written.value.1)
    && (step.Remove? && step.database in RowOf(s.rows, step.volume).databases ==>
          forall db :: db in RowOf(s.rows, step.volume).databases && db != step.database ==>
            db in s.tasks[step.task].databases)
  }

  /** Every launch that has read the volume's list, and is about to write it, has read the
      database. */
  predicate ReadersKnow(s: State, v: Volume, db: Database) {
    forall l :: l in s.live && s.live[l].volume == v && s.live[l].phase.Ready? ==> db in s.live[l].phase.databases
  }

  /** A write puts no database in a row that a launch about to write the row has not read. */
  predicate SparesReaders(s: State, step: Step)
    requires Enabled(s, step)
  {
    var written := ListWritten(s, step);
    && (written.Some? ==> forall db :: db in written.value.1 ==> ReadersKnow(s, written.value.0, db))
    && (step.Append? ==> ReadersKnow(s, step.volume, step.database))
    && (step.Remove? && step.database in RowOf(s.rows, step.volume).databases ==>
          forall db :: db in s.tasks[step.task].databases && db != step.database ==> ReadersKnow(s, step.volume, db))
  }

  /** No database is listed by two volumes. */
  ghost predicate DisjointLists(s: State) {
    forall v, v', db :: v in s.rows && v' in s.rows && db in s.rows[v].databases && db in s.rows[v'].databases ==>
      v == v'
  }

  /** A detach finds no launch that still has an entry of the volume to route. */
  predicate NothingToRoute(s: State, v: Volume) {
    forall l :: l in s.live && s.live[l].volume == v && s.live[l].phase.Routing? ==>
      forall db :: db in s.live[l].phase.pending ==> !Routable(s.routes, db)
  }

  /** The volume's list has been routed, or is being. */
  predicate InRouting(s: State, v: Volume) {
    v in s.routed || exists l :: l in s.live && s.live[l].volume == v && s.live[l].phase.Routing?
  }

  /** The database's entry, if it has one, points where the volume's list is routed to. */
  predicate RoutedHere(s: State, v: Volume, db: Database) {
    v in s.held && InRouting(s, v) && Routable(s.routes, db) ==> s.routes[db] == s.held[v]
  }

  /** A routed list gains databases only where these are routed, and loses none that a launch
      still has to route. */
  predicate ListSparesRoutes(s: State, v: Volume, databases: seq<Database>) {
    && (forall db :: db in databases && db !in RowOf(s.rows, v).databases ==> RoutedHere(s, v, db))
    && forall l :: l in s.live && s.live[l].volume == v && s.live[l].phase.Routing? ==>
         forall db :: db in s.live[l].phase.pending && Routable(s.routes, db) ==> db in databases
  }

  /** Detaches wait for routing, and edits of a list leave routed entries right. */
  predicate SparesRoutes(s: State, step: Step)
    requires Enabled(s, step)
  {
    && (step.Detach? || step.DetachAccept? || step.Ends? ==> NothingToRoute(s, step.volume))
    && (step.Append? || step.Remove? ==>
          ListSparesRoutes(s, step.volume, RowOf(Next(s, step).rows, step.volume).databases))
  }

  // What a run is held to. Guarded: unconditional writes, and EC2, spare launches that are
  // attaching and, when they were decided on earlier, volumes marked attached. Sparing: and
  // launches short of their own write. Informed: and launches that have read a list. Tidy:
  // and lists are disjoint and spare routed entries, as detaches do. Keeping: late writes
  // spare the lists, and nothing else.
  datatype Regime = Guarded | Sparing | Informed | Tidy | Keeping

  ghost predicate Allowed(r: Regime, s: State, step: Step) {
    && Enabled(s, step)
    && (if r.Keeping? then SparesLists(s, step) else SparesAttaches(s, step) && SparesHeld(s, step))
    && (r.Sparing? ==> SparesLaunches(s, step))
    && (r.Informed? ==> SparesReaders(s, step))
    && (r.Tidy? ==> DisjointLists(s) && DisjointLists(Next(s, step)) && SparesRoutes(s, step))
  }

  /** The steps lead from one state to the other. Every beginning of a run is a run. */
  ghost predicate Run(r: Regime, s: State, steps: seq<Step>, t: State)
    decreases |steps|
  {
    if steps == [] then t == s
    else Allowed(r, s, steps[0]) && Run(r, Next(s, steps[0]), steps[1..], t)
  }

  ghost predicate Reachable(r: Regime, s: State, t: State) {
    exists steps :: Run(r, s, steps, t)
  }

  lemma {:induction false} RunSnoc(r: Regime, s: State, steps: seq<Step>, t: State, step: Step)
    requires Run(r, s, steps, t) && Allowed(r, t, step)
    ensures Run(r, s, steps + [step], Next(t, step))
    decreases |steps|
  {
    hide Enabled, Next, SparesAttaches, SparesHeld, SparesLaunches, SparesLists, SparesReaders, DisjointLists,
      SparesRoutes;
    if steps == [] {
      assert [step][1..] == [];
    } else {
      RunSnoc(r, Next(s, steps[0]), steps[1..], t, step);
      assert (steps + [step])[1..] == steps[1..] + [step];
    }
  }

  lemma ReachesSelf(r: Regime, s: State)
    ensures Reachable(r, s, s)
  {
    assert Run(r, s, [], s);
  }

  lemma StepReaches(r: Regime, start: State, s: State, step: Step) returns (next: State)
    requires Reachable(r, start, s) && Allowed(r, s, step)
    ensures next == Next(s, step) && Reachable(r, start, next)
  {
    hide Enabled, Next, SparesAttaches, SparesHeld, SparesLaunches, SparesLists, SparesReaders, DisjointLists,
      SparesRoutes, Run;
    var steps :| Run(r, start, steps, s);
    RunSnoc(r, start, steps, s, step);
    next := Next(s, step);
  }

  // ---------------------------------------------------------------------
  // Agreement with EC2
  // ---------------------------------------------------------------------

  predicate Agrees(s: State, v: Volume)
    requires v in s.held
  {
    && InUse(s, v) && s.rows[v].instance == s.held[v]
    && v in s.ec2 && s.ec2[v] == Some(s.held[v])
  }

  ghost predicate HeldAgree(s: State) {
    forall v :: v in s.held ==> Agrees(s, v)
  }

  predicate LaunchSound(s: State, l: LaunchId)
    requires l in s.live
  {
    var x := s.live[l];
    && (x.phase.Holding? && InUse(s, x.volume) ==> Settled(s, x.volume))
    && (BeforeWrite(x) ==>
          && x.volume in s.ec2 && s.ec2[x.volume] == Some(x.instance) && x.volume !in s.draining
          && x.volume !in s.held && !InUse(s, x.volume))
    && (x.phase.Routing? ==> x.volume in s.held && s.held[x.volume] == x.instance)
  }

  /** What every step keeps: ids are known, and what a cleanup deleted or a sync decided to
      drop is not in EC2. */
  ghost predicate Bookkeeping(s: State) {
    && s.rows.Keys <= s.known && s.ec2.Keys <= s.known && s.doomed <= s.known && s.gone <= s.known
    && s.gone !! s.ec2.Keys
    && (forall l :: l in s.live ==> s.live[l].volume in s.known)
    && (forall k :: k in s.tasks ==>
          s.tasks[k].volume in s.known && (s.tasks[k].Dropping? ==> s.tasks[k].volume !in s.ec2))
  }

  ghost predicate Agreement(s: State) {
    && Bookkeeping(s) && HeldAgree(s)
    && (forall l :: l in s.live ==> LaunchSound(s, l))
    && (forall l, l' :: l in s.live && l' in s.live && l != l' && s.live[l].volume == s.live[l'].volume ==>
          !BeforeWrite(s.live[l]) || !BeforeWrite(s.live[l']))
    && s.routed <= s.held.Keys && s.draining !! s.held.Keys
    && (forall v :: v in s.draining ==> v in s.ec2 && s.ec2[v] != None)
  }

  lemma StartKeepsBookkeeping(s: State, step: Step)
    requires Bookkeeping(s) && Enabled(s, step)
    requires step.Claim? || step.Create? || step.Register? || step.Accept?
    ensures Bookkeeping(Next(s, step))
  {
    hide TaskEnabled, TaskNext, TableEnabled, TableNext, ListEnabled, ListNext;
  }

  lemma LaunchKeepsBookkeeping(s: State, step: Step)
    requires Bookkeeping(s) && Enabled(s, step) && IsLaunchStep(step)
    ensures Bookkeeping(Next(s, step))
  {
    hide TaskEnabled, TaskNext, TableEnabled, TableNext, ListEnabled, ListNext, FinalDatabases, RouteWrite;
    if step.Claim? || step.Create? || step.Register? || step.Accept? {
      hide Bookkeeping, LaunchEnabled, LaunchNext;
      StartKeepsBookkeeping(s, step);
    }
  }

  lemma TaskKeepsBookkeeping(s: State, step: Step)
    requires Bookkeeping(s) && Enabled(s, step) && IsTaskStep(step)
    ensures Bookkeeping(Next(s, step))
  {
    hide LaunchEnabled, LaunchNext, TableEnabled, TableNext, ListEnabled, ListNext;
  }

  lemma TableKeepsBookkeeping(s: State, step: Step)
    requires Bookkeeping(s) && Enabled(s, step) && IsTableStep(step)
    ensures Bookkeeping(Next(s, step))
  {
    hide LaunchEnabled, LaunchNext, TaskEnabled, TaskNext, ListEnabled, ListNext;
  }

  lemma ListKeepsBookkeeping(s: State, step: Step)
    requires Bookkeeping(s) && Enabled(s, step) && IsListStep(step)
    ensures Bookkeeping(Next(s, step))
  {
    hide LaunchEnabled, LaunchNext, TaskEnabled, TaskNext, TableEnabled, TableNext;
  }

  lemma StepKeepsBookkeeping(s: State, step: Step)
    requires Bookkeeping(s) && Enabled(s, step)
    ensures Bookkeeping(Next(s, step))
  {
    hide Bookkeeping, Enabled, Next;
    if IsLaunchStep(step) {
      LaunchKeepsBookkeeping(s, step);
    } else if IsTaskStep(step) {
      TaskKeepsBookkeeping(s, step);
    } else if IsListStep(step) {
      ListKeepsBookkeeping(s, step);
    } else {
      TableKeepsBookkeeping(s, step);
    }
  }

  lemma InitialAgrees(s: State)
    requires Initial(s)
    ensures Agreement(s)
  {
  }

  /** The guard on a detach keeps it away from every launch between EC2's acceptance and
      its own write: the row of such a launch's volume is not in use. */
  lemma GuardedDetachFindsNoneMidAttach(s: State, v: Volume, l: LaunchId)
    requires Agreement(s) && SparesAttaches(s, Detach(v))
    ensures !MidAttach(s, l, v)
  {
    if l in s.live {
      assert LaunchSound(s, l);
    }
  }

  lemma FreeDetachKeepsLaunch(s: State, v: Volume, l: LaunchId)
    requires Agreement(s) && v in s.known && l in s.live && !MidAttach(s, l, v)
    ensures var next := Next(s, Detach(v)); l in next.live && LaunchSound(next, l)
  {
    hide LaunchNext, LaunchEnabled, TaskNext, TaskEnabled, ListEnabled, ListNext;
    assert LaunchSound(s, l);
    hide Agreement;
  }

  lemma FreeDetachKeepsAgreement(s: State, v: Volume)
    requires Agreement(s) && v in s.known
    requires forall l :: l in s.live ==> !MidAttach(s, l, v)
    ensures Agreement(Next(s, Detach(v)))
  {
    StepKeepsBookkeeping(s, Detach(v));
    hide LaunchNext, LaunchEnabled, TaskNext, TaskEnabled, ListEnabled, ListNext;
    var next := Next(s, Detach(v));
    forall l | l in next.live
      ensures LaunchSound(next, l)
    {
      FreeDetachKeepsLaunch(s, v, l);
    }
    hide LaunchSound;
    assert forall u :: u in next.held ==> u != v && Agrees(s, u);
  }

  lemma ClaimKeepsAgreement(s: State, step: Step)
    requires Agreement(s) && Enabled(s, step) && SparesAttaches(s, step) && SparesHeld(s, step)
    requires step.Claim?
    ensures Agreement(Next(s, step))
  {
    StepKeepsBookkeeping(s, step);
    hide TaskEnabled, TaskNext, TableEnabled, TableNext, ListEnabled, ListNext;
  }

  lemma CreateKeepsAgreement(s: State, step: Step)
    requires Agreement(s) && Enabled(s, step) && SparesAttaches(s, step) && SparesHeld(s, step)
    requires step.Create?
    ensures Agreement(Next(s, step))
  {
    StepKeepsBookkeeping(s, step);
    hide TaskEnabled, TaskNext, TableEnabled, TableNext, ListEnabled, ListNext;
  }

  lemma RegisterKeepsAgreement(s: State, step: Step)
    requires Agreement(s) && Enabled(s, step) && SparesAttaches(s, step) && SparesHeld(s, step)
    requires step.Register?
    ensures Agreement(Next(s, step))
  {
    StepKeepsBookkeeping(s, step);
    hide TaskEnabled, TaskNext, TableEnabled, TableNext, ListEnabled, ListNext;
  }

  lemma AcceptKeepsAgreement(s: State, step: Step)
    requires Agreement(s) && Enabled(s, step) && SparesAttaches(s, step) && SparesHeld(s, step)
    requires step.Accept? || step.ReadDatabases?
    ensures Agreement(Next(s, step))
  {
    StepKeepsBookkeeping(s, step);
    hide TaskEnabled, TaskNext, TableEnabled, TableNext, ListEnabled, ListNext;
  }

  lemma WriteKeepsLaunch(s: State, step: Step, l: LaunchId)
    requires Agreement(s) && Enabled(s, step) && step.WriteAttached? && l in s.live
    ensures l in Next(s, step).live && LaunchSound(Next(s, step), l)
  {
    assert LaunchSound(s, l) && LaunchSound(s, step.launch);
    hide HeldAgree;
  }

  lemma WriteKeepsAgreement(s: State, step: Step)
    requires Agreement(s) && Enabled(s, step) && SparesAttaches(s, step) && SparesHeld(s, step)
    requires step.WriteAttached?
    ensures Agreement(Next(s, step))
  {
    StepKeepsBookkeeping(s, step);
    hide TaskEnabled, TaskNext, TableEnabled, TableNext, ListEnabled, ListNext;
    assert LaunchSound(s, step.launch);
    forall l | l in Next(s, step).live
      ensures LaunchSound(Next(s, step), l)
    {
      WriteKeepsLaunch(s, step, l);
    }
    hide LaunchSound;
  }

  lemma EndKeepsAgreement(s: State, step: Step)
    requires Agreement(s) && Enabled(s, step) && SparesAttaches(s, step) && SparesHeld(s, step)
    requires step.Fail? || step.Die?
    ensures Agreement(Next(s, step))
  {
    StepKeepsBookkeeping(s, step);
    hide TaskEnabled, TaskNext, TableEnabled, TableNext, ListEnabled, ListNext;
  }

  lemma TaskKeepsAgreement(s: State, step: Step)
    requires Agreement(s) && Enabled(s, step) && SparesAttaches(s, step) && SparesHeld(s, step)
    requires step.SyncScan? || step.SyncDescribe? || step.RecoverFind? || step.RecoverCheck?
    ensures Agreement(Next(s, step))
  {
    StepKeepsBookkeeping(s, step);
    hide LaunchEnabled, LaunchNext, TableEnabled, TableNext, ListEnabled, ListNext;
  }

  lemma DetachTaskKeepsAgreement(s: State, step: Step)
    requires Agreement(s) && Enabled(s, step) && SparesAttaches(s, step) && SparesHeld(s, step)
    requires step.DetachRead? || step.DetachForce?
    ensures Agreement(Next(s, step))
  {
    StepKeepsBookkeeping(s, step);
    hide LaunchEnabled, LaunchNext, TableEnabled, TableNext, ListEnabled, ListNext;
  }

  /** EC2 starts to let a volume go while its row is still to be written: it has accepted a
      detach, or the instance the volume is attached to ends. */
  predicate Frees(step: Step) { step.DetachAccept? || step.Ends? }

  lemma LetGoKeepsLaunch(s: State, step: Step, l: LaunchId)
    requires Agreement(s) && Frees(step) && Enabled(s, step) && SafeToFree(s, step.volume) && l in s.live
    ensures l in Next(s, step).live && LaunchSound(Next(s, step), l)
  {
    hide Bookkeeping;
    hide LaunchNext, LaunchEnabled, ListEnabled, ListNext;
    assert LaunchSound(s, l) && !MidAttach(s, l, step.volume);
    hide Agreement;
  }

  lemma LetGoKeepsAgreement(s: State, step: Step)
    requires Agreement(s) && Frees(step) && Enabled(s, step) && SafeToFree(s, step.volume)
    ensures Agreement(Next(s, step))
  {
    hide LaunchNext, LaunchEnabled, ListEnabled, ListNext;
    StepKeepsBookkeeping(s, step);
    var next := Next(s, step);
    forall l | l in next.live
      ensures LaunchSound(next, l)
    {
      LetGoKeepsLaunch(s, step, l);
    }
    hide LaunchSound, SafeToFree, Bookkeeping;
    assert forall u :: u in next.held ==> u != step.volume && Agrees(s, u);
  }

  lemma LateKeepsAgreement(s: State, step: Step)
    requires Agreement(s) && Enabled(s, step) && SparesAttaches(s, step) && SparesHeld(s, step)
    requires step.LateWrite? || step.RecoverPut?
    ensures Agreement(Next(s, step))
  {
    StepKeepsBookkeeping(s, step);
    hide LaunchEnabled, LaunchNext, TableEnabled, TableNext, ListEnabled, ListNext;
  }

  lemma DetachKeepsAgreement(s: State, step: Step)
    requires Agreement(s) && Enabled(s, step) && SparesAttaches(s, step) && SparesHeld(s, step)
    requires step.Detach?
    ensures Agreement(Next(s, step))
  {
    hide Agreement, Next, LaunchSound;
    forall l | l in s.live
      ensures !MidAttach(s, l, step.volume)
    {
      GuardedDetachFindsNoneMidAttach(s, step.volume, l);
    }
    FreeDetachKeepsAgreement(s, step.volume);
  }

  lemma DrainedKeepsAgreement(s: State, step: Step)
    requires Agreement(s) && Enabled(s, step) && SparesAttaches(s, step) && SparesHeld(s, step)
    requires step.Drained?
    ensures Agreement(Next(s, step))
  {
    StepKeepsBookkeeping(s, step);
    hide LaunchEnabled, LaunchNext, TaskEnabled, TaskNext, ListEnabled, ListNext;
  }

  lemma TableKeepsAgreement(s: State, step: Step)
    requires Agreement(s) && Enabled(s, step) && SparesAttaches(s, step) && SparesHeld(s, step)
    requires step.Tick? || step.Sweep?
    ensures Agreement(Next(s, step))
  {
    StepKeepsBookkeeping(s, step);
    hide LaunchEnabled, LaunchNext, TaskEnabled, TaskNext, ListEnabled, ListNext;
  }

  lemma ExpandKeepsAgreement(s: State, step: Step)
    requires Agreement(s) && Enabled(s, step) && SparesAttaches(s, step) && SparesHeld(s, step)
    requires step.Expand? || step.MarkAttached?
    ensures Agreement(Next(s, step))
  {
    StepKeepsBookkeeping(s, step);
    hide LaunchEnabled, LaunchNext, TaskEnabled, TaskNext, ListEnabled, ListNext;
  }

  lemma EditKeepsAgreement(s: State, step: Step)
    requires Agreement(s) && Enabled(s, step) && SparesAttaches(s, step) && SparesHeld(s, step)
    requires step.Append? || step.Remove?
    ensures Agreement(Next(s, step))
  {
    StepKeepsBookkeeping(s, step);
    hide LaunchEnabled, LaunchNext, TaskEnabled, TaskNext, TableEnabled, TableNext;
  }

  lemma ReadKeepsAgreement(s: State, step: Step)
    requires Agreement(s) && Enabled(s, step) && SparesAttaches(s, step) && SparesHeld(s, step)
    requires step.RemoveRead? || step.ReleaseScan?
    ensures Agreement(Next(s, step))
  {
    StepKeepsBookkeeping(s, step);
    hide LaunchEnabled, LaunchNext, TaskEnabled, TaskNext, TableEnabled, TableNext;
  }

  lemma ScanKeepsAgreement(s: State, step: Step)
    requires Agreement(s) && Enabled(s, step) && SparesAttaches(s, step) && SparesHeld(s, step)
    requires step.CleanupScan?
    ensures Agreement(Next(s, step))
  {
    StepKeepsBookkeeping(s, step);
    hide LaunchEnabled, LaunchNext, TaskEnabled, TaskNext, ListEnabled, ListNext;
  }

  lemma CleanupKeepsAgreement(s: State, step: Step)
    requires Agreement(s) && Enabled(s, step) && SparesAttaches(s, step) && SparesHeld(s, step)
    requires step.CleanupDelete? || step.CleanupForget?
    ensures Agreement(Next(s, step))
  {
    StepKeepsBookkeeping(s, step);
    hide LaunchEnabled, LaunchNext, TaskEnabled, TaskNext, ListEnabled, ListNext;
  }

  lemma RouteOneKeepsAgreement(s: State, step: Step)
    requires Agreement(s) && Enabled(s, step) && SparesAttaches(s, step) && SparesHeld(s, step)
    requires step.Route? && s.live[step.launch].phase.pending != []
    ensures Agreement(Next(s, step))
  {
    StepKeepsBookkeeping(s, step);
    hide TaskEnabled, TaskNext, TableEnabled, TableNext, ListEnabled, ListNext;
  }

  lemma RouteLastKeepsAgreement(s: State, step: Step)
    requires Agreement(s) && Enabled(s, step) && SparesAttaches(s, step) && SparesHeld(s, step)
    requires step.Route? && s.live[step.launch].phase.pending == []
    ensures Agreement(Next(s, step))
  {
    StepKeepsBookkeeping(s, step);
    hide TaskEnabled, TaskNext, TableEnabled, TableNext, ListEnabled, ListNext;
  }

  lemma RouteKeepsAgreement(s: State, step: Step)
    requires Agreement(s) && Enabled(s, step) && SparesAttaches(s, step) && SparesHeld(s, step)
    requires step.Route?
    ensures Agreement(Next(s, step))
  {
    hide Agreement, Next;
    if s.live[step.launch].phase.pending != [] {
      RouteOneKeepsAgreement(s, step);
    } else {
      RouteLastKeepsAgreement(s, step);
    }
  }

  lemma StepKeepsAgreement(s: State, step: Step)
    requires Agreement(s) && Enabled(s, step) && SparesAttaches(s, step) && SparesHeld(s, step)
    ensures Agreement(Next(s, step))
  {
    hide Agreement, Enabled, Next, SafeToFree, SafeToExpand, SparesHeld;
    match step
    case Claim(_, _, _, _) => ClaimKeepsAgreement(s, step);
    case Create(_, _, _, _) => CreateKeepsAgreement(s, step);
    case Register(_, _, _) => RegisterKeepsAgreement(s, step);
    case Accept(_) | ReadDatabases(_) => AcceptKeepsAgreement(s, step);
    case WriteAttached(_) => WriteKeepsAgreement(s, step);
    case Route(_) => RouteKeepsAgreement(s, step);
    case Fail(_) | Die(_) => EndKeepsAgreement(s, step);
    case SyncScan(_, _) | SyncDescribe(_, _) | RecoverFind(_, _) | RecoverCheck(_) => TaskKeepsAgreement(s, step);
    case DetachRead(_, _) | DetachForce(_) => DetachTaskKeepsAgreement(s, step);
    case DetachAccept(_, _) | Ends(_) => LetGoKeepsAgreement(s, step);
    case LateWrite(_) | RecoverPut(_, _, _, _) => LateKeepsAgreement(s, step);
    case Detach(_) => DetachKeepsAgreement(s, step);
    case Drained(_) => DrainedKeepsAgreement(s, step);
    case Tick(_) | Sweep(_, _) => TableKeepsAgreement(s, step);
    case Expand(_) | MarkAttached(_) => ExpandKeepsAgreement(s, step);
    case Append(_, _) | Remove(_, _, _) => EditKeepsAgreement(s, step);
    case RemoveRead(_, _, _) | ReleaseScan(_, _) => ReadKeepsAgreement(s, step);
    case CleanupScan(_) => ScanKeepsAgreement(s, step);
    case CleanupDelete(_) | CleanupForget(_) => CleanupKeepsAgreement(s, step);
  }

  /** Whatever the interleaving, agreement is kept: in every state of every run each
      volume a launch marked attached agrees with EC2. */
  lemma {:induction false} RunKeepsAgreement(r: Regime, s: State, steps: seq<Step>, t: State)
    requires !r.Keeping? && Agreement(s) && Run(r, s, steps, t)
    ensures Agreement(t)
    decreases |steps|
  {
    if steps != [] {
      hide Agreement, Enabled, Next, SparesAttaches, SparesHeld, SparesLists;
      StepKeepsAgreement(s, steps[0]);
      RunKeepsAgreement(r, Next(s, steps[0]), steps[1..], t);
    }
  }

  lemma ReachableAgrees(r: Regime, s: State, t: State)
    requires !r.Keeping? && Agreement(s) && Reachable(r, s, t)
    ensures Agreement(t)
  {
    hide Agreement, Run;
    var steps :| Run(r, s, steps, t);
    RunKeepsAgreement(r, s, steps, t);
  }

  lemma LaunchMovesHeld(s: State, step: Step)
    requires Enabled(s, step) && IsLaunchStep(step)
    ensures Next(s, step).held == if step.WriteAttached?
                                  then s.held[s.live[step.launch].volume := s.live[step.launch].instance] else s.held
  {
    hide AttachWrite, ClaimWrite, ReleaseWrite, RouteWrite, FinalDatabases, Advance;
  }

  predicate LetsGo(step: Step, v: Volume) { (step.Detach? || Frees(step)) && step.volume == v }

  lemma LaunchStepKeepsHeld(s: State, step: Step, v: Volume)
    requires Agreement(s) && Enabled(s, step) && v in s.held && !LetsGo(step, v)
    requires IsLaunchStep(step)
    ensures v in Next(s, step).held && Next(s, step).held[v] == s.held[v]
  {
    LaunchMovesHeld(s, step);
    hide LaunchNext, TaskNext, TableNext;
    assert step.WriteAttached? ==> LaunchSound(s, step.launch);
  }

  lemma TaskStepKeepsHeld(s: State, step: Step, v: Volume)
    requires Agreement(s) && Enabled(s, step) && v in s.held && !LetsGo(step, v)
    requires IsTaskStep(step)
    ensures v in Next(s, step).held && Next(s, step).held[v] == s.held[v]
  {
    hide LaunchEnabled, LaunchNext, TableEnabled, TableNext, ListEnabled, ListNext;
    hide Agreement;
  }

  lemma TableStepKeepsHeld(s: State, step: Step, v: Volume)
    requires Agreement(s) && Enabled(s, step) && v in s.held && !LetsGo(step, v)
    requires IsTableStep(step)
    ensures v in Next(s, step).held && Next(s, step).held[v] == s.held[v]
  {
    hide LaunchEnabled, LaunchNext, TaskEnabled, TaskNext, ListEnabled, ListNext;
    hide Agreement;
  }

  lemma ListStepKeepsHeld(s: State, step: Step, v: Volume)
    requires Enabled(s, step) && IsListStep(step)
    ensures Next(s, step).held == s.held
  {
    hide LaunchEnabled, LaunchNext, TaskEnabled, TaskNext, TableEnabled, TableNext;
  }

  lemma StepKeepsHeld(s: State, step: Step, v: Volume)
    requires Agreement(s) && Enabled(s, step) && v in s.held && !LetsGo(step, v)
    ensures v in Next(s, step).held && Next(s, step).held[v] == s.held[v]
  {
    hide Enabled, Next;
    if IsLaunchStep(step) {
      LaunchStepKeepsHeld(s, step, v);
    } else if IsTaskStep(step) {
      TaskStepKeepsHeld(s, step, v);
    } else if IsListStep(step) {
      ListStepKeepsHeld(s, step, v);
    } else {
      TableStepKeepsHeld(s, step, v);
    }
  }

  /** What a launch has marked attached stays so, whatever else runs - a losing
      launch's release and a sweep of its claim included - until it is detached or its
      instance ends. */
  lemma {:induction false} AttachedUntilDetached(r: Regime, s: State, steps: seq<Step>, t: State, v: Volume)
    requires !r.Keeping? && Agreement(s) && Run(r, s, steps, t) && v in s.held
    requires forall k :: 0 <= k < |steps| ==> !LetsGo(steps[k], v)
    ensures v in t.held && t.held[v] == s.held[v] && Agrees(t, v)
    ensures v in t.rows && t.rows[v].instance == s.held[v]
    ensures v in t.ec2 && t.ec2[v] == Some(s.held[v])
    decreases |steps|
  {
    if steps == [] {
      assert Agrees(t, v);
    } else {
      StepKeepsHeld(s, steps[0], v);
      StepKeepsAgreement(s, steps[0]);
      hide Agreement, Enabled, Next, SparesAttaches, SparesHeld, SparesLists;
      AttachedUntilDetached(r, Next(s, steps[0]), steps[1..], t, v);
    }
  }

  /** What goes wrong without the guard: a launch whose volume is detached between EC2's
      acceptance and its own write marks the row attached to itself while EC2 has the
      volume attached to none. */
  lemma DetachMidAttachBreaks(s: State, l: LaunchId, v: Volume) returns (t: State)
    requires MidAttach(s, l, v) && v in s.ec2 && v in s.known
    ensures Reachable(Guarded, Next(s, Detach(v)), t)
    ensures v in t.held && v in t.rows && t.rows[v].status == Attached && t.rows[v].instance == s.live[l].instance
    ensures v in t.ec2 && t.ec2[v] == None && !HeldAgree(t)
  {
    var start := Next(s, Detach(v));
    assert start.live[l] == s.live[l] && v in start.ec2 && start.ec2[v] == None;
    ReachesSelf(Guarded, start);
    hide Next, Enabled;
    t := FinishUnmatched(start, start, l);
  }

  /** A launch past EC2's acceptance marks its row attached, whatever EC2 says by then. */
  lemma FinishUnmatched(start: State, s: State, l: LaunchId) returns (t: State)
    requires Reachable(Guarded, start, s) && l in s.live && BeforeWrite(s.live[l])
    requires s.live[l].volume in s.ec2 && s.ec2[s.live[l].volume] == None
    ensures Reachable(Guarded, start, t) && !HeldAgree(t)
    ensures var v := s.live[l].volume;
            && v in t.held && v in t.rows && t.rows[v].status == Attached && t.rows[v].instance == s.live[l].instance
            && v in t.ec2 && t.ec2[v] == None
  {
    hide Reachable, TaskNext, TaskEnabled, TableNext, TableEnabled;
    t := s;
    if t.live[l].phase.Accepted? {
      t := StepReaches(Guarded, start, t, ReadDatabases(l));
    }
    t := StepReaches(Guarded, start, t, WriteAttached(l));
    assert !Agrees(t, s.live[l].volume);
  }

  /** When a detach is safe, whatever the row says: every continuation keeps attached
      volumes in agreement with EC2 if and only if no launch is between EC2's acceptance
      and its own write. */
  lemma DetachIsSafeIff(s: State, v: Volume)
    requires Agreement(s) && v in s.known
    ensures (forall l :: l in s.live ==> !MidAttach(s, l, v)) <==>
            (forall t :: Reachable(Guarded, Next(s, Detach(v)), t) ==> HeldAgree(t))
  {
    if forall l :: l in s.live ==> !MidAttach(s, l, v) {
      FreeDetachKeepsAgreement(s, v);
      hide Next, Reachable;
      forall t | Reachable(Guarded, Next(s, Detach(v)), t)
        ensures HeldAgree(t)
      {
        ReachableAgrees(Guarded, Next(s, Detach(v)), t);
      }
    } else {
      var l :| l in s.live && MidAttach(s, l, v);
      assert LaunchSound(s, l);
      hide Next, Reachable, Agreement;
      var t := DetachMidAttachBreaks(s, l, v);
    }
  }

  lemma SafeContinuations(next: State)
    requires Agreement(next)
    ensures forall t :: Reachable(Guarded, next, t) ==> HeldAgree(t)
  {
    hide Reachable;
    forall t | Reachable(Guarded, next, t)
      ensures HeldAgree(t)
    {
      ReachableAgrees(Guarded, next, t);
    }
  }

  /** The same for EC2's part of a detach that has yet to write its row, and for the end of
      an instance. Besides, if the row is in use, no launch may be about to attach the
      volume: it would find it free. */
  lemma FreeingIsSafeIff(s: State, step: Step)
    requires Agreement(s) && Frees(step) && Enabled(s, step)
    ensures SafeToFree(s, step.volume) <==> forall t :: Reachable(Guarded, Next(s, step), t) ==> HeldAgree(t)
  {
    var next, v := Next(s, step), step.volume;
    if SafeToFree(s, v) {
      LetGoKeepsAgreement(s, step);
      SafeContinuations(next);
    } else {
      ReachesSelf(Guarded, next);
      var u := DrainReaches(next, next, v);
      hide Reachable;
      if l :| l in s.live && MidAttach(s, l, v) {
        assert u.live[l] == s.live[l];
        hide Next, Agreement;
        var t := FinishUnmatched(next, u, l);
      } else {
        var l :| l in s.live && s.live[l].phase.Holding? && s.live[l].volume == v;
        assert v in s.known && u.live[l] == s.live[l] && InUse(u, v);
        hide Next, Agreement;
        var t := FreedMidAttachBreaks(next, u, l);
      }
    }
  }

  /** When an expansion is safe: every continuation keeps attached volumes in agreement with
      EC2 if and only if its row is in use already, or no launch is attaching the volume or
      can yet. */
  lemma ExpandIsSafeIff(s: State, v: Volume)
    requires Agreement(s) && Enabled(s, Expand(v))
    ensures SafeToExpand(s, v) <==> forall t :: Reachable(Guarded, Next(s, Expand(v)), t) ==> HeldAgree(t)
  {
    if SafeToExpand(s, v) {
      StepKeepsAgreement(s, Expand(v));
      SafeContinuations(Next(s, Expand(v)));
    } else {
      var l :| l in s.live && s.live[l].volume == v
               && (BeforeWrite(s.live[l]) || (s.live[l].phase.Holding? && !Settled(s, v)));
      var t := ExpandBreaks(s, l, v);
    }
  }

  /** Such an expansion lets a detach pass its guard while the launch attaches the volume. */
  lemma ExpandBreaks(s: State, l: LaunchId, v: Volume) returns (t: State)
    requires Agreement(s) && Enabled(s, Expand(v)) && l in s.live && s.live[l].volume == v
    requires BeforeWrite(s.live[l]) || (s.live[l].phase.Holding? && !Settled(s, v))
    ensures Reachable(Guarded, Next(s, Expand(v)), t) && !HeldAgree(t)
  {
    var next := Next(s, Expand(v));
    assert v in s.known && next == s.(rows := next.rows) && InUse(next, v);
    ReachesSelf(Guarded, next);
    hide Next, Enabled, Reachable, Agreement;
    if BeforeWrite(s.live[l]) {
      t := DetachBreaks(next, next, l);
    } else {
      t := next;
      if s.ec2[v] != None {
        t := DrainReaches(next, next, v);
      }
      assert t.live == s.live && InUse(t, v);
      t := FreedMidAttachBreaks(next, t, l);
    }
  }

  /** A detach passes its guard although the launch is between EC2's acceptance and its own
      write. */
  lemma DetachBreaks(start: State, s: State, l: LaunchId) returns (t: State)
    requires Reachable(Guarded, start, s) && l in s.live && BeforeWrite(s.live[l])
    requires s.live[l].volume in s.ec2 && s.live[l].volume in s.known && InUse(s, s.live[l].volume)
    ensures Reachable(Guarded, start, t) && !HeldAgree(t)
  {
    var v := s.live[l].volume;
    hide Reachable, LaunchNext, LaunchEnabled, TaskNext, TaskEnabled, ListNext, ListEnabled;
    t := StepReaches(Guarded, start, s, Detach(v));
    assert t.live[l] == s.live[l] && v in t.ec2 && t.ec2[v] == None;
    hide TableEnabled, TableNext;
    t := FinishUnmatched(start, t, l);
  }

  lemma DrainReaches(start: State, s: State, v: Volume) returns (t: State)
    requires Reachable(Guarded, start, s) && v in s.draining && v in s.ec2
    ensures Reachable(Guarded, start, t) && t == FreeInEc2(s, v)
  {
    hide Reachable;
    t := StepReaches(Guarded, start, s, Drained(v));
  }

  /** The launch attaches the volume that a detach has freed but not yet written free; a
      second detach, whose row is still in use, comes between its acceptance and its write. */
  lemma FreedMidAttachBreaks(start: State, s: State, l: LaunchId) returns (t: State)
    requires Reachable(Guarded, start, s)
    requires l in s.live && s.live[l].phase.Holding? && s.live[l].volume in s.ec2 && s.live[l].volume in s.known
    requires s.ec2[s.live[l].volume] == None && InUse(s, s.live[l].volume)
    ensures Reachable(Guarded, start, t) && !HeldAgree(t)
  {
    var v := s.live[l].volume;
    hide Reachable, TaskNext, TaskEnabled, TableNext, TableEnabled, ListNext, ListEnabled;
    t := StepReaches(Guarded, start, s, Accept(l));
    hide LaunchNext, LaunchEnabled;
    t := DetachBreaks(start, t, l);
  }

  predicate IsLate(step: Step) { step.Register? || step.RecoverPut? || step.LateWrite? }

  /** When a write decided on earlier reads is safe: every continuation keeps attached
      volumes in agreement with EC2 if and only if it spares the volumes marked attached. */
  lemma LateWriteIsSafeIff(s: State, step: Step)
    requires Agreement(s) && Enabled(s, step) && IsLate(step)
    ensures SparesHeld(s, step) <==> forall t :: Reachable(Guarded, Next(s, step), t) ==> HeldAgree(t)
  {
    if SparesHeld(s, step) {
      StepKeepsAgreement(s, step);
      hide Next, Reachable, Agreement;
      forall t | Reachable(Guarded, Next(s, step), t)
        ensures HeldAgree(t)
      {
        ReachableAgrees(Guarded, Next(s, step), t);
      }
    } else {
      ReachesSelf(Guarded, Next(s, step));
      LateWriteBreaks(s, step);
    }
  }

  lemma LateWriteBreaks(s: State, step: Step)
    requires Agreement(s) && Enabled(s, step) && IsLate(step) && !SparesHeld(s, step)
    ensures !HeldAgree(Next(s, step))
  {
    var v := if step.Register? then s.live[step.launch].volume else s.tasks[step.task].volume;
    assert Agrees(s, v);
    assert v in Next(s, step).held && !Agrees(Next(s, step), v);
  }

  // ---------------------------------------------------------------------
  // A launch from claim to routing
  // ---------------------------------------------------------------------

  /** The lists a run can only change by registering a volume without any. */
  lemma SameListsStayDisjoint(s: State, t: State)
    requires DisjointLists(s) && t.rows.Keys == s.rows.Keys
    requires forall v :: v in s.rows ==> t.rows[v].databases == s.rows[v].databases
    ensures DisjointLists(t)
  {
  }

  ghost predicate Fits(r: Regime, s: State) { r.Tidy? ==> DisjointLists(s) }

  predicate KeepsRowLists(s: State, step: Step)
    requires Enabled(s, step)
  {
    || step.Claim? || step.Accept? || step.ReadDatabases? || step.Route?
    || (step.WriteAttached? && s.live[step.launch].volume in s.rows
        && s.live[step.launch].phase.databases == s.rows[s.live[step.launch].volume].databases)
  }

  lemma DisjointAfter(s: State, step: Step)
    requires DisjointLists(s) && Enabled(s, step) && KeepsRowLists(s, step)
    ensures DisjointLists(Next(s, step))
  {
    hide TaskNext, TaskEnabled, TableNext, TableEnabled, ListEnabled, ListNext, DisjointLists;
    SameListsStayDisjoint(s, Next(s, step));
  }

  /** A launch's own steps are allowed in every regime. */
  lemma LaunchStep(r: Regime, s: State, step: Step)
    requires Fits(r, s) && Enabled(s, step)
    requires KeepsRowLists(s, step) || (step.WriteAttached? && !r.Tidy?)
    ensures Allowed(r, s, step) && Fits(r, Next(s, step))
  {
    if r.Tidy? {
      DisjointAfter(s, step);
    }
    hide Enabled, Next, DisjointLists;
  }

  predicate Undisturbed(r: Regime, s: State, v: Volume) {
    v in s.rows && (r.Tidy? ==> s.rows[v].databases != [])
  }

  lemma ClaimStepReaches(r: Regime, start: State, s: State, l: LaunchId, v: Volume, i: Instance, caller: seq<Database>)
    returns (t: State)
    requires Reachable(r, start, s) && Fits(r, s) && l !in s.live && Claimable(s.rows, v)
    ensures Reachable(r, start, t) && Fits(r, t)
    ensures t == s.(rows := ClaimWrite(s.rows, v, i, s.now),
                    live := s.live[l := Launch(i, v, Some(s.now), caller, Holding)])
  {
    hide Reachable, Fits, Allowed, TaskNext, TaskEnabled, TableNext, TableEnabled;
    LaunchStep(r, s, Claim(l, i, v, caller));
    t := StepReaches(r, start, s, Claim(l, i, v, caller));
  }

  lemma ClaimReaches(r: Regime, start: State, s: State, l: LaunchId, v: Volume, i: Instance, caller: seq<Database>)
    returns (t: State)
    requires Reachable(r, start, s) && Fits(r, s) && l !in s.live && Claimable(s.rows, v)
    requires v in s.ec2 && s.ec2[v] == None
    ensures Reachable(r, start, t) && Fits(r, t)
    ensures t == s.(rows := ClaimWrite(s.rows, v, i, s.now), ec2 := s.ec2[v := Some(i)],
                    live := s.live[l := Launch(i, v, Some(s.now), caller, Accepted)])
  {
    hide Reachable, Fits, Allowed, TaskNext, TaskEnabled, TableNext, TableEnabled;
    t := ClaimStepReaches(r, start, s, l, v, i, caller);
    LaunchStep(r, t, Accept(l));
    t := StepReaches(r, start, t, Accept(l));
  }

  lemma ReadReaches(r: Regime, start: State, s: State, l: LaunchId) returns (t: State)
    requires Reachable(r, start, s) && Fits(r, s) && l in s.live && s.live[l].phase.Accepted?
    ensures Reachable(r, start, t) && Fits(r, t)
    ensures var x := s.live[l];
            t == s.(live := s.live[l := x.(phase := Ready(FinalDatabases(s.rows, x.volume, x.caller)))])
  {
    hide Reachable, Fits, Allowed, TaskNext, TaskEnabled, TableNext, TableEnabled, ListNext, ListEnabled;
    LaunchStep(r, s, ReadDatabases(l));
    t := StepReaches(r, start, s, ReadDatabases(l));
  }

  lemma WriteReaches(r: Regime, start: State, s: State, l: LaunchId) returns (t: State)
    requires Reachable(r, start, s) && Fits(r, s) && l in s.live && s.live[l].phase.Accepted?
    requires Undisturbed(r, s, s.live[l].volume)
    ensures Reachable(r, start, t) && Fits(r, t)
    ensures var x := s.live[l];
            var final := FinalDatabases(s.rows, x.volume, x.caller);
            t == s.(rows := AttachWrite(s.rows, x.volume, x.instance, final), held := s.held[x.volume := x.instance],
                    live := s.live[l := x.(phase := Routing(final))])
  {
    hide Reachable, Fits, Allowed, TaskNext, TaskEnabled, TableNext, TableEnabled;
    t := ReadReaches(r, start, s, l);
    LaunchStep(r, t, WriteAttached(l));
    t := StepReaches(r, start, t, WriteAttached(l));
    var x := s.live[l];
    assert t.live == s.live[l := x.(phase := Routing(FinalDatabases(s.rows, x.volume, x.caller)))];
  }

  /** A free volume can be claimed, attached and registered in a run of its own. */
  lemma AttachReaches(r: Regime, start: State, s: State, l: LaunchId, v: Volume, i: Instance, caller: seq<Database>)
    returns (t: State)
    requires Reachable(r, start, s) && Fits(r, s) && l !in s.live && Claimable(s.rows, v) && Undisturbed(r, s, v)
    requires v in s.ec2 && s.ec2[v] == None
    ensures Reachable(r, start, t) && Fits(r, t)
    ensures var final := FinalDatabases(s.rows, v, caller);
            && t.live == s.live[l := Launch(i, v, Some(s.now), caller, Routing(final))]
            && t.rows.Keys == s.rows.Keys && t.rows[v].status == Attached && t.rows[v].databases == final
            && t.held == s.held[v := i] && t.ec2 == s.ec2[v := Some(i)] && t.tasks == s.tasks
            && t.routes == s.routes && t.doomed == s.doomed && t.known == s.known && t.routed == s.routed
  {
    hide Reachable, Fits;
    t := ClaimReaches(r, start, s, l, v, i, caller);
    t := WriteReaches(r, start, t, l);
  }

  /** The status sync has scanned an attached row, and the volume is detached. */
  lemma ScanReaches(r: Regime, start: State, v: Volume) returns (s: State)
    requires !r.Tidy? && Initial(start) && v in start.rows && start.rows[v].status == Attached && v in start.ec2
    ensures Reachable(r, start, s) && Fits(r, s)
    ensures s.live == map[] && s.tasks == map[0 := Scanned(v, start.rows[v])] && s.held == map[] && s.doomed == {}
    ensures Claimable(s.rows, v) && s.rows[v].databases == start.rows[v].databases
    ensures v in s.known && v in s.ec2 && s.ec2[v] == None
  {
    ReachesSelf(r, start);
    hide Reachable;
    s := StepReaches(r, start, start, SyncScan(0, v));
    s := DetachReaches(r, start, s, v);
  }

  /** It asks EC2, which has the volume free, and decides to free the row. */
  lemma DescribeReaches(r: Regime, start: State, s: State, k: TaskId, v: Volume) returns (t: State)
    requires !r.Tidy? && Reachable(r, start, s) && Fits(r, s) && v in s.ec2 && s.ec2[v] == None
    requires k in s.tasks && s.tasks[k].Scanned? && s.tasks[k].volume == v && s.tasks[k].row.status == Attached
    ensures Reachable(r, start, t) && Fits(r, t)
    ensures t == s.(tasks := s.tasks[k := Freeing(v, s.tasks[k].row.databases)])
  {
    hide Reachable;
    t := StepReaches(r, start, s, SyncDescribe(k, false));
  }

  /** A detach has freed an attached volume in EC2, and its row is still to be written. */
  lemma FreeReaches(r: Regime, start: State, v: Volume) returns (s: State)
    requires !r.Tidy? && Initial(start) && v in start.rows && start.rows[v].status == Attached
    requires v in start.ec2 && start.ec2[v] != None
    ensures Reachable(r, start, s) && Fits(r, s)
    ensures s == start.(ec2 := start.ec2[v := None], tasks := map[0 := Freeing(v, start.rows[v].databases)])
  {
    s := AcceptedReaches(r, start, v);
    hide Reachable, LaunchEnabled, LaunchNext, TaskEnabled, TaskNext;
    s := StepReaches(r, start, s, Drained(v));
  }

  lemma AcceptedReaches(r: Regime, start: State, v: Volume) returns (s: State)
    requires !r.Tidy? && Initial(start) && v in start.rows && start.rows[v].status == Attached
    requires v in start.ec2 && start.ec2[v] != None
    ensures Reachable(r, start, s) && Fits(r, s)
    ensures s == start.(draining := {v}, tasks := map[0 := Freeing(v, start.rows[v].databases)])
  {
    ReachesSelf(r, start);
    hide Reachable, LaunchEnabled, LaunchNext, TableEnabled, TableNext;
    s := StepReaches(r, start, start, DetachRead(0, v));
    s := StepReaches(r, start, s, DetachAccept(0, v));
    assert s.tasks == map[0 := Freeing(v, start.rows[v].databases)];
  }

  lemma DetachReaches(r: Regime, start: State, s: State, v: Volume) returns (t: State)
    requires !r.Tidy? && Reachable(r, start, s) && Fits(r, s) && InUse(s, v) && v in s.known && v in s.ec2
    ensures Reachable(r, start, t) && Fits(r, t)
    ensures t.rows.Keys == s.rows.Keys && t.rows[v] == DetachWrite(s.rows, v, s.now)[v]
    ensures t.ec2 == s.ec2[v := None] && t.tasks == s.tasks && t.known == s.known && t.doomed == s.doomed
    ensures t.live.Keys == s.live.Keys && t.held == s.held - {v} && t.now == s.now
  {
    hide Reachable;
    t := StepReaches(r, start, s, Detach(v));
  }

  lemma {:induction false} FreshLaunch(ids: set<LaunchId>) returns (l: LaunchId)
    ensures forall k :: k in ids ==> k < l
  {
    l := 0;
    if ids != {} {
      var k :| k in ids;
      l := FreshLaunch(ids - {k});
      l := if l <= k then k + 1 else l;
      assert forall n :: n in ids ==> n == k || n in ids - {k};
    }
  }

  lemma CheckReaches(r: Regime, start: State, s: State, k: TaskId, v: Volume) returns (t: State)
    requires !r.Tidy? && Reachable(r, start, s) && Fits(r, s) && k !in s.tasks
    requires v in s.ec2 && s.ec2[v] == None && v !in s.rows
    ensures Reachable(r, start, t) && Fits(r, t) && t == s.(tasks := s.tasks[k := Rowless(v)])
  {
    hide Reachable;
    t := StepReaches(r, start, s, RecoverFind(k, v));
    t := StepReaches(r, start, t, RecoverCheck(k));
  }
}
