// A volume's databases over the runs of Protocol: when one stays listed, and when a cleanup,
// a late write, an append or a removal can lose it.

module DatabaseLists {
  import opened Basics
  import opened Registry
  import opened Protocol

  predicate Listed(s: State, v: Volume, db: Database) { v in s.rows && db in s.rows[v].databases }

  /** The volume carries the database, no cleanup has scanned it without any, and no launch
      is about to write a list without it. */
  predicate Kept(s: State, v: Volume, db: Database) {
    v in s.ec2 && Listed(s, v, db) && v !in s.doomed && ReadersKnow(s, v, db)
  }

  predicate Removes(step: Step, v: Volume, db: Database) { step.Remove? && step.volume == v && step.database == db }

  /** A run whose late writes spare the lists, and which does not remove the database. */
  ghost predicate KeepingRun(s: State, steps: seq<Step>, t: State, v: Volume, db: Database) {
    Run(Keeping, s, steps, t) && forall k :: 0 <= k < |steps| ==> !Removes(steps[k], v, db)
  }

  /** Whatever follows, the volume exists and lists the database until it is removed. */
  ghost predicate StaysListed(s: State, v: Volume, db: Database) {
    forall steps, t :: KeepingRun(s, steps, t, v, db) ==> v in t.ec2 && Listed(t, v, db)
  }

  // ---------------------------------------------------------------------
  // One step
  // ---------------------------------------------------------------------

  /** How a step moves the list of a row. */
  ghost predicate MovesList(s: State, step: Step, next: State, v: Volume)
    requires Enabled(s, step)
  {
    var was, now := RowOf(s.rows, v).databases, RowOf(next.rows, v).databases;
    var written := ListWritten(s, step);
    if written.Some? && written.value.0 == v then now == written.value.1
    else if step.WriteAttached? && s.live[step.launch].volume == v
    then now == s.live[step.launch].phase.databases
    else if step.Append? && step.volume == v
    then now == if step.database in was then was else was + [step.database]
    else if step.Remove? && step.volume == v && step.database in was
    then now == Without(s.tasks[step.task].databases, step.database)
    else now == was || v !in next.rows
  }

  lemma LaunchListMoves(s: State, step: Step, v: Volume)
    requires Enabled(s, step) && IsLaunchStep(step)
    ensures MovesList(s, step, Next(s, step), v)
  {
    hide TaskEnabled, TaskNext, TableEnabled, TableNext, ListEnabled, ListNext;
  }

  lemma TaskListMoves(s: State, step: Step, v: Volume)
    requires Enabled(s, step) && IsTaskStep(step)
    ensures MovesList(s, step, Next(s, step), v)
  {
    hide LaunchEnabled, LaunchNext, TableEnabled, TableNext, ListEnabled, ListNext;
  }

  lemma ListListMoves(s: State, step: Step, v: Volume)
    requires Enabled(s, step) && IsListStep(step)
    ensures MovesList(s, step, Next(s, step), v)
  {
    hide LaunchEnabled, LaunchNext, TaskEnabled, TaskNext, TableEnabled, TableNext, Without;
  }

  lemma TableListMoves(s: State, step: Step, v: Volume)
    requires Enabled(s, step) && IsTableStep(step)
    ensures MovesList(s, step, Next(s, step), v)
  {
    hide LaunchEnabled, LaunchNext, TaskEnabled, TaskNext, ListEnabled, ListNext;
  }

  lemma ListMoves(s: State, step: Step, v: Volume)
    requires Enabled(s, step)
    ensures MovesList(s, step, Next(s, step), v)
  {
    hide Enabled, Next, MovesList;
    if IsLaunchStep(step) {
      LaunchListMoves(s, step, v);
    } else if IsTaskStep(step) {
      TaskListMoves(s, step, v);
    } else if IsListStep(step) {
      ListListMoves(s, step, v);
    } else {
      TableListMoves(s, step, v);
    }
  }

  /** How a launch comes to have read a list. */
  ghost predicate MovesReader(s: State, step: Step, next: State, l: LaunchId)
    requires l in next.live
  {
    && l in s.live && s.live[l].volume == next.live[l].volume
    && if step == ReadDatabases(l)
       then next.live[l].phase == Ready(FinalDatabases(s.rows, s.live[l].volume, s.live[l].caller))
       else s.live[l] == next.live[l]
  }

  lemma LaunchReaderMoves(s: State, step: Step, l: LaunchId)
    requires Enabled(s, step) && l in Next(s, step).live && Next(s, step).live[l].phase.Ready?
    requires IsLaunchStep(step)
    ensures MovesReader(s, step, Next(s, step), l)
  {
    hide TaskEnabled, TaskNext, TableEnabled, TableNext, ListEnabled, ListNext, Advance;
    hide AttachWrite, ClaimWrite, ReleaseWrite, RouteWrite, FinalDatabases;
  }

  lemma TaskReaderMoves(s: State, step: Step, l: LaunchId)
    requires Enabled(s, step) && l in Next(s, step).live && Next(s, step).live[l].phase.Ready?
    requires IsTaskStep(step)
    ensures MovesReader(s, step, Next(s, step), l)
  {
    hide LaunchEnabled, LaunchNext, TableEnabled, TableNext, ListEnabled, ListNext;
  }

  lemma OtherReaderMoves(s: State, step: Step, l: LaunchId)
    requires Enabled(s, step) && l in Next(s, step).live && Next(s, step).live[l].phase.Ready?
    requires IsTableStep(step) || IsListStep(step)
    ensures MovesReader(s, step, Next(s, step), l)
  {
    hide LaunchEnabled, LaunchNext, TaskEnabled, TaskNext;
  }

  lemma ReaderMoves(s: State, step: Step, l: LaunchId)
    requires Enabled(s, step) && l in Next(s, step).live && Next(s, step).live[l].phase.Ready?
    ensures MovesReader(s, step, Next(s, step), l)
  {
    hide Enabled, Next, MovesReader;
    if IsLaunchStep(step) {
      LaunchReaderMoves(s, step, l);
    } else if IsTaskStep(step) {
      TaskReaderMoves(s, step, l);
    } else {
      OtherReaderMoves(s, step, l);
    }
  }

  lemma LaunchKeepsVolume(s: State, step: Step, v: Volume)
    requires Bookkeeping(s) && Enabled(s, step) && v in s.ec2 && v in s.rows && IsLaunchStep(step)
    requires v !in s.doomed && s.rows[v].databases != []
    ensures v in Next(s, step).ec2 && v in Next(s, step).rows && v !in Next(s, step).doomed
  {
    hide TaskEnabled, TaskNext, TableEnabled, TableNext, ListEnabled, ListNext, RouteWrite, FinalDatabases;
  }

  lemma TaskKeepsVolume(s: State, step: Step, v: Volume)
    requires Bookkeeping(s) && Enabled(s, step) && v in s.ec2 && v in s.rows && IsTaskStep(step)
    requires v !in s.doomed && s.rows[v].databases != []
    ensures v in Next(s, step).ec2 && v in Next(s, step).rows && v !in Next(s, step).doomed
  {
    hide LaunchEnabled, LaunchNext, TableEnabled, TableNext, ListEnabled, ListNext;
  }

  lemma OtherKeepsVolume(s: State, step: Step, v: Volume)
    requires Bookkeeping(s) && Enabled(s, step) && v in s.ec2 && v in s.rows
    requires IsTableStep(step) || IsListStep(step)
    requires v !in s.doomed && s.rows[v].databases != []
    ensures v in Next(s, step).ec2 && v in Next(s, step).rows && v !in Next(s, step).doomed
  {
    hide LaunchEnabled, LaunchNext, TaskEnabled, TaskNext;
  }

  lemma KeepsVolume(s: State, step: Step, v: Volume)
    requires Bookkeeping(s) && Enabled(s, step) && v in s.ec2 && v in s.rows
    requires v !in s.doomed && s.rows[v].databases != []
    ensures v in Next(s, step).ec2 && v in Next(s, step).rows && v !in Next(s, step).doomed
  {
    hide Enabled, Next;
    if IsLaunchStep(step) {
      LaunchKeepsVolume(s, step, v);
    } else if IsTaskStep(step) {
      TaskKeepsVolume(s, step, v);
    } else {
      OtherKeepsVolume(s, step, v);
    }
  }

  lemma StepKeepsReaders(s: State, step: Step, v: Volume, db: Database)
    requires Enabled(s, step) && Listed(s, v, db) && ReadersKnow(s, v, db)
    ensures ReadersKnow(Next(s, step), v, db)
  {
    var next := Next(s, step);
    forall l | l in next.live && next.live[l].volume == v && next.live[l].phase.Ready?
      ensures db in next.live[l].phase.databases
    {
      ReaderMoves(s, step, l);
      hide Enabled, Next;
    }
  }

  lemma StepKeepsDatabase(s: State, step: Step, v: Volume, db: Database)
    requires Bookkeeping(s) && Allowed(Keeping, s, step) && !Removes(step, v, db) && Kept(s, v, db)
    ensures Kept(Next(s, step), v, db)
  {
    KeepsVolume(s, step, v);
    ListMoves(s, step, v);
    StepKeepsReaders(s, step, v, db);
    hide Bookkeeping, Next, TaskEnabled, TableEnabled;
  }

  // ---------------------------------------------------------------------
  // Whole runs
  // ---------------------------------------------------------------------

  /** A database that is kept stays so in every run whose late writes spare the lists, until
      it is removed, whatever else the run does. */
  lemma {:induction false} DatabaseSurvives(s: State, steps: seq<Step>, t: State, v: Volume, db: Database)
    requires Bookkeeping(s) && KeepingRun(s, steps, t, v, db) && Kept(s, v, db)
    ensures Kept(t, v, db)
    decreases |steps|
  {
    if steps != [] {
      hide Bookkeeping, Enabled, Next, SparesLists, Kept;
      assert !Removes(steps[0], v, db);
      StepKeepsDatabase(s, steps[0], v, db);
      StepKeepsBookkeeping(s, steps[0]);
      DatabaseSurvives(Next(s, steps[0]), steps[1..], t, v, db);
    }
  }

  lemma KeptStaysListed(s: State, v: Volume, db: Database)
    requires Bookkeeping(s) && Kept(s, v, db)
    ensures StaysListed(s, v, db)
  {
    hide Bookkeeping, Run;
    forall steps, t | KeepingRun(s, steps, t, v, db)
      ensures v in t.ec2 && Listed(t, v, db)
    {
      DatabaseSurvives(s, steps, t, v, db);
    }
  }

  lemma OneStep(s: State, step: Step, v: Volume, db: Database)
    requires Allowed(Keeping, s, step) && !Removes(step, v, db)
    ensures KeepingRun(s, [step], Next(s, step), v, db)
  {
    hide Enabled, Next;
    assert Run(Keeping, Next(s, step), [step][1..], Next(s, step));
  }

  lemma TwoSteps(s: State, first: Step, second: Step, v: Volume, db: Database)
    requires Allowed(Keeping, s, first) && !Removes(first, v, db)
    requires Allowed(Keeping, Next(s, first), second) && !Removes(second, v, db)
    ensures KeepingRun(s, [first, second], Next(Next(s, first), second), v, db)
  {
    OneStep(Next(s, first), second, v, db);
    hide Enabled, Next;
    assert [first, second][1..] == [second];
  }

  /** When a listed database stays listed: exactly when no cleanup has scanned its volume
      already and every launch about to write the volume's list has read it. */
  lemma StaysListedIff(s: State, v: Volume, db: Database)
    requires Bookkeeping(s) && v in s.ec2 && Listed(s, v, db)
    ensures StaysListed(s, v, db) <==> v !in s.doomed && ReadersKnow(s, v, db)
  {
    if v in s.doomed {
      DoomedIsDeleted(s, v, db);
    } else if !ReadersKnow(s, v, db) {
      UnreadIsDropped(s, v, db);
    } else {
      KeptStaysListed(s, v, db);
    }
  }

  lemma UnreadIsDropped(s: State, v: Volume, db: Database)
    requires !ReadersKnow(s, v, db)
    ensures !StaysListed(s, v, db)
  {
    var l :| l in s.live && s.live[l].volume == v && s.live[l].phase.Ready? && db !in s.live[l].phase.databases;
    OneStep(s, WriteAttached(l), v, db);
    assert !Listed(Next(s, WriteAttached(l)), v, db);
    hide Enabled, Next, KeepingRun;
  }

  /** A scanned volume is detached, and can be deleted with what it lists. */
  lemma DoomedIsDeleted(s: State, v: Volume, db: Database)
    requires Bookkeeping(s) && v in s.ec2 && Listed(s, v, db) && v in s.doomed
    ensures !StaysListed(s, v, db) && LosesDatabase(s, v, db)
  {
    var mid := Next(s, Detach(v));
    DetachFrees(s, v, db);
    OneStep(s, Detach(v), v, db);
    TwoSteps(s, Detach(v), CleanupDelete(v), v, db);
    hide Enabled, Next, KeepingRun;
  }

  lemma DetachFrees(s: State, v: Volume, db: Database)
    requires Bookkeeping(s) && v in s.ec2 && Listed(s, v, db) && v in s.doomed
    ensures Allowed(Keeping, s, Detach(v)) && Listed(Next(s, Detach(v)), v, db)
    ensures Allowed(Keeping, Next(s, Detach(v)), CleanupDelete(v))
    ensures v !in Next(Next(s, Detach(v)), CleanupDelete(v)).ec2
  {
    hide LaunchEnabled, LaunchNext, TaskEnabled, TaskNext, ListEnabled, ListNext, Outdate;
  }

  /** Some continuation deletes the volume while its row lists the database. */
  ghost predicate LosesDatabase(s: State, v: Volume, db: Database) {
    exists steps, t :: KeepingRun(s, steps, t, v, db) && Listed(t, v, db) && Enabled(t, CleanupDelete(v))
  }

  /** The scan is what decides: a cleanup can delete a volume with a database that every
      launch about to write its list has read if and only if it has scanned it already,
      while it had none. */
  lemma LosesDatabaseIff(s: State, v: Volume, db: Database)
    requires Bookkeeping(s) && v in s.ec2 && Listed(s, v, db) && ReadersKnow(s, v, db)
    ensures LosesDatabase(s, v, db) <==> v in s.doomed
  {
    if v in s.doomed {
      DoomedIsDeleted(s, v, db);
    } else {
      hide Bookkeeping, Run;
      forall steps, t | KeepingRun(s, steps, t, v, db)
        ensures v !in t.doomed
      {
        DatabaseSurvives(s, steps, t, v, db);
      }
    }
  }

  /** When a late write is safe for a kept database: exactly when the list it writes has it. */
  lemma LateWriteKeepsListedIff(s: State, step: Step, v: Volume, db: Database)
    requires Bookkeeping(s) && Kept(s, v, db) && Enabled(s, step)
    requires ListWritten(s, step).Some? && ListWritten(s, step).value.0 == v
    ensures StaysListed(Next(s, step), v, db) <==> db in ListWritten(s, step).value.1
  {
    WriteKeepsListedIff(s, step, v, db);
  }

  /** When the removal of another database is: exactly when the row does not list that one
      any more, or the list read for it has this one. */
  lemma RemovalKeepsListedIff(s: State, step: Step, v: Volume, db: Database)
    requires Bookkeeping(s) && Kept(s, v, db) && Enabled(s, step)
    requires step.Remove? && step.volume == v && step.database != db
    ensures StaysListed(Next(s, step), v, db) <==>
            step.database !in s.rows[v].databases || db in s.tasks[step.task].databases
  {
    WriteKeepsListedIff(s, step, v, db);
  }

  lemma WriteKeepsListedIff(s: State, step: Step, v: Volume, db: Database)
    requires Bookkeeping(s) && Kept(s, v, db) && Enabled(s, step)
    requires step.Remove? || ListWritten(s, step).Some?
    ensures StaysListed(Next(s, step), v, db) <==> Listed(Next(s, step), v, db)
    ensures RowOf(Next(s, step).rows, v).databases != [] ==> v in Next(s, step).rows
    ensures MovesList(s, step, Next(s, step), v)
  {
    var next := Next(s, step);
    ListMoves(s, step, v);
    KeepsVolume(s, step, v);
    StepKeepsReaders(s, step, v, db);
    StepKeepsBookkeeping(s, step);
    hide Enabled, Next, MovesList, Bookkeeping;
    if Listed(next, v, db) {
      KeptStaysListed(next, v, db);
    } else {
      assert KeepingRun(next, [], next, v, db);
    }
  }

  /** When a database that the allocator adds stays listed: exactly when no cleanup has
      scanned the volume already and every launch about to write its list has read it. */
  lemma AppendStaysListedIff(s: State, v: Volume, db: Database)
    requires Bookkeeping(s) && v in s.ec2
    ensures Enabled(s, Append(v, db))
    ensures StaysListed(Next(s, Append(v, db)), v, db) <==> v !in s.doomed && ReadersKnow(s, v, db)
  {
    var next := Next(s, Append(v, db));
    assert Listed(next, v, db) && next.live == s.live && next.doomed == s.doomed && next.ec2 == s.ec2;
    StepKeepsBookkeeping(s, Append(v, db));
    hide Enabled, Next, Bookkeeping, StaysListed;
    StaysListedIff(next, v, db);
  }

  // ---------------------------------------------------------------------
  // Launches that have read a list
  // ---------------------------------------------------------------------

  /** Every launch about to write a list has read all that the row lists. */
  ghost predicate ReadersCurrent(s: State) {
    forall v, db :: Listed(s, v, db) ==> ReadersKnow(s, v, db)
  }

  /** One step keeps the launches current if and only if it adds nothing that one about to
      write the row has not read. */
  lemma StepKeepsReadersCurrentIff(s: State, step: Step)
    requires Agreement(s) && ReadersCurrent(s) && Enabled(s, step)
    ensures SparesReaders(s, step) <==> ReadersCurrent(Next(s, step))
  {
    var next := Next(s, step);
    OneWriter(s, step);
    if SparesReaders(s, step) {
      hide Agreement, Next, Enabled, MovesReader, MovesList, SparesReaders;
      forall v, db, l | Listed(next, v, db) && l in next.live && next.live[l].volume == v && next.live[l].phase.Ready?
        ensures db in next.live[l].phase.databases
      {
        ReaderMoves(s, step, l);
        ListMoves(s, step, v);
        ReaderStaysCurrent(s, step, next, v, db, l);
      }
    } else {
      UnreadIsAdded(s, step);
    }
  }

  lemma UnreadIsAdded(s: State, step: Step)
    requires Enabled(s, step) && !SparesReaders(s, step)
    ensures !ReadersCurrent(Next(s, step))
  {
    var v := if ListWritten(s, step).Some? then ListWritten(s, step).value.0 else step.volume;
    ListMoves(s, step, v);
    ReadersStay(s, step);
    var db := UnreadDatabase(s, step, Next(s, step), v);
    hide Next, Enabled;
    StillUnread(s, Next(s, step), v, db);
  }

  lemma UnreadDatabase(s: State, step: Step, next: State, v: Volume) returns (db: Database)
    requires Enabled(s, step) && !SparesReaders(s, step) && MovesList(s, step, next, v)
    requires v == if ListWritten(s, step).Some? then ListWritten(s, step).value.0 else step.volume
    ensures Listed(next, v, db) && !ReadersKnow(s, v, db)
  {
    hide TaskEnabled, TableEnabled, ReadersKnow;
    db :| db in RowOf(next.rows, v).databases && !ReadersKnow(s, v, db);
  }

  lemma StillUnread(s: State, next: State, v: Volume, db: Database)
    requires Listed(next, v, db) && !ReadersKnow(s, v, db)
    requires forall l :: l in s.live && s.live[l].phase.Ready? ==> l in next.live && next.live[l] == s.live[l]
    ensures !ReadersCurrent(next)
  {
    assert !ReadersKnow(next, v, db);
  }

  lemma ReadersStay(s: State, step: Step)
    requires Enabled(s, step) && (step.Append? || step.Remove? || ListWritten(s, step).Some?)
    ensures forall l :: l in s.live && s.live[l].phase.Ready? ==>
              l in Next(s, step).live && Next(s, step).live[l] == s.live[l]
  {
    hide TableEnabled, TableNext;
  }

  /** A launch about to write is the only one that has read the list. */
  ghost predicate WritesAlone(s: State, step: Step) {
    step.WriteAttached? && step.launch in s.live ==>
      forall l :: l in s.live && s.live[l].volume == s.live[step.launch].volume && s.live[l].phase.Ready? ==>
        l == step.launch
  }

  lemma OneWriter(s: State, step: Step)
    requires Agreement(s) && Enabled(s, step)
    ensures WritesAlone(s, step)
  {
    hide HeldAgree, LaunchSound, Bookkeeping;
    if step.WriteAttached? {
      assert BeforeWrite(s.live[step.launch]);
    }
  }

  lemma ReaderStaysCurrent(s: State, step: Step, next: State, v: Volume, db: Database, l: LaunchId)
    requires ReadersCurrent(s) && Enabled(s, step) && SparesReaders(s, step) && WritesAlone(s, step)
    requires l in next.live && next.live[l].volume == v && next.live[l].phase.Ready? && Listed(next, v, db)
    requires MovesReader(s, step, next, l) && MovesList(s, step, next, v)
    ensures db in next.live[l].phase.databases
  {
    assert Listed(s, v, db) ==> ReadersKnow(s, v, db);
    hide TaskEnabled, TableEnabled;
  }

  /** In every state of every run in which unconditional writes spare launches and no write
      adds a database that a launch about to write has not read, the launches are current. */
  lemma {:induction false} ReadersStayCurrent(s: State, steps: seq<Step>, t: State)
    requires Agreement(s) && ReadersCurrent(s) && Run(Informed, s, steps, t)
    ensures ReadersCurrent(t)
    decreases |steps|
  {
    if steps != [] {
      hide Agreement, Enabled, Next, SparesAttaches, SparesHeld, SparesReaders, ReadersCurrent;
      StepKeepsReadersCurrentIff(s, steps[0]);
      StepKeepsAgreement(s, steps[0]);
      ReadersStayCurrent(Next(s, steps[0]), steps[1..], t);
    }
  }

  /** So what a reachable state lists stays listed, but for what a cleanup has scanned. */
  lemma ReachedStaysListedIff(start: State, steps: seq<Step>, s: State, v: Volume, db: Database)
    requires Initial(start) && Run(Informed, start, steps, s) && v in s.ec2 && Listed(s, v, db)
    ensures StaysListed(s, v, db) <==> v !in s.doomed
  {
    InitialAgrees(start);
    ReadersStayCurrent(start, steps, s);
    RunKeepsAgreement(Informed, start, steps, s);
    StaysListedIff(s, v, db);
  }

  // ---------------------------------------------------------------------
  // Runs that lose a database
  // ---------------------------------------------------------------------

  /** From any start a volume scanned while empty can be given databases by a launch and
      detached again, and is then deleted with them. */
  lemma CleanupDeletesWhatItScanned(start: State, v: Volume, i: Instance, db: Database)
    requires Initial(start) && Orphaned(start.rows, v, start.now) && v in start.ec2 && start.ec2[v] == None
    ensures exists s :: Reachable(Guarded, start, s) && v in s.rows && s.rows[v].databases == [db]
                        && LosesDatabase(s, v, db)
  {
    ReachesSelf(Guarded, start);
    InitialAgrees(start);
    hide Reachable, Agreement;
    var s := StepReaches(Guarded, start, start, CleanupScan({v}));
    s := AttachReaches(Guarded, start, s, 0, v, i, [db]);
    ReachableAgrees(Guarded, start, s);
    AgreementBooks(s);
    DoomedIsDeleted(s, v, db);
  }

  lemma AgreementBooks(s: State)
    requires Agreement(s)
    ensures Bookkeeping(s)
  {
  }

  lemma FreeingWrites(s: State, v: Volume, databases: seq<Database>)
    requires 0 in s.tasks && s.tasks[0] == Freeing(v, databases) && v !in s.held
    ensures Enabled(s, LateWrite(0)) && SparesHeld(s, LateWrite(0))
    ensures v in Next(s, LateWrite(0)).rows && Next(s, LateWrite(0)).rows[v].databases == databases
  {
  }

  /** The status sync can lose a list: scanned while the row listed nothing, asked about once
      the volume has been given a database and detached again, it frees the row with the
      empty list it scanned. */
  lemma SyncLosesList(start: State, v: Volume, i: Instance, db: Database)
    requires Initial(start) && v in start.rows && start.rows[v].status == Attached && start.rows[v].databases == []
    requires v in start.ec2
    ensures exists s :: Reachable(Guarded, start, s) && Listed(s, v, db) && v in s.ec2 && v !in s.doomed
                        && Enabled(s, LateWrite(0)) && SparesHeld(s, LateWrite(0))
                        && v in Next(s, LateWrite(0)).rows && Next(s, LateWrite(0)).rows[v].databases == []
  {
    var s := ScanReaches(Guarded, start, v);
    hide Reachable, Initial, Fits, LaunchNext, LaunchEnabled, TableNext, TableEnabled;
    s := AttachReaches(Guarded, start, s, 0, v, i, [db]);
    assert InUse(s, v) && s.rows[v].databases == [db];
    hide FinalDatabases;
    s := DetachReaches(Guarded, start, s, v);
    assert s.rows[v].databases == [db];
    hide DetachWrite, Next, SparesHeld;
    s := DescribeReaches(Guarded, start, s, 0, v);
    FreeingWrites(s, v, []);
    assert Listed(s, v, db);
  }

  /** A launch has read the list of a free volume, and the volume is detached before it
      writes. */
  lemma ReaderOvertaken(start: State, v: Volume, i: Instance, a: Database) returns (s: State)
    requires Initial(start) && Claimable(start.rows, v) && start.rows[v].databases == []
    requires v in start.ec2 && start.ec2[v] == None
    ensures Reachable(Keeping, start, s) && s.live == map[0 := Launch(i, v, Some(start.now), [a], Ready([a]))]
    ensures Claimable(s.rows, v) && s.rows[v].databases == [] && v in s.ec2 && s.ec2[v] == None && s.doomed == {}
  {
    ReachesSelf(Keeping, start);
    s := ClaimReaches(Keeping, start, start, 0, v, i, [a]);
    s := ReadReaches(Keeping, start, s, 0);
    var x := Launch(i, v, Some(start.now), [a], Ready([a]));
    assert s.live == map[0 := x] && v in s.known && v in s.rows && s.rows[v].databases == [];
    hide Reachable, Enabled, Next, Initial;
    s := DetachLeaves(start, s, v, x);
  }

  lemma DetachLeaves(start: State, s: State, v: Volume, x: Launch) returns (t: State)
    requires Reachable(Keeping, start, s) && s.live == map[0 := x] && x.phase.Ready?
    requires v in s.known && v in s.rows && v in s.ec2
    ensures Reachable(Keeping, start, t) && t.live == s.live && t.doomed == s.doomed
    ensures Claimable(t.rows, v) && t.rows[v].databases == s.rows[v].databases && v in t.ec2 && t.ec2[v] == None
  {
    hide Reachable, LaunchEnabled, LaunchNext, TaskEnabled, TaskNext, ListEnabled, ListNext;
    t := StepReaches(Keeping, start, s, Detach(v));
    assert t.live == s.live;
  }

  /** That lets a second launch read the same list: the one to write last drops what the
      other has registered. */
  lemma TwoReadersLoseList(start: State, v: Volume, i: Instance, j: Instance, a: Database, b: Database)
    requires Initial(start) && Claimable(start.rows, v) && start.rows[v].databases == [] && a != b
    requires v in start.ec2 && start.ec2[v] == None
    ensures exists s :: Reachable(Keeping, start, s) && Listed(s, v, a) && v in s.ec2 && v !in s.doomed
                        && !StaysListed(s, v, a)
  {
    var s := ReaderOvertaken(start, v, i, a);
    hide Reachable, Initial, TaskEnabled, TaskNext, ListEnabled, ListNext, TableEnabled, TableNext;
    s := ClaimReaches(Keeping, start, s, 1, v, j, [b]);
    s := ReadReaches(Keeping, start, s, 1);
    s := StepReaches(Keeping, start, s, WriteAttached(0));
    assert s.live[1].volume == v && s.live[1].phase == Ready([b]) && s.rows[v].databases == [a];
    hide StaysListed, LaunchEnabled, LaunchNext;
    UnreadIsDropped(s, v, a);
  }

  /** The removal of a database can lose another, added since the list was read: its write
      depends only on whether the row still lists the one to be removed. */
  lemma RemovalLosesAppend(start: State, v: Volume, a: Database, b: Database)
    requires Initial(start) && v in start.rows && start.rows[v].status == Attached && start.rows[v].databases == [a]
    requires a != b
    ensures exists s :: Reachable(Guarded, start, s) && Listed(s, v, b) && Enabled(s, Remove(0, v, a))
                        && v in Next(s, Remove(0, v, a)).rows && Next(s, Remove(0, v, a)).rows[v].databases == []
  {
    ReachesSelf(Guarded, start);
    hide Reachable, LaunchEnabled, LaunchNext, TaskEnabled, TaskNext, TableEnabled, TableNext;
    var s := StepReaches(Guarded, start, start, RemoveRead(0, v, a));
    s := StepReaches(Guarded, start, s, Append(v, b));
    assert s.tasks[0] == Removing(v, a, [a]) && s.rows[v].databases == [a, b];
    hide Next, Initial;
    RemovalWrites(s, v, a);
  }

  lemma RemovalWrites(s: State, v: Volume, a: Database)
    requires 0 in s.tasks && s.tasks[0] == Removing(v, a, [a]) && Listed(s, v, a)
    ensures Enabled(s, Remove(0, v, a))
    ensures v in Next(s, Remove(0, v, a)).rows && Next(s, Remove(0, v, a)).rows[v].databases == []
  {
    hide LaunchEnabled, LaunchNext, TaskEnabled, TaskNext, TableEnabled, TableNext;
    assert Without([a], a) == [];
  }
}
