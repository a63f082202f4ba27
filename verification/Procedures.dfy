// Each procedure of Protocol by itself, uninterrupted: what its steps in a row leave of the
// row, the volume and the entries, said in their own fields.

module Procedures {
  import opened Basics
  import opened Registry
  import opened Protocol

  /** Only this volume's row differs. */
  ghost predicate OnlyRow(before: Rows, after: Rows, v: Volume) { before - {v} == after - {v} }

  /** A launch that takes a free volume from the pool: the row is attached to its instance
      and lists what it did, or else what the launch asked for; so says EC2. */
  lemma LaunchInOnePiece(s: State, l: LaunchId, v: Volume, i: Instance, caller: seq<Database>)
    returns (claimed: State, accepted: State, read: State, t: State)
    requires l !in s.live && v in s.rows && s.rows[v].status == Available && v in s.ec2 && s.ec2[v] == None
    ensures Leads(s, Claim(l, i, v, caller), claimed) && Leads(claimed, Accept(l), accepted)
    ensures Leads(accepted, ReadDatabases(l), read) && Leads(read, WriteAttached(l), t)
    ensures claimed.rows[v].status == Claiming && claimed.rows[v].instance == i
            && claimed.rows[v].claimedAt == Some(s.now)
    ensures v in t.rows && t.rows[v].status == Attached && t.rows[v].instance == i
    ensures t.rows[v].databases == if |s.rows[v].databases| > 0 then s.rows[v].databases else caller
    ensures t.rows[v].az == s.rows[v].az && t.rows[v].tier == s.rows[v].tier && OnlyRow(s.rows, t.rows, v)
    ensures t.ec2 == s.ec2[v := Some(i)] && t.routes == s.routes && v in t.held && t.held[v] == i
    ensures l in t.live && t.live[l].phase == Routing(t.rows[v].databases)
  {
    hide TaskEnabled, TaskNext, TableEnabled, TableNext, ListEnabled, ListNext;
    claimed := Next(s, Claim(l, i, v, caller));
    accepted := Next(claimed, Accept(l));
    assert accepted.rows == claimed.rows && accepted.live[l] == Launch(i, v, Some(s.now), caller, Accepted);
    read := Next(accepted, ReadDatabases(l));
    assert read.live[l] == Launch(i, v, Some(s.now), caller, Ready(FinalDatabases(claimed.rows, v, caller)));
    t := Next(read, WriteAttached(l));
  }

  /** One that fails before its write gives its claim back, and nothing else. */
  lemma FailureInOnePiece(s: State, l: LaunchId, v: Volume, i: Instance, caller: seq<Database>)
    returns (claimed: State, t: State)
    requires l !in s.live && v in s.rows && s.rows[v].status == Available
    ensures Leads(s, Claim(l, i, v, caller), claimed) && Leads(claimed, Fail(l), t)
    ensures v in t.rows && t.rows[v].status == Available && t.rows[v].claimedAt == None
    ensures t.rows[v].databases == s.rows[v].databases && OnlyRow(s.rows, t.rows, v)
    ensures t.ec2 == s.ec2 && t.routes == s.routes && t.live == s.live
  {
    hide TaskEnabled, TaskNext, TableEnabled, TableNext, ListEnabled, ListNext;
    claimed := Next(s, Claim(l, i, v, caller));
    t := Next(claimed, Fail(l));
    assert claimed.live - {l} == s.live;
  }

  /** One that created its volume, or whose claim another instance has taken over, gives
      nothing back. */
  lemma LosingRelease(s: State, l: LaunchId)
    requires l in s.live && !PastWrite(s.live[l])
    requires var v := s.live[l].volume;
             s.live[l].claimedAt == None ||
             (v in s.rows ==> s.rows[v].instance != s.live[l].instance || s.rows[v].status != Claiming)
    ensures Leads(s, Fail(l), s.(live := s.live - {l}))
  {
  }

  /** A new volume is in EC2, attached to none, before it has a row, which then names the
      instance it is being attached to and the databases asked for. */
  lemma CreationInOnePiece(s: State, l: LaunchId, v: Volume, i: Instance, caller: seq<Database>, az: string,
                           tier: string)
    returns (created: State, t: State)
    requires l !in s.live && v !in s.known
    ensures Leads(s, Create(l, i, v, caller), created) && Leads(created, Register(l, az, tier), t)
    ensures created.rows == s.rows && created.ec2 == s.ec2[v := None] && t.ec2 == created.ec2
    ensures v in t.rows && t.rows[v].status == Attaching && t.rows[v].instance == i
    ensures t.rows[v].az == az && t.rows[v].tier == tier && t.rows[v].databases == caller
    ensures t.rows[v].claimedAt == None && t.rows[v].lastDetached == None && OnlyRow(s.rows, t.rows, v)
  {
    hide TaskEnabled, TaskNext, TableEnabled, TableNext, ListEnabled, ListNext;
    created := Next(s, Create(l, i, v, caller));
    t := Next(created, Register(l, az, tier));
  }

  /** A recovery of a free volume without a row makes it available, with the database and the
      place its tags name. */
  lemma RecoveryInOnePiece(s: State, k: TaskId, v: Volume, db: Database, az: string, tier: string)
    returns (found: State, checked: State, t: State)
    requires k !in s.tasks && v in s.ec2 && s.ec2[v] == None && v !in s.rows
    ensures Leads(s, RecoverFind(k, v), found) && Leads(found, RecoverCheck(k), checked)
    ensures Leads(checked, RecoverPut(k, db, az, tier), t)
    ensures v in t.rows && t.rows[v].status == Available && t.rows[v].instance == "unattached"
    ensures t.rows[v].az == az && t.rows[v].tier == tier && t.rows[v].databases == [db]
    ensures t.rows[v].claimedAt == None && t.rows[v].lastDetached == None && OnlyRow(s.rows, t.rows, v)
    ensures t.ec2 == s.ec2 && t.tasks == s.tasks
  {
    hide LaunchEnabled, LaunchNext, TableEnabled, TableNext, ListEnabled, ListNext;
    found := Next(s, RecoverFind(k, v));
    checked := Next(found, RecoverCheck(k));
    assert checked.tasks == s.tasks[k := Rowless(v)];
    t := Next(checked, RecoverPut(k, db, az, tier));
    assert s.tasks[k := Rowless(v)] - {k} == s.tasks;
  }

  /** One that finds a row leaves everything as it was. */
  lemma RecoverySparesRows(s: State, k: TaskId, v: Volume) returns (found: State, t: State)
    requires k !in s.tasks && v in s.ec2 && s.ec2[v] == None && v in s.rows
    ensures Leads(s, RecoverFind(k, v), found) && Leads(found, RecoverCheck(k), t) && t == s
  {
    hide LaunchEnabled, LaunchNext, TableEnabled, TableNext, ListEnabled, ListNext;
    found := Next(s, RecoverFind(k, v));
    t := Next(found, RecoverCheck(k));
    assert s.tasks[k := Found(v)] - {k} == s.tasks;
  }

  /** What a round of the status sync, uninterrupted, leaves of a row that is not available.
      `gone`: EC2 does not know the row's instance, or reports it terminated. */
  ghost predicate InAgreement(before: Rows, after: Rows, ec2: Attachments, v: Volume, now: int, gone: bool)
    requires v in before
  {
    var row := before[v];
    && OnlyRow(before, after, v) && (v in after <==> v in ec2)
    && (v in ec2 ==>
          && after[v].databases == row.databases && after[v].az == row.az && after[v].tier == row.tier
          && after[v].claimedAt == row.claimedAt
          && after[v].status == (if row.status == Attached && ec2[v] == None then Available else row.status)
          && after[v].lastDetached == (if row.status == Attached && ec2[v] == None then Some(now) else row.lastDetached)
          && after[v].instance == if row.status != Attached then row.instance
                                  else if ec2[v] == None then "unattached"
                                  else if gone then ec2[v].value
                                  else row.instance)
  }

  /** It drops the row of a volume EC2 does not have; it frees an attached row that EC2 has
      attached to none; and when the row's instance is gone it names the one EC2 does. */
  lemma SyncInOnePiece(s: State, k: TaskId, v: Volume, gone: bool) returns (scanned: State, asked: State, t: State)
    requires k !in s.tasks && v in s.rows && s.rows[v].status != Available
    ensures Leads(s, SyncScan(k, v), scanned) && Leads(scanned, SyncDescribe(k, gone), asked)
    ensures t == asked || Leads(asked, LateWrite(k), t)
    ensures InAgreement(s.rows, t.rows, s.ec2, v, s.now, gone) && t.ec2 == s.ec2 && t.tasks == s.tasks
  {
    hide LaunchEnabled, LaunchNext, TableEnabled, TableNext, ListEnabled, ListNext;
    scanned := Next(s, SyncScan(k, v));
    asked := SyncAsks(s, scanned, k, v, gone);
    t := asked;
    hide Enabled, Next;
    if k in asked.tasks {
      t := SyncWrites(s, asked, k, v, gone);
    } else {
      assert s.tasks[k := Scanned(v, s.rows[v])] - {k} == s.tasks;
    }
  }

  lemma SyncAsks(s: State, scanned: State, k: TaskId, v: Volume, gone: bool) returns (asked: State)
    requires k !in s.tasks && v in s.rows && scanned == s.(tasks := s.tasks[k := Scanned(v, s.rows[v])])
    ensures Leads(scanned, SyncDescribe(k, gone), asked)
    ensures asked == s.(tasks := Decide(scanned.tasks, k, v, s.rows[v], s.ec2, gone))
  {
    hide LaunchEnabled, LaunchNext, TableEnabled, TableNext, ListEnabled, ListNext, Decide;
    asked := Next(scanned, SyncDescribe(k, gone));
  }

  lemma SyncWrites(s: State, asked: State, k: TaskId, v: Volume, gone: bool) returns (t: State)
    requires k !in s.tasks && v in s.rows && k in asked.tasks
    requires asked == s.(tasks := Decide(s.tasks[k := Scanned(v, s.rows[v])], k, v, s.rows[v], s.ec2, gone))
    ensures Leads(asked, LateWrite(k), t)
    ensures InAgreement(s.rows, t.rows, s.ec2, v, s.now, gone) && t.ec2 == s.ec2 && t.tasks == s.tasks
  {
    hide LaunchEnabled, LaunchNext, TableEnabled, TableNext, ListEnabled, ListNext;
    t := Next(asked, LateWrite(k));
    assert asked.tasks == s.tasks[k := asked.tasks[k]];
    assert s.tasks[k := asked.tasks[k]] - {k} == s.tasks;
    hide Enabled, Next;
    WriteAgrees(s.rows, asked.tasks[k], v, s.ec2, s.now, gone);
  }

  /** What the sync has decided on is what brings the row into agreement. */
  lemma WriteAgrees(rows: Rows, task: Task, v: Volume, ec2: Attachments, now: int, gone: bool)
    requires v in rows
    requires 0 in Decide(map[], 0, v, rows[v], ec2, gone) && Decide(map[], 0, v, rows[v], ec2, gone)[0] == task
    ensures InAgreement(rows, DecidedWrite(rows, task, now), ec2, v, now, gone)
  {
  }

  /** The release of a dead instance's volume frees its row, with the list it had. */
  lemma ReleaseInOnePiece(s: State, k: TaskId, v: Volume) returns (scanned: State, t: State)
    requires k !in s.tasks && v in s.rows
    ensures Leads(s, ReleaseScan(k, v), scanned) && Leads(scanned, LateWrite(k), t)
    ensures t == s.(rows := t.rows) && OnlyRow(s.rows, t.rows, v) && v in t.rows
    ensures t.rows[v].status == Available && t.rows[v].instance == "unattached" && t.rows[v].lastDetached == Some(s.now)
    ensures t.rows[v].databases == s.rows[v].databases && t.rows[v].claimedAt == s.rows[v].claimedAt
  {
    hide LaunchEnabled, LaunchNext, TableEnabled, TableNext;
    scanned := Next(s, ReleaseScan(k, v));
    assert scanned.tasks == s.tasks[k := Freeing(v, s.rows[v].databases)];
    t := Next(scanned, LateWrite(k));
    assert scanned.tasks - {k} == s.tasks;
  }

  /** Time can pass and a live launch can die at any moment, with nothing else changed. */
  lemma TimeAndDeath(s: State, seconds: nat, l: LaunchId)
    ensures Leads(s, Tick(seconds), s.(now := s.now + seconds))
    ensures l in s.live ==> Leads(s, Die(l), s.(live := s.live - {l}))
  {
  }

  /** A cleanup of a volume that has been available without databases for more than a day, and
      is attached to none, takes it from EC2 and then its row from the registry, and that is
      all it does. */
  lemma CleanupInOnePiece(s: State, v: Volume) returns (scanned: State, deleted: State, t: State)
    requires v in s.rows && s.rows[v].status == Available && s.rows[v].databases == []
    requires s.rows[v].lastDetached.Some? && s.now - s.rows[v].lastDetached.value > 24 * 60 * 60
    requires v in s.ec2 && s.ec2[v] == None && v !in s.doomed && v !in s.gone
    ensures Leads(s, CleanupScan({v}), scanned) && Leads(scanned, CleanupDelete(v), deleted)
    ensures deleted.rows == s.rows && v !in deleted.ec2 && v !in deleted.doomed && v in deleted.gone
    ensures Leads(deleted, CleanupForget(v), t) && t == s.(ec2 := s.ec2 - {v}, rows := s.rows - {v})
  {
    hide Enabled, Next;
    scanned := CleanupScans(s, v);
    deleted := CleanupDeletes(scanned, v);
    t := CleanupForgets(deleted, v);
    assert s.doomed + {v} - {v} == s.doomed && s.gone + {v} - {v} == s.gone;
  }

  lemma CleanupScans(s: State, v: Volume) returns (t: State)
    requires v in s.rows && s.rows[v].status == Available && s.rows[v].databases == []
    requires s.rows[v].lastDetached.Some? && s.now - s.rows[v].lastDetached.value > 24 * 60 * 60
    ensures Leads(s, CleanupScan({v}), t) && t == s.(doomed := s.doomed + {v})
  {
    hide LaunchEnabled, LaunchNext, TaskEnabled, TaskNext, ListEnabled, ListNext;
    t := Next(s, CleanupScan({v}));
  }

  lemma CleanupDeletes(s: State, v: Volume) returns (t: State)
    requires v in s.doomed && v in s.ec2 && s.ec2[v] == None
    ensures Leads(s, CleanupDelete(v), t)
    ensures t == s.(ec2 := s.ec2 - {v}, doomed := s.doomed - {v}, gone := s.gone + {v})
  {
    hide LaunchEnabled, LaunchNext, TaskEnabled, TaskNext, ListEnabled, ListNext;
    t := Next(s, CleanupDelete(v));
  }

  lemma CleanupForgets(s: State, v: Volume) returns (t: State)
    requires v in s.gone
    ensures Leads(s, CleanupForget(v), t) && t == s.(rows := s.rows - {v}, gone := s.gone - {v})
  {
    hide LaunchEnabled, LaunchNext, TaskEnabled, TaskNext, ListEnabled, ListNext;
    t := Next(s, CleanupForget(v));
  }

  /** An expansion marks the row, and its end brings an attached row back as it was; only
      rows so marked are. */
  lemma ExpansionInOnePiece(s: State, v: Volume) returns (expanded: State, t: State)
    requires v in s.ec2 && v in s.rows && s.rows[v].status in {Attached, Expanding}
    ensures Leads(s, Expand(v), expanded) && Leads(expanded, MarkAttached(v), t)
    ensures expanded.rows[v].status == Expanding && t == s.(rows := t.rows) && OnlyRow(s.rows, t.rows, v)
    ensures t.rows[v].(status := s.rows[v].status) == s.rows[v] && t.rows[v].status == Attached
    ensures s.rows[v].status == Attached ==> Leads(s, MarkAttached(v), s)
  {
    hide LaunchEnabled, LaunchNext, TaskEnabled, TaskNext, ListEnabled, ListNext;
    expanded := Next(s, Expand(v));
    t := Next(expanded, MarkAttached(v));
  }

  /** A database is added at the end of its volume's list, once. */
  lemma AppendInOnePiece(s: State, v: Volume, db: Database) returns (t: State)
    requires v in s.known && v in s.rows
    ensures Leads(s, Append(v, db), t) && t == s.(rows := t.rows) && OnlyRow(s.rows, t.rows, v)
    ensures v in t.rows && t.rows[v].(databases := s.rows[v].databases) == s.rows[v]
    ensures t.rows[v].databases ==
            if db in s.rows[v].databases then s.rows[v].databases else s.rows[v].databases + [db]
  {
    hide LaunchEnabled, LaunchNext, TaskEnabled, TaskNext, TableEnabled, TableNext;
    t := Next(s, Append(v, db));
  }

  /** And removed wherever it is in the list. */
  lemma RemovalInOnePiece(s: State, k: TaskId, v: Volume, db: Database) returns (read: State, t: State)
    requires k !in s.tasks && v in s.rows && s.rows[v].status == Attached && db in s.rows[v].databases
    ensures Leads(s, RemoveRead(k, v, db), read) && Leads(read, Remove(k, v, db), t)
    ensures t == s.(rows := t.rows) && OnlyRow(s.rows, t.rows, v)
    ensures v in t.rows && t.rows[v].(databases := s.rows[v].databases) == s.rows[v]
    ensures forall x :: x in t.rows[v].databases <==> x in s.rows[v].databases && x != db
  {
    hide LaunchEnabled, LaunchNext, TaskEnabled, TaskNext, TableEnabled, TableNext, Without;
    read := Next(s, RemoveRead(k, v, db));
    t := Next(read, Remove(k, v, db));
    assert s.tasks[k := Removing(v, db, s.rows[v].databases)] - {k} == s.tasks;
  }

  /** What a step goes by: a sync looks only at rows that are not available, EC2 accepts only
      the detach of the volume asked for when it is attached, a recovery starts from a volume
      that is attached to none and puts a row only when it has seen none, a removal starts
      from an attached row that lists the database and goes to that row for that database, and
      a write is made only when something was decided. */
  lemma StepsGoBy(s: State, step: Step)
    requires Enabled(s, step)
    ensures step.SyncScan? ==> step.volume in s.rows && s.rows[step.volume].status != Available
    ensures step.DetachAccept? ==> s.tasks[step.task].volume == step.volume && s.ec2[step.volume] != None
    ensures step.RecoverFind? ==> step.volume in s.ec2 && s.ec2[step.volume] == None
    ensures step.RecoverCheck? ==> s.tasks[step.task].Found?
    ensures step.RecoverPut? ==> s.tasks[step.task].Rowless?
    ensures step.RemoveRead? ==>
              && step.volume in s.rows && s.rows[step.volume].status == Attached
              && step.database in s.rows[step.volume].databases
    ensures step.Remove? ==>
              s.tasks[step.task] == Removing(step.volume, step.database, s.tasks[step.task].databases)
    ensures step.LateWrite? ==>
              s.tasks[step.task].Dropping? || s.tasks[step.task].Freeing? || s.tasks[step.task].Renaming?
  {
  }
}
