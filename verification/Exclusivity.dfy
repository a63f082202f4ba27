// No two launches hold one volume over the runs of Protocol, and the runs in which they do.

module Exclusivity {
  import opened Basics
  import opened Registry
  import opened Protocol

  /** Nobody else can claim the row a launch works on, nor sweep it. */
  predicate OwnsRow(s: State, l: LaunchId)
    requires l in s.live
  {
    var x := s.live[l];
    !PastWrite(x) && x.volume in s.rows ==>
      && s.rows[x.volume].status !in {Available, Attached, Expanding}
      && (s.rows[x.volume].status == Claiming ==> s.rows[x.volume].claimedAt == x.claimedAt)
  }

  /** The map from launches to the volumes they hold is injective. An outdated launch no
      longer holds the volume that was detached from it. */
  ghost predicate Apart(s: State) {
    forall l, l' ::
      l in s.live && l' in s.live && l != l' && !s.live[l].phase.Outdated? && !s.live[l'].phase.Outdated? ==>
        s.live[l].volume != s.live[l'].volume
  }

  ghost predicate Exclusive(s: State) {
    (forall l :: l in s.live ==> OwnsRow(s, l)) && Apart(s)
  }

  lemma ClaimKeepsExclusive(s: State, step: Step)
    requires Agreement(s) && Exclusive(s) && Allowed(Sparing, s, step)
    requires step.Claim?
    ensures Exclusive(Next(s, step))
  {
    hide TaskEnabled, TaskNext, TableEnabled, TableNext, ListEnabled, ListNext;
    hide SparesHeld;
    forall l | l in s.live && !s.live[l].phase.Outdated?
      ensures s.live[l].volume != step.volume
    {
      assert OwnsRow(s, l) && LaunchSound(s, l);
      if s.live[l].phase.Routing? {
        assert Agrees(s, s.live[l].volume);
      }
    }
  }

  lemma StartKeepsExclusive(s: State, step: Step)
    requires Agreement(s) && Exclusive(s) && Allowed(Sparing, s, step)
    requires step.Create? || step.Register?
    ensures Exclusive(Next(s, step))
  {
    hide TaskEnabled, TaskNext, TableEnabled, TableNext, ListEnabled, ListNext;
  }

  lemma AttachKeepsExclusive(s: State, step: Step)
    requires Agreement(s) && Exclusive(s) && Allowed(Sparing, s, step)
    requires step.Accept? || step.ReadDatabases? || step.WriteAttached?
    ensures Exclusive(Next(s, step))
  {
    hide TaskEnabled, TaskNext, TableEnabled, TableNext, ListEnabled, ListNext;
  }

  ghost predicate RouteKeeps(s: State, step: Step, l: LaunchId)
    requires Enabled(s, step) && l in Next(s, step).live
  {
    var next := Next(s, step);
    && l in s.live && next.live[l].volume == s.live[l].volume && next.rows == s.rows
    && PastWrite(next.live[l]) == PastWrite(s.live[l])
    && next.live[l].phase.Outdated? == s.live[l].phase.Outdated? && next.live[l].claimedAt == s.live[l].claimedAt
  }

  lemma RouteMoves(s: State, step: Step, l: LaunchId)
    requires Enabled(s, step) && step.Route? && l in Next(s, step).live
    ensures RouteKeeps(s, step, l)
  {
    hide TaskEnabled, TaskNext, TableEnabled, TableNext, ListEnabled, ListNext;
    hide AttachWrite, ClaimWrite, ReleaseWrite, RouteWrite, FinalDatabases;
  }

  lemma RouteKeepsExclusive(s: State, step: Step)
    requires Agreement(s) && Exclusive(s) && Allowed(Sparing, s, step)
    requires step.Route?
    ensures Exclusive(Next(s, step))
  {
    hide Agreement, Next, Enabled;
    forall l | l in Next(s, step).live
      ensures RouteKeeps(s, step, l)
    {
      RouteMoves(s, step, l);
    }
  }

  lemma EndKeepsExclusive(s: State, step: Step)
    requires Agreement(s) && Exclusive(s) && Allowed(Sparing, s, step)
    requires step.Fail? || step.Die?
    ensures Exclusive(Next(s, step))
  {
    hide TaskEnabled, TaskNext, TableEnabled, TableNext, ListEnabled, ListNext;
  }

  lemma TaskKeepsExclusive(s: State, step: Step)
    requires Agreement(s) && Exclusive(s) && Allowed(Sparing, s, step)
    requires step.SyncScan? || step.SyncDescribe? || step.RecoverFind? || step.RecoverCheck?
             || step.DetachRead? || step.DetachForce?
    ensures Exclusive(Next(s, step))
  {
    hide LaunchEnabled, LaunchNext, TableEnabled, TableNext, ListEnabled, ListNext;
  }

  lemma LateKeepsExclusive(s: State, step: Step)
    requires Agreement(s) && Exclusive(s) && Allowed(Sparing, s, step)
    requires step.LateWrite? || step.RecoverPut?
    ensures Exclusive(Next(s, step))
  {
    hide LaunchEnabled, LaunchNext, TableEnabled, TableNext, ListEnabled, ListNext;
  }

  lemma DetachKeepsExclusive(s: State, step: Step)
    requires Agreement(s) && Exclusive(s) && Allowed(Sparing, s, step)
    requires step.Detach?
    ensures Exclusive(Next(s, step))
  {
    hide LaunchEnabled, LaunchNext, TaskEnabled, TaskNext, ListEnabled, ListNext;
  }

  lemma LetGoKeepsExclusive(s: State, step: Step)
    requires Agreement(s) && Exclusive(s) && Allowed(Sparing, s, step)
    requires Frees(step)
    ensures Exclusive(Next(s, step))
  {
    hide LaunchEnabled, LaunchNext, ListEnabled, ListNext;
  }

  lemma SweepKeepsExclusive(s: State, step: Step)
    requires Agreement(s) && Exclusive(s) && Allowed(Sparing, s, step)
    requires step.Tick? || step.Sweep? || step.Drained?
    ensures Exclusive(Next(s, step))
  {
    hide Agreement;
    hide LaunchEnabled, LaunchNext, TaskEnabled, TaskNext, ListEnabled, ListNext;
  }

  lemma ExpandKeepsExclusive(s: State, step: Step)
    requires Agreement(s) && Exclusive(s) && Allowed(Sparing, s, step)
    requires step.Expand? || step.MarkAttached?
    ensures Exclusive(Next(s, step))
  {
    hide Agreement;
    hide LaunchEnabled, LaunchNext, TaskEnabled, TaskNext, ListEnabled, ListNext;
  }

  lemma CleanupKeepsExclusive(s: State, step: Step)
    requires Agreement(s) && Exclusive(s) && Allowed(Sparing, s, step)
    requires step.CleanupScan? || step.CleanupDelete? || step.CleanupForget?
    ensures Exclusive(Next(s, step))
  {
    hide Agreement;
    hide LaunchEnabled, LaunchNext, TaskEnabled, TaskNext, ListEnabled, ListNext;
  }

  lemma EditKeepsExclusive(s: State, step: Step)
    requires Agreement(s) && Exclusive(s) && Allowed(Sparing, s, step)
    requires step.Append? || step.Remove?
    ensures Exclusive(Next(s, step))
  {
    hide Agreement;
    hide LaunchEnabled, LaunchNext, TaskEnabled, TaskNext, TableEnabled, TableNext;
  }

  lemma ReadKeepsExclusive(s: State, step: Step)
    requires Agreement(s) && Exclusive(s) && Allowed(Sparing, s, step)
    requires step.RemoveRead? || step.ReleaseScan?
    ensures Exclusive(Next(s, step))
  {
    hide Agreement;
    hide LaunchEnabled, LaunchNext, TaskEnabled, TaskNext, TableEnabled, TableNext;
  }

  lemma StepKeepsExclusive(s: State, step: Step)
    requires Agreement(s) && Exclusive(s) && Allowed(Sparing, s, step)
    ensures Exclusive(Next(s, step))
  {
    hide Agreement, Exclusive, SparesAttaches, SparesHeld, SparesLaunches, Enabled, Next;
    match step
    case Claim(_, _, _, _) => ClaimKeepsExclusive(s, step);
    case Create(_, _, _, _) | Register(_, _, _) => StartKeepsExclusive(s, step);
    case Accept(_) | ReadDatabases(_) | WriteAttached(_) => AttachKeepsExclusive(s, step);
    case Route(_) => RouteKeepsExclusive(s, step);
    case Fail(_) | Die(_) => EndKeepsExclusive(s, step);
    case SyncScan(_, _) | SyncDescribe(_, _) | RecoverFind(_, _) | RecoverCheck(_) | DetachRead(_, _)
        | DetachForce(_) => TaskKeepsExclusive(s, step);
    case DetachAccept(_, _) | Ends(_) => LetGoKeepsExclusive(s, step);
    case LateWrite(_) | RecoverPut(_, _, _, _) => LateKeepsExclusive(s, step);
    case Detach(_) => DetachKeepsExclusive(s, step);
    case Tick(_) | Sweep(_, _) | Drained(_) => SweepKeepsExclusive(s, step);
    case Expand(_) | MarkAttached(_) => ExpandKeepsExclusive(s, step);
    case CleanupScan(_) | CleanupDelete(_) | CleanupForget(_) => CleanupKeepsExclusive(s, step);
    case Append(_, _) | Remove(_, _, _) => EditKeepsExclusive(s, step);
    case RemoveRead(_, _, _) | ReleaseScan(_, _) => ReadKeepsExclusive(s, step);
  }

  /** While late writes, sweeps and expansions spare the launches, every launch still owns the
      row it works on; a detach of a row in use meets none short of its write. */
  lemma {:induction false} RunKeepsExclusive(s: State, steps: seq<Step>, t: State)
    requires Agreement(s) && Exclusive(s) && Run(Sparing, s, steps, t)
    ensures Exclusive(t)
    ensures forall v :: InUse(t, v) ==> NoneShort(t, v)
    decreases |steps|
  {
    if steps == [] {
      assert forall l :: l in t.live ==> OwnsRow(t, l);
    } else {
      hide Agreement, Exclusive, SparesAttaches, SparesHeld, SparesLaunches, Enabled, Next;
      StepKeepsAgreement(s, steps[0]);
      StepKeepsExclusive(s, steps[0]);
      RunKeepsExclusive(Next(s, steps[0]), steps[1..], t);
    }
  }

  /** However many launches run at once, the map from launch to held volume is injective. */
  lemma LaunchesHoldApart(start: State, steps: seq<Step>, s: State)
    requires Initial(start) && Run(Sparing, start, steps, s)
    ensures Apart(s)
  {
    InitialAgrees(start);
    RunKeepsExclusive(start, steps, s);
  }

  /** When a step is safe: every continuation keeps launches apart if and only if it makes no
      row available, and marks none as expanding, on which a launch is short of its own
      write. */
  lemma StepKeepsApartIff(s: State, step: Step)
    requires Agreement(s) && Exclusive(s) && Enabled(s, step) && SparesAttaches(s, step) && SparesHeld(s, step)
    ensures SparesLaunches(s, step) <==> forall t :: Reachable(Sparing, Next(s, step), t) ==> Apart(t)
  {
    var next := Next(s, step);
    if SparesLaunches(s, step) {
      StepKeepsAgreement(s, step);
      StepKeepsExclusive(s, step);
      hide Next, Agreement, Run, OwnsRow, Apart;
      forall t | Reachable(Sparing, next, t)
        ensures Apart(t)
      {
        var steps :| Run(Sparing, next, steps, t);
        RunKeepsExclusive(next, steps, t);
      }
    } else if step.Expand? {
      var t := ExpandMidClaimShares(s, step.volume, "");
    } else {
      var t := FreedRowIsShared(s, step, "");
    }
  }

  /** A row becomes available while a launch is short of its own write on it: another claims
      it, from whatever instance. */
  lemma FreedRowIsShared(s: State, step: Step, i: Instance) returns (t: State)
    requires Enabled(s, step) && !SparesLaunches(s, step) && !step.Expand?
    ensures Reachable(Sparing, Next(s, step), t) && !Apart(t)
  {
    var next := Next(s, step);
    var v := if step.Sweep? then step.volume else s.tasks[step.task].volume;
    var l :| l in s.live && !PastWrite(s.live[l]) && s.live[l].volume == v;
    assert next.live == s.live && Claimable(next.rows, v);
    ReachesSelf(Sparing, next);
    hide Next, Enabled;
    t := ClaimShares(next, next, l, i);
  }

  lemma ClaimShares(start: State, s: State, l: LaunchId, i: Instance) returns (t: State)
    requires Reachable(Sparing, start, s) && l in s.live && !PastWrite(s.live[l]) && Claimable(s.rows, s.live[l].volume)
    ensures Reachable(Sparing, start, t) && !Apart(t)
  {
    var l2 := FreshLaunch(s.live.Keys);
    hide Reachable;
    t := ClaimStepReaches(Sparing, start, s, l2, s.live[l].volume, i, []);
    assert t.live[l] == s.live[l] && t.live[l2].volume == s.live[l].volume;
  }

  /** An expansion of a row on which a launch is short of its own write makes a detach pass
      its guard, and another launch shares the volume. The monitor does not keep from it: it
      finds the volume by its attachment in EC2 and then writes the row. */
  lemma ExpandMidClaimShares(s: State, v: Volume, i: Instance) returns (t: State)
    requires Agreement(s) && Enabled(s, Expand(v)) && !NoneShort(s, v)
    ensures Reachable(Sparing, Next(s, Expand(v)), t) && !Apart(t)
  {
    var next := Next(s, Expand(v));
    var l :| l in s.live && !PastWrite(s.live[l]) && s.live[l].volume == v;
    assert v in s.known && InUse(next, v) && next.live == s.live && next.known == s.known;
    ReachesSelf(Sparing, next);
    hide Next, Enabled, Agreement, Reachable;
    t := UsedRowShares(next, l, i);
  }

  lemma UsedRowShares(s: State, l: LaunchId, i: Instance) returns (t: State)
    requires l in s.live && !PastWrite(s.live[l]) && InUse(s, s.live[l].volume) && s.live[l].volume in s.known
    ensures Reachable(Sparing, s, t) && !Apart(t)
  {
    var v := s.live[l].volume;
    ReachesSelf(Sparing, s);
    hide Reachable, LaunchEnabled, LaunchNext, TaskEnabled, TaskNext, ListEnabled, ListNext;
    t := StepReaches(Sparing, s, s, Detach(v));
    assert t.live[l] == s.live[l] && Claimable(t.rows, v);
    hide TableEnabled, TableNext;
    t := ClaimShares(s, t, l, i);
  }

  /** A launch works on a claim of the volume that is past the limit. */
  predicate WorksOnStaleClaim(s: State, l: LaunchId, v: Volume) {
    && l in s.live && !PastWrite(s.live[l]) && s.live[l].volume == v && s.live[l].claimedAt.Some?
    && v in s.rows && s.rows[v].status == Claiming && s.now - s.live[l].claimedAt.value > STALE_CLAIM_SECONDS
  }

  /** When a volume can come to be shared after a sweep: exactly when a launch works on a
      claim of it that is past the limit. */
  lemma StaleClaimIsSharedIff(s: State, v: Volume)
    requires Agreement(s) && Exclusive(s)
    ensures (exists l :: WorksOnStaleClaim(s, l, v)) <==>
            exists cutoff, t ::
              Enabled(s, Sweep(v, cutoff)) && Reachable(Sparing, Next(s, Sweep(v, cutoff)), t) && !Apart(t)
  {
    if l :| WorksOnStaleClaim(s, l, v) {
      var sweep := Sweep(v, s.now - STALE_CLAIM_SECONDS);
      assert OwnsRow(s, l);
      assert Enabled(s, sweep) && !SparesLaunches(s, sweep);
      var t := FreedRowIsShared(s, sweep, "");
    } else {
      forall cutoff, t | Enabled(s, Sweep(v, cutoff)) && Reachable(Sparing, Next(s, Sweep(v, cutoff)), t)
        ensures Apart(t)
      {
        SweepSparesFresh(s, v, cutoff);
        StepKeepsApartIff(s, Sweep(v, cutoff));
      }
    }
  }

  lemma SweepSparesFresh(s: State, v: Volume, cutoff: int)
    requires Exclusive(s) && Enabled(s, Sweep(v, cutoff)) && forall l :: !WorksOnStaleClaim(s, l, v)
    ensures SparesLaunches(s, Sweep(v, cutoff))
  {
    if StaleClaim(s.rows, v, cutoff) {
      forall l | l in s.live && !PastWrite(s.live[l])
        ensures s.live[l].volume != v
      {
        assert OwnsRow(s, l) && !WorksOnStaleClaim(s, l, v);
      }
    }
  }

  /** No live launch that is short of its own write has held its claim past the limit. */
  predicate ClaimsAreFresh(s: State) {
    forall l :: l in s.live && s.live[l].claimedAt.Some? && !PastWrite(s.live[l]) ==>
      s.now - s.live[l].claimedAt.value <= STALE_CLAIM_SECONDS
  }

  /** So claims that never go stale are enough for sweeps. */
  lemma FreshClaimsSpareSweeps(s: State, step: Step)
    requires Exclusive(s) && ClaimsAreFresh(s) && step.Sweep? && Enabled(s, step)
    ensures SparesLaunches(s, step)
  {
    assert forall l :: !WorksOnStaleClaim(s, l, step.volume);
    SweepSparesFresh(s, step.volume, step.cutoff);
  }

  // ---- Runs in which a late write does not spare them ----

  /** Two launches that recover the same volume both find that it has no row; the first
      has put its row, and the put of the second is still to come. */
  lemma SecondPutPends(start: State, v: Volume, db: Database, az: string, tier: string) returns (s: State)
    requires Initial(start) && v in start.ec2 && start.ec2[v] == None && v !in start.rows
    ensures Reachable(Sparing, start, s)
    ensures s == start.(rows := RecoverWrite(start.rows, v, db, az, tier), tasks := map[1 := Rowless(v)])
  {
    ReachesSelf(Sparing, start);
    hide Reachable;
    s := CheckReaches(Sparing, start, start, 0, v);
    s := CheckReaches(Sparing, start, s, 1, v);
    assert s == start.(tasks := map[0 := Rowless(v), 1 := Rowless(v)]);
    s := StepReaches(Sparing, start, s, RecoverPut(0, db, az, tier));
    assert s.tasks == map[1 := Rowless(v)];
  }

  /** If the first has claimed its volume by then, the second put frees the claimed row:
      another launch comes to share the volume, with no claim stale. */
  lemma SecondPutShares(start: State, v: Volume, i: Instance, db: Database, az: string, tier: string)
    requires Initial(start) && v in start.ec2 && start.ec2[v] == None && v !in start.rows
    ensures exists s, t :: Reachable(Sparing, start, s) && Enabled(s, RecoverPut(1, db, az, tier))
                           && SparesHeld(s, RecoverPut(1, db, az, tier))
                           && Reachable(Sparing, Next(s, RecoverPut(1, db, az, tier)), t) && !Apart(t)
  {
    assert start.live == map[] && start.held == map[];
    var s := SecondPutPends(start, v, db, az, tier);
    hide Reachable, Enabled, Next, Initial;
    s := ClaimStepReaches(Sparing, start, s, 0, v, i, []);
    var t := PutShares(s, 0, i, RecoverPut(1, db, az, tier));
  }

  lemma PutShares(s: State, l: LaunchId, i: Instance, put: Step) returns (t: State)
    requires put.RecoverPut? && put.task in s.tasks && s.tasks[put.task].Rowless?
    requires s.tasks[put.task].volume !in s.held
    requires l in s.live && !PastWrite(s.live[l]) && s.live[l].volume == s.tasks[put.task].volume
    ensures Enabled(s, put) && SparesHeld(s, put) && Reachable(Sparing, Next(s, put), t) && !Apart(t)
  {
    hide LaunchEnabled, LaunchNext, TaskNext, TableEnabled, TableNext, ListEnabled, ListNext, Reachable;
    assert Enabled(s, put) && !SparesLaunches(s, put);
    t := FreedRowIsShared(s, put, i);
  }

  /** If the first has marked it attached by then, the second put breaks the agreement. */
  lemma SecondPutUnmarks(start: State, v: Volume, i: Instance, db: Database, az: string, tier: string)
    requires Initial(start) && v in start.ec2 && start.ec2[v] == None && v !in start.rows
    ensures exists s :: Reachable(Sparing, start, s) && Enabled(s, RecoverPut(1, db, az, tier)) && HeldAgree(s)
                        && !HeldAgree(Next(s, RecoverPut(1, db, az, tier)))
  {
    InitialAgrees(start);
    var s := SecondPutPends(start, v, db, az, tier);
    hide Reachable, Fits, Initial;
    s := AttachReaches(Sparing, start, s, 0, v, i, []);
    hide LaunchEnabled, LaunchNext, TaskNext, TableEnabled, TableNext, ListEnabled, ListNext;
    ReachableAgrees(Sparing, start, s);
    LateWriteBreaks(s, RecoverPut(1, db, az, tier));
  }

  /** A volume just created has no row yet, and a recovery can find it so. */
  lemma PutMeetsCreation(start: State, v: Volume, i: Instance, db: Database, az: string, tier: string)
    requires Initial(start) && v !in start.known
    ensures exists s, t :: Reachable(Sparing, start, s) && Enabled(s, RecoverPut(0, db, az, tier))
                           && SparesHeld(s, RecoverPut(0, db, az, tier))
                           && Reachable(Sparing, Next(s, RecoverPut(0, db, az, tier)), t) && !Apart(t)
  {
    ReachesSelf(Sparing, start);
    hide Reachable;
    var s := StepReaches(Sparing, start, start, Create(0, i, v, [db]));
    s := CheckReaches(Sparing, start, s, 0, v);
    assert s.tasks == map[0 := Rowless(v)] && s.live == map[0 := Launch(i, v, None, [db], Creating)];
    var t := PutShares(s, 0, i, RecoverPut(0, db, az, tier));
  }

  lemma LateFreeShares(s: State, l: LaunchId, i: Instance) returns (t: State)
    requires 0 in s.tasks && s.tasks[0].Freeing? && s.tasks[0].volume !in s.held
    requires l in s.live && !PastWrite(s.live[l]) && s.live[l].volume == s.tasks[0].volume
    ensures Enabled(s, LateWrite(0)) && SparesHeld(s, LateWrite(0))
    ensures Reachable(Sparing, Next(s, LateWrite(0)), t) && !Apart(t)
  {
    hide LaunchEnabled, LaunchNext, TaskNext, TableEnabled, TableNext, Reachable;
    assert Enabled(s, LateWrite(0)) && !SparesLaunches(s, LateWrite(0));
    t := FreedRowIsShared(s, LateWrite(0), i);
  }

  /** The status sync scans a row as attached, the volume is detached and EC2 reports it
      free; by the time the sync frees the row another launch has claimed it. */
  lemma SyncFreesClaim(start: State, v: Volume, i: Instance)
    requires Initial(start) && v in start.rows && start.rows[v].status == Attached && v in start.ec2
    ensures exists s, t :: Reachable(Sparing, start, s) && Enabled(s, LateWrite(0)) && SparesHeld(s, LateWrite(0))
                           && Reachable(Sparing, Next(s, LateWrite(0)), t) && !Apart(t)
  {
    var s := ScanReaches(Sparing, start, v);
    s := DescribeReaches(Sparing, start, s, 0, v);
    hide Reachable, Initial, Enabled, Next;
    s := ClaimStepReaches(Sparing, start, s, 0, v, i, []);
    var t := LateFreeShares(s, 0, i);
  }

  /** A detach has freed the volume in EC2; before it writes the row, the status sync frees
      that and another launch claims it. */
  lemma DetachFreesClaim(start: State, v: Volume, i: Instance)
    requires Initial(start) && v in start.rows && start.rows[v].status == Attached
    requires v in start.ec2 && start.ec2[v] != None
    ensures exists s, t :: Reachable(Sparing, start, s) && Enabled(s, LateWrite(0)) && SparesHeld(s, LateWrite(0))
                           && Reachable(Sparing, Next(s, LateWrite(0)), t) && !Apart(t)
  {
    var s := FreeReaches(Sparing, start, v);
    s := SyncReaches(Sparing, start, s, v);
    hide Reachable, Initial, Enabled, Next;
    s := ClaimStepReaches(Sparing, start, s, 0, v, i, []);
    var t := LateFreeShares(s, 0, i);
  }

  lemma SyncReaches(r: Regime, start: State, s: State, v: Volume) returns (t: State)
    requires r.Sparing? && Reachable(r, start, s) && Fits(r, s) && s.live == map[] && s.held == map[]
    requires v in s.rows && s.rows[v].status == Attached && v in s.ec2 && s.ec2[v] == None && s.tasks.Keys == {0}
    ensures Reachable(r, start, t) && Fits(r, t)
    ensures t == s.(rows := FreeWrite(s.rows, v, s.rows[v].databases, s.now))
  {
    hide Reachable, LaunchEnabled, LaunchNext, TableEnabled, TableNext, ListEnabled, ListNext;
    t := StepReaches(r, start, s, SyncScan(1, v));
    t := DescribeReaches(r, start, t, 1, v);
    hide Decide, FreeWrite;
    t := StepReaches(r, start, t, LateWrite(1));
    assert t.tasks == s.tasks;
  }
}
