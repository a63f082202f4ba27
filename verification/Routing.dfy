// The graph registry over the runs of Protocol: routed entries point where the volume is.

module Routing {
  import opened Basics
  import opened Registry
  import opened Protocol

  /** The routable databases of a held volume, less those still pending, point at its
      instance. */
  ghost predicate RoutedExcept(s: State, v: Volume, pending: seq<Database>) {
    v in s.held && v in s.rows &&
    forall db :: db in s.rows[v].databases && db !in pending && Routable(s.routes, db) ==>
      s.routes[db] == s.held[v]
  }

  ghost predicate RoutingSound(s: State, l: LaunchId)
    requires l in s.live
  {
    var x := s.live[l];
    && (x.phase.Routing? ==>
          && RoutedExcept(s, x.volume, x.phase.pending)
          && forall db :: db in x.phase.pending && Routable(s.routes, db) ==> db in s.rows[x.volume].databases)
    && (x.phase.Outdated? ==> forall db :: db in x.phase.pending ==> !Routable(s.routes, db))
  }

  ghost predicate RoutesAgree(s: State) {
    && (forall v :: v in s.routed ==> RoutedExcept(s, v, []))
    && (forall l :: l in s.live ==> RoutingSound(s, l))
  }

  /** Every routable entry named by a volume whose list was routed through points at the
      instance the volume is held by. */
  ghost predicate RoutedRight(s: State) {
    forall v, db :: v in s.routed && v in s.rows && db in s.rows[v].databases && Routable(s.routes, db) ==>
      v in s.held && s.routes[db] == s.held[v]
  }

  lemma InitialRoutesAgree(s: State)
    requires Initial(s)
    ensures RoutesAgree(s)
  {
  }

  /** What leaves the lists of held volumes, the routes and the routing launches alone
      leaves the routing as it is. */
  ghost predicate RoutingUntouched(s: State, t: State) {
    && t.routes == s.routes && t.held == s.held && t.routed == s.routed
    && (forall v :: v in s.held && v in s.rows ==> v in t.rows && t.rows[v].databases == s.rows[v].databases)
    && (forall l :: l in t.live && PastWrite(t.live[l]) ==> l in s.live && t.live[l] == s.live[l])
  }

  lemma UntouchedRoutesAgree(s: State, t: State)
    requires Agreement(s) && RoutesAgree(s) && RoutingUntouched(s, t)
    ensures RoutesAgree(t)
  {
    forall l | l in t.live
      ensures RoutingSound(t, l)
    {
      if PastWrite(t.live[l]) {
        assert RoutingSound(s, l) && LaunchSound(s, l);
      }
    }
  }

  lemma StartKeepsRoutes(s: State, step: Step)
    requires Agreement(s) && RoutesAgree(s) && Allowed(Tidy, s, step)
    requires step.Claim? || step.Create? || step.Register?
    ensures RoutesAgree(Next(s, step))
  {
    hide TaskEnabled, TaskNext, TableEnabled, TableNext, ListEnabled, ListNext;
    hide RoutesAgree, DisjointLists;
    UntouchedRoutesAgree(s, Next(s, step));
  }

  lemma LaunchKeepsRoutes(s: State, step: Step)
    requires Agreement(s) && RoutesAgree(s) && Allowed(Tidy, s, step)
    requires step.Accept? || step.ReadDatabases? || step.Fail? || step.Die?
    ensures RoutesAgree(Next(s, step))
  {
    hide TaskEnabled, TaskNext, TableEnabled, TableNext, ListEnabled, ListNext;
    hide RoutesAgree, DisjointLists;
    UntouchedRoutesAgree(s, Next(s, step));
  }

  lemma WriteKeepsRoutes(s: State, step: Step)
    requires Agreement(s) && RoutesAgree(s) && Allowed(Tidy, s, step)
    requires step.WriteAttached?
    ensures RoutesAgree(Next(s, step))
  {
    hide TaskEnabled, TaskNext, TableEnabled, TableNext, ListEnabled, ListNext;
  }

  lemma TaskKeepsRoutes(s: State, step: Step)
    requires Agreement(s) && RoutesAgree(s) && Allowed(Tidy, s, step)
    requires step.SyncScan? || step.SyncDescribe? || step.DetachRead? || step.DetachForce? || step.LateWrite?
             || step.RecoverFind? || step.RecoverCheck? || step.RecoverPut?
    ensures RoutesAgree(Next(s, step))
  {
    hide LaunchEnabled, LaunchNext, TableEnabled, TableNext, ListEnabled, ListNext;
    hide RoutesAgree, DisjointLists;
    UntouchedRoutesAgree(s, Next(s, step));
  }

  lemma DetachKeepsRoutes(s: State, step: Step)
    requires Agreement(s) && RoutesAgree(s) && Allowed(Tidy, s, step)
    requires step.Detach?
    ensures RoutesAgree(Next(s, step))
  {
    hide LaunchEnabled, LaunchNext, TaskEnabled, TaskNext, ListEnabled, ListNext;
  }

  lemma LetGoKeepsRoutes(s: State, step: Step)
    requires Agreement(s) && RoutesAgree(s) && Allowed(Tidy, s, step)
    requires Frees(step)
    ensures RoutesAgree(Next(s, step))
  {
    hide LaunchEnabled, LaunchNext, ListEnabled, ListNext;
  }

  lemma TableKeepsRoutes(s: State, step: Step)
    requires Agreement(s) && RoutesAgree(s) && Allowed(Tidy, s, step)
    requires step.Tick? || step.Sweep? || step.Expand? || step.MarkAttached? || step.Drained?
    ensures RoutesAgree(Next(s, step))
  {
    hide LaunchEnabled, LaunchNext, TaskEnabled, TaskNext, ListEnabled, ListNext;
    hide RoutesAgree, DisjointLists;
    UntouchedRoutesAgree(s, Next(s, step));
  }

  lemma CleanupKeepsRoutes(s: State, step: Step)
    requires Agreement(s) && RoutesAgree(s) && Allowed(Tidy, s, step)
    requires step.CleanupScan? || step.CleanupDelete? || step.CleanupForget?
    ensures RoutesAgree(Next(s, step))
  {
    hide LaunchEnabled, LaunchNext, TaskEnabled, TaskNext, ListEnabled, ListNext;
    hide RoutesAgree, DisjointLists;
    UntouchedRoutesAgree(s, Next(s, step));
  }

  /** Lists being disjoint, a routing write only ever hits entries of its own volume. */
  lemma RouteKeepsRouted(s: State, step: Step, v: Volume)
    requires Agreement(s) && RoutesAgree(s) && Allowed(Tidy, s, step)
    requires step.Route? && s.live[step.launch].phase.pending != [] && v in s.held && v in s.rows
    ensures forall pending :: RoutedExcept(s, v, pending) ==> RoutedExcept(Next(s, step), v, pending)
  {
    assert RoutingSound(s, step.launch) && LaunchSound(s, step.launch);
    hide Agreement, RoutesAgree, RoutingSound, LaunchSound;
  }

  lemma RouteOneKeepsRoutes(s: State, step: Step)
    requires Agreement(s) && RoutesAgree(s) && Allowed(Tidy, s, step)
    requires step.Route? && s.live[step.launch].phase.pending != []
    ensures RoutesAgree(Next(s, step))
  {
    hide TaskEnabled, TaskNext, TableEnabled, TableNext, ListEnabled, ListNext;
    var next := Next(s, step);
    forall v | v in s.held && v in s.rows
      ensures forall pending :: RoutedExcept(s, v, pending) ==> RoutedExcept(next, v, pending)
    {
      RouteKeepsRouted(s, step, v);
    }
    forall l | l in next.live
      ensures RoutingSound(next, l)
    {
      assert RoutingSound(s, l) && LaunchSound(s, l);
    }
  }

  lemma RouteLastKeepsRoutes(s: State, step: Step)
    requires Agreement(s) && RoutesAgree(s) && Allowed(Tidy, s, step)
    requires step.Route? && s.live[step.launch].phase.pending == []
    ensures RoutesAgree(Next(s, step))
  {
    hide TaskEnabled, TaskNext, TableEnabled, TableNext, ListEnabled, ListNext;
  }

  lemma RouteKeepsRoutes(s: State, step: Step)
    requires Agreement(s) && RoutesAgree(s) && Allowed(Tidy, s, step)
    requires step.Route?
    ensures RoutesAgree(Next(s, step))
  {
    hide Agreement, RoutesAgree, DisjointLists, Next;
    if s.live[step.launch].phase.pending != [] {
      RouteOneKeepsRoutes(s, step);
    } else {
      RouteLastKeepsRoutes(s, step);
    }
  }

  lemma ReadKeepsRoutes(s: State, step: Step)
    requires Agreement(s) && RoutesAgree(s) && Allowed(Tidy, s, step)
    requires step.RemoveRead? || step.ReleaseScan?
    ensures RoutesAgree(Next(s, step))
  {
    hide LaunchEnabled, LaunchNext, TaskEnabled, TaskNext, TableEnabled, TableNext;
    hide RoutesAgree, DisjointLists;
    UntouchedRoutesAgree(s, Next(s, step));
  }

  lemma AppendKeepsRoutes(s: State, step: Step)
    requires Agreement(s) && RoutesAgree(s) && Allowed(Tidy, s, step)
    requires step.Append?
    ensures RoutesAgree(Next(s, step))
  {
    hide LaunchEnabled, LaunchNext, TaskEnabled, TaskNext, TableEnabled, TableNext, DisjointLists;
  }

  lemma RemoveKeepsRoutes(s: State, step: Step)
    requires Agreement(s) && RoutesAgree(s) && Allowed(Tidy, s, step)
    requires step.Remove?
    ensures RoutesAgree(Next(s, step))
  {
    hide LaunchEnabled, LaunchNext, TaskEnabled, TaskNext, TableEnabled, TableNext, DisjointLists;
  }

  lemma StepKeepsRoutes(s: State, step: Step)
    requires Agreement(s) && RoutesAgree(s) && Allowed(Tidy, s, step)
    ensures RoutesAgree(Next(s, step))
  {
    hide Agreement, RoutesAgree, DisjointLists, SparesAttaches, SparesHeld, SparesRoutes, Enabled, Next;
    match step
    case Claim(_, _, _, _) | Create(_, _, _, _) | Register(_, _, _) => StartKeepsRoutes(s, step);
    case Accept(_) | ReadDatabases(_) | Fail(_) | Die(_) => LaunchKeepsRoutes(s, step);
    case WriteAttached(_) => WriteKeepsRoutes(s, step);
    case Route(_) => RouteKeepsRoutes(s, step);
    case SyncScan(_, _) | SyncDescribe(_, _) | DetachRead(_, _) | DetachForce(_) | LateWrite(_)
        | RecoverFind(_, _) | RecoverCheck(_) | RecoverPut(_, _, _, _) => TaskKeepsRoutes(s, step);
    case DetachAccept(_, _) | Ends(_) => LetGoKeepsRoutes(s, step);
    case Detach(_) => DetachKeepsRoutes(s, step);
    case Tick(_) | Sweep(_, _) | Expand(_) | MarkAttached(_) | Drained(_) => TableKeepsRoutes(s, step);
    case CleanupScan(_) | CleanupDelete(_) | CleanupForget(_) => CleanupKeepsRoutes(s, step);
    case RemoveRead(_, _, _) | ReleaseScan(_, _) => ReadKeepsRoutes(s, step);
    case Append(_, _) => AppendKeepsRoutes(s, step);
    case Remove(_, _, _) => RemoveKeepsRoutes(s, step);
  }

  /** With lists kept disjoint, detaches that wait for routing and no write failing, routed
      entries stay right in every state of every run. */
  lemma {:induction false} RunKeepsRoutes(s: State, steps: seq<Step>, t: State)
    requires Agreement(s) && RoutesAgree(s) && Run(Tidy, s, steps, t)
    ensures RoutesAgree(t) && RoutedRight(t)
    decreases |steps|
  {
    if steps == [] {
      assert forall v :: v in t.routed ==> RoutedExcept(t, v, []);
    } else {
      StepKeepsRoutes(s, steps[0]);
      StepKeepsAgreement(s, steps[0]);
      hide Agreement, RoutesAgree, RoutedRight, DisjointLists, SparesAttaches, SparesHeld, SparesRoutes, Enabled, Next;
      RunKeepsRoutes(Next(s, steps[0]), steps[1..], t);
    }
  }

  /** So every routable entry a fully routed volume names points at the instance that EC2
      has the volume attached to. */
  lemma AttachedVolumesAreRouted(start: State, steps: seq<Step>, s: State, v: Volume, db: Database)
    requires Initial(start) && Run(Tidy, start, steps, s)
    requires v in s.routed && v in s.rows && db in s.rows[v].databases && Routable(s.routes, db)
    ensures v in s.ec2 && s.ec2[v] == Some(s.routes[db])
  {
    InitialAgrees(start);
    InitialRoutesAgree(start);
    RunKeepsRoutes(start, steps, s);
    RunKeepsAgreement(Tidy, start, steps, s);
    assert Agrees(s, v);
  }

  // ---- When a detach does not wait ----

  function RouteAll(routes: Routes, pending: seq<Database>, i: Instance): Routes {
    if pending == [] then routes else RouteAll(RouteWrite(routes, pending[0], i), pending[1..], i)
  }

  lemma {:induction false} RouteAllSets(routes: Routes, pending: seq<Database>, i: Instance)
    ensures RouteAll(routes, pending, i).Keys == routes.Keys
    ensures forall db :: db in routes ==>
              RouteAll(routes, pending, i)[db] == if db in pending && Routable(routes, db) then i else routes[db]
  {
    if pending != [] {
      RouteAllSets(RouteWrite(routes, pending[0], i), pending[1..], i);
      assert pending == [pending[0]] + pending[1..];
    }
  }

  /** A launch past its write can route the rest of its list in a run of its own. */
  lemma {:induction false} RouteAllReaches(r: Regime, start: State, s: State, l: LaunchId) returns (t: State)
    requires Reachable(r, start, s) && Fits(r, s) && l in s.live && PastWrite(s.live[l])
    ensures Reachable(r, start, t) && Fits(r, t)
    ensures var x := s.live[l];
            t == s.(routes := RouteAll(s.routes, x.phase.pending, x.instance), live := s.live - {l},
                    routed := if x.phase.Routing? then s.routed + {x.volume} else s.routed)
    decreases |s.live[l].phase.pending|
  {
    hide Reachable, Fits, Allowed;
    LaunchStep(r, s, Route(l));
    t := StepReaches(r, start, s, Route(l));
    if s.live[l].phase.pending != [] {
      ghost var mid := t;
      t := RouteAllReaches(r, start, mid, l);
      assert mid.live - {l} == s.live - {l};
    }
  }

  /** A launch overtaken while it still has a routable entry can take that entry back:
      another launch attaches the volume and routes its list, and then the first goes on. */
  lemma OvertakenLaunchMisroutes(r: Regime, start: State, s: State, l: LaunchId, v: Volume, j: Instance, db: Database)
    returns (t: State)
    requires Reachable(r, start, s) && Fits(r, s)
    requires l in s.live && s.live[l].volume == v && s.live[l].phase.Outdated? && s.live[l].instance != j
    requires db in s.live[l].phase.pending && Routable(s.routes, db)
    requires Claimable(s.rows, v) && db in s.rows[v].databases && v in s.ec2 && s.ec2[v] == None
    ensures Reachable(r, start, t)
    ensures v in t.routed && v in t.rows && db in t.rows[v].databases && Routable(t.routes, db)
    ensures v in t.held && t.held[v] == j && v in t.ec2 && t.ec2[v] == Some(j) && t.routes[db] == s.live[l].instance
    ensures !RoutedRight(t)
  {
    hide Reachable, Fits, RouteAll;
    var l2 := FreshLaunch(s.live.Keys);
    var x := s.live[l];
    t := AttachReaches(r, start, s, l2, v, j, []);
    t := RouteAllReaches(r, start, t, l2);
    RouteAllSets(s.routes, s.rows[v].databases, j);
    assert t.live[l] == x;
    ghost var routes := t.routes;
    t := RouteAllReaches(r, start, t, l);
    RouteAllSets(routes, x.phase.pending, x.instance);
  }

  lemma DetachDuringRouting(s: State, v: Volume, l: LaunchId)
    requires Agreement(s) && DisjointLists(s) && InUse(s, v)
    requires l in s.live && s.live[l].volume == v && s.live[l].phase.Routing?
    ensures Enabled(s, Detach(v))
    ensures var next := Next(s, Detach(v));
            && DisjointLists(next) && l in next.live && next.live[l] == Outdate(s.live[l], v)
            && Claimable(next.rows, v) && next.rows[v].databases == s.rows[v].databases
            && v in next.ec2 && next.ec2[v] == None && next.routes == s.routes
  {
    assert LaunchSound(s, l);
    assert Agrees(s, v);
    SameListsStayDisjoint(s, Next(s, Detach(v)));
  }

  /** When a detach may come: every tidy continuation keeps routed entries right if and
      only if no launch still has a routable entry of the volume to write. */
  lemma DetachKeepsRoutesIff(s: State, v: Volume)
    requires Agreement(s) && RoutesAgree(s) && DisjointLists(s) && InUse(s, v)
    ensures v in s.known
    ensures NothingToRoute(s, v) <==> forall t :: Reachable(Tidy, Next(s, Detach(v)), t) ==> RoutedRight(t)
  {
    if NothingToRoute(s, v) {
      SameListsStayDisjoint(s, Next(s, Detach(v)));
      StepKeepsAgreement(s, Detach(v));
      StepKeepsRoutes(s, Detach(v));
      hide Agreement, RoutesAgree, RoutedRight, DisjointLists, Next, Run;
      forall t | Reachable(Tidy, Next(s, Detach(v)), t)
        ensures RoutedRight(t)
      {
        var steps :| Run(Tidy, Next(s, Detach(v)), steps, t);
        RunKeepsRoutes(Next(s, Detach(v)), steps, t);
      }
    } else {
      var l, db :| l in s.live && s.live[l].volume == v && s.live[l].phase.Routing?
                   && db in s.live[l].phase.pending && Routable(s.routes, db);
      assert RoutingSound(s, l);
      DetachDuringRouting(s, v, l);
      hide Agreement, RoutesAgree, RoutedRight, DisjointLists, Next, Reachable;
      var next := Next(s, Detach(v));
      ReachesSelf(Tidy, next);
      var t := OvertakenLaunchMisroutes(Tidy, next, next, l, v, s.live[l].instance + "'", db);
    }
  }

  /** The same for EC2's part of a detach that has yet to write its row, and for the end of
      an instance: another detach can write the row first. */
  lemma FreeingKeepsRoutesIff(s: State, step: Step)
    requires Agreement(s) && RoutesAgree(s) && DisjointLists(s)
    requires Frees(step) && Enabled(s, step) && SparesAttaches(s, step)
    ensures NothingToRoute(s, step.volume) <==> forall t :: Reachable(Tidy, Next(s, step), t) ==> RoutedRight(t)
  {
    var next, v := Next(s, step), step.volume;
    SameListsStayDisjoint(s, next);
    if NothingToRoute(s, v) {
      StepKeepsAgreement(s, step);
      StepKeepsRoutes(s, step);
      hide Agreement, RoutesAgree, RoutedRight, DisjointLists, Next, Run;
      forall t | Reachable(Tidy, next, t)
        ensures RoutedRight(t)
      {
        var steps :| Run(Tidy, next, steps, t);
        RunKeepsRoutes(next, steps, t);
      }
    } else {
      var l, db :| l in s.live && s.live[l].volume == v && s.live[l].phase.Routing?
                   && db in s.live[l].phase.pending && Routable(s.routes, db);
      assert RoutingSound(s, l);
      assert LaunchSound(s, l) && Agrees(s, v);
      FreeDuringRouting(s, step, l);
      DetachBehindRouting(next, v, l);
      hide Agreement, RoutesAgree, RoutedRight, DisjointLists, Next, Reachable, Enabled;
      ReachesSelf(Tidy, next);
      var u := StepReaches(Tidy, next, next, Detach(v));
      var t := OvertakenLaunchMisroutes(Tidy, next, u, l, v, s.live[l].instance + "'", db);
    }
  }

  lemma FreeDuringRouting(s: State, step: Step, l: LaunchId)
    requires Agreement(s) && Frees(step) && Enabled(s, step)
    requires l in s.live && s.live[l].volume == step.volume && s.live[l].phase.Routing?
    ensures var next, v := Next(s, step), step.volume;
            && next.rows == s.rows && next.routes == s.routes && v in next.ec2 && v in next.known
            && NothingToRoute(next, v) && l in next.live && next.live[l] == Outdate(s.live[l], v)
  {
    hide LaunchEnabled, LaunchNext, ListEnabled, ListNext;
    assert LaunchSound(s, l);
    assert Agrees(s, step.volume);
    hide Agreement;
  }

  /** A detach after which an outdated launch still has its entries to write. */
  lemma DetachBehindRouting(s: State, v: Volume, l: LaunchId)
    requires DisjointLists(s) && InUse(s, v) && v in s.ec2 && v in s.known && NothingToRoute(s, v)
    requires l in s.live && s.live[l].phase.Outdated?
    ensures Allowed(Tidy, s, Detach(v))
    ensures var next := Next(s, Detach(v));
            && l in next.live && next.live[l] == s.live[l] && next.routes == s.routes
            && Claimable(next.rows, v) && next.rows[v].databases == s.rows[v].databases
            && v in next.ec2 && next.ec2[v] == None
  {
    hide LaunchEnabled, LaunchNext, TaskEnabled, TaskNext, ListEnabled, ListNext;
    SameListsStayDisjoint(s, Next(s, Detach(v)));
  }

  /** When an edit of a list is safe: every tidy continuation keeps routed entries right if
      and only if the list gains no database routed elsewhere, while it is routed, and loses
      none that a launch still has to route. */
  lemma EditKeepsRoutesIff(s: State, step: Step)
    requires Agreement(s) && RoutesAgree(s) && DisjointLists(s) && Enabled(s, step) && (step.Append? || step.Remove?)
    requires DisjointLists(Next(s, step))
    ensures SparesRoutes(s, step) <==> forall t :: Reachable(Tidy, Next(s, step), t) ==> RoutedRight(t)
  {
    var next := Next(s, step);
    if SparesRoutes(s, step) {
      StepKeepsAgreement(s, step);
      StepKeepsRoutes(s, step);
      hide Agreement, RoutesAgree, RoutedRight, DisjointLists, Next, Run;
      forall t | Reachable(Tidy, next, t)
        ensures RoutedRight(t)
      {
        var steps :| Run(Tidy, next, steps, t);
        RunKeepsRoutes(next, steps, t);
      }
    } else {
      var t := EditMisroutes(s, step);
    }
  }

  /** What an edit changes. */
  lemma EditMoves(s: State, step: Step)
    requires Enabled(s, step) && (step.Append? || step.Remove?)
    ensures Next(s, step).(rows := s.rows, tasks := s.tasks) == s
    ensures forall v :: v != step.volume ==>
              (v in Next(s, step).rows <==> v in s.rows) && RowOf(Next(s, step).rows, v) == RowOf(s.rows, v)
  {
    hide LaunchEnabled, LaunchNext, TaskEnabled, TaskNext, TableEnabled, TableNext, Without;
  }

  lemma EditMisroutes(s: State, step: Step) returns (t: State)
    requires Agreement(s) && RoutesAgree(s) && DisjointLists(s) && Enabled(s, step) && (step.Append? || step.Remove?)
    requires DisjointLists(Next(s, step)) && !SparesRoutes(s, step)
    ensures Reachable(Tidy, Next(s, step), t) && !RoutedRight(t)
  {
    EditMoves(s, step);
    StepKeepsBookkeeping(s, step);
    EditHeldIsKnown(s);
    hide Enabled, Next, Agreement, RoutesAgree, DisjointLists, ListSparesRoutes, Reachable, RoutedRight, Bookkeeping;
    t := ListMisroutes(s, Next(s, step), step.volume);
  }

  /** The same of whatever changed one list. */
  lemma ListMisroutes(s: State, next: State, v: Volume) returns (t: State)
    requires RoutesAgree(s) && DisjointLists(s) && DisjointLists(next) && Bookkeeping(next)
    requires next.held.Keys <= next.known && next.(rows := s.rows, tasks := s.tasks) == s
    requires forall u :: u != v ==> (u in next.rows <==> u in s.rows) && RowOf(next.rows, u) == RowOf(s.rows, u)
    requires forall l :: l in s.live && s.live[l].phase.Routing? ==>
               s.live[l].volume in s.held && s.held[s.live[l].volume] == s.live[l].instance
    requires !ListSparesRoutes(s, v, RowOf(next.rows, v).databases)
    ensures Reachable(Tidy, next, t) && !RoutedRight(t)
  {
    var databases := RowOf(next.rows, v).databases;
    if db :| db in databases && db !in RowOf(s.rows, v).databases && !RoutedHere(s, v, db) {
      t := GainMisroutes(s, next, v, db);
    } else {
      var l, db :| l in s.live && s.live[l].volume == v && s.live[l].phase.Routing?
                   && db in s.live[l].phase.pending && Routable(s.routes, db) && db !in databases;
      assert RoutingSound(s, l);
      forall u | u in next.rows
        ensures db !in next.rows[u].databases
      {
        assert RowOf(next.rows, u) == next.rows[u] && (u != v ==> RowOf(s.rows, u) == s.rows[u]);
      }
      hide RoutesAgree, DisjointLists, Bookkeeping, Reachable, RoutedRight;
      t := LossMisroutes(next, l, db);
    }
  }

  lemma EditHeldIsKnown(s: State)
    requires Agreement(s)
    ensures s.held.Keys <= s.known && s.routed <= s.held.Keys
    ensures forall l :: l in s.live && s.live[l].phase.Routing? ==>
              s.live[l].volume in s.held && s.held[s.live[l].volume] == s.live[l].instance
  {
    assert forall v :: v in s.held ==> Agrees(s, v);
    assert forall l :: l in s.live ==> LaunchSound(s, l);
  }

  /** A list that is routed gains a database routed elsewhere. */
  lemma GainMisroutes(s: State, next: State, v: Volume, db: Database) returns (t: State)
    requires RoutesAgree(s) && next.(rows := s.rows, tasks := s.tasks) == s && DisjointLists(next)
    requires v in next.rows && db in next.rows[v].databases && db !in RowOf(s.rows, v).databases
    requires !RoutedHere(s, v, db)
    ensures Reachable(Tidy, next, t) && !RoutedRight(t)
  {
    ReachesSelf(Tidy, next);
    t := next;
    if v !in s.routed {
      var l :| l in s.live && s.live[l].volume == v && s.live[l].phase.Routing?;
      assert RoutingSound(s, l);
      hide Reachable, RouteAll, Fits;
      assert Fits(Tidy, next);
      t := RouteAllReaches(Tidy, next, next, l);
      RouteAllSets(s.routes, s.live[l].phase.pending, s.live[l].instance);
    }
  }

  lemma {:induction false} FreshVolume(ids: set<Volume>) returns (v: Volume)
    ensures forall u :: u in ids ==> |u| < |v|
  {
    v := "v";
    if ids != {} {
      var u :| u in ids;
      v := FreshVolume(ids - {u});
      v := if |v| <= |u| then u + "v" else v;
      assert forall w :: w in ids ==> w == u || w in ids - {u};
    }
  }

  /** A database that a launch still has to route is listed by no volume any more: a new
      volume can list and route it before the launch does. */
  lemma LossMisroutes(s: State, l: LaunchId, db: Database) returns (t: State)
    requires Bookkeeping(s) && s.held.Keys <= s.known && DisjointLists(s)
    requires l in s.live && s.live[l].phase.Routing? && db in s.live[l].phase.pending && Routable(s.routes, db)
    requires forall u :: u in s.rows ==> db !in s.rows[u].databases
    ensures Reachable(Tidy, s, t) && !RoutedRight(t)
  {
    var v := FreshVolume(s.known);
    var x := s.live[l];
    ReachesSelf(Tidy, s);
    hide Reachable, RouteAll;
    t := NewVolumeRoutes(s, v, x.instance + "'", db);
    ghost var routes := t.routes;
    hide DisjointLists, Bookkeeping;
    t := RouteAllReaches(Tidy, s, t, l);
    RouteAllSets(routes, x.phase.pending, x.instance);
  }

  lemma NewVolumeRoutes(s: State, v: Volume, j: Instance, db: Database) returns (t: State)
    requires Bookkeeping(s) && s.held.Keys <= s.known && DisjointLists(s) && v !in s.known && Routable(s.routes, db)
    requires forall u :: u in s.rows ==> db !in s.rows[u].databases
    ensures Reachable(Tidy, s, t) && Fits(Tidy, t) && t.live == s.live
    ensures v in t.rows && t.rows[v].databases == [db] && v in t.routed && v in t.held && t.held[v] == j
    ensures t.routes == s.routes[db := j]
  {
    var l := FreshLaunch(s.live.Keys);
    t := NewVolumeReaches(s, l, v, j, db);
    hide Reachable, Fits, Bookkeeping, DisjointLists;
    assert t.live[l] == Launch(j, v, None, [db], Holding) && v in t.ec2 && t.ec2[v] == None;
    assert t.live - {l} == s.live;
    ghost var was := t.live;
    t := NewVolumeAttaches(s, t, l);
    hide FinalDatabases;
    assert t.live - {l} == was - {l};
    t := RouteAllReaches(Tidy, s, t, l);
    assert RouteAll(s.routes, [db], j) == RouteAll(RouteWrite(s.routes, db, j), [], j);
  }

  lemma NewVolumeAttaches(start: State, s: State, l: LaunchId) returns (t: State)
    requires Reachable(Tidy, start, s) && Fits(Tidy, s) && l in s.live && s.live[l].phase.Holding?
    requires s.live[l].volume in s.rows && s.rows[s.live[l].volume].databases == s.live[l].caller != []
    requires s.live[l].volume in s.ec2 && s.ec2[s.live[l].volume] == None
    ensures Reachable(Tidy, start, t) && Fits(Tidy, t) && t.routes == s.routes
    ensures var x := s.live[l];
            && x.volume in t.rows && t.rows[x.volume].databases == x.caller && x.volume in t.held
            && t.held[x.volume] == x.instance && t.live == s.live[l := x.(phase := Routing(x.caller))]
  {
    hide Reachable, Fits, Allowed, TaskEnabled, TaskNext, TableEnabled, TableNext, ListEnabled, ListNext;
    LaunchStep(Tidy, s, Accept(l));
    t := StepReaches(Tidy, start, s, Accept(l));
    t := WriteReaches(Tidy, start, t, l);
    assert t.live == s.live[l := s.live[l].(phase := Routing(s.live[l].caller))];
  }

  lemma NewVolumeReaches(s: State, l: LaunchId, v: Volume, j: Instance, db: Database) returns (t: State)
    requires Bookkeeping(s) && s.held.Keys <= s.known && DisjointLists(s) && v !in s.known && l !in s.live
    requires forall u :: u in s.rows ==> db !in s.rows[u].databases
    ensures Reachable(Tidy, s, t) && Fits(Tidy, t)
    ensures t == s.(ec2 := s.ec2[v := None], known := s.known + {v},
                    rows := s.rows[v := Row(Attaching, j, "", "", [db], None, None)],
                    live := s.live[l := Launch(j, v, None, [db], Holding)])
  {
    ReachesSelf(Tidy, s);
    hide Reachable, TaskEnabled, TaskNext, TableEnabled, TableNext, ListEnabled, ListNext;
    t := StepReaches(Tidy, s, s, Create(l, j, v, [db]));
    t := StepReaches(Tidy, s, t, Register(l, "", ""));
  }

  /** The witness from the start: a detach of a volume its launch is still routing, in a
      run that is otherwise like any other, ends with the volume routed, attached to j,
      and its entry pointing at i. */
  lemma DetachDuringRoutingMisroutes(start: State, v: Volume, i: Instance, j: Instance, db: Database)
    requires Initial(start) && DisjointLists(start) && i != j
    requires Claimable(start.rows, v) && start.rows[v].databases == [db] && Routable(start.routes, db)
    requires v in start.ec2 && start.ec2[v] == None
    ensures exists t :: Reachable(Guarded, start, t) && v in t.routed && v in t.rows && db in t.rows[v].databases
                        && db in t.routes && t.routes[db] == i && v in t.ec2 && t.ec2[v] == Some(j)
  {
    ReachesSelf(Guarded, start);
    InitialAgrees(start);
    hide Reachable, Agreement, Next, RoutedRight, DisjointLists;
    var s := AttachReaches(Guarded, start, start, 0, v, i, []);
    ReachableAgrees(Guarded, start, s);
    DetachFromRouting(s, v, 0);
    s := StepReaches(Guarded, start, s, Detach(v));
    s := OvertakenLaunchMisroutes(Guarded, start, s, 0, v, j, db);
  }

  lemma DetachFromRouting(s: State, v: Volume, l: LaunchId)
    requires Agreement(s) && InUse(s, v) && l in s.live && s.live[l].volume == v && s.live[l].phase.Routing?
    ensures Enabled(s, Detach(v))
    ensures var next := Next(s, Detach(v));
            && l in next.live && next.live[l] == Outdate(s.live[l], v)
            && Claimable(next.rows, v) && next.rows[v].databases == s.rows[v].databases
            && v in next.ec2 && next.ec2[v] == None && next.routes == s.routes
  {
    assert LaunchSound(s, l);
    assert Agrees(s, v);
  }
}
