/** One worker left alone does just what a single call of recovery does, so whatever repeated recovery
    can reach is reached by some run of the concurrent world. */
module RecoveryRuns {
  import opened Approvals
  import opened CrashProtocol
  import opened Digests
  import OperationStates
  import opened Recovery
  import opened RecoveryCoordination
  import opened RecoveryProgress
  import opened ReliabilityGraph
  import RepositoryRuns
  import opened Scenarios
  import opened Tables
  import opened Wrappers

  // ---- Runs, one after the other --------------------------------------------------------------------------------------

  /** A relation between worlds that holds wherever events lead. Facts about a schedule of events are proved of any
      such relation, and then of `Reaches`. */
  ghost predicate Follows(r: (World, World) -> bool) {
    && (forall w :: r(w, w))
    && (forall w, e :: r(w, Next(w, e)))
    && (forall a, b, c {:trigger r(a, b), r(b, c)} | r(a, b) && r(b, c) :: r(a, c))
  }

  lemma TwoEvents(r: (World, World) -> bool, w: World, e: Event, f: Event)
    requires Follows(r)
    ensures r(w, Next(Next(w, e), f))
  {
    assert r(w, Next(w, e)) && r(Next(w, e), Next(Next(w, e), f));
  }

  ghost predicate Reaches(w: World, w': World) {
    exists events :: Run(w, events) == w'
  }

  lemma {:induction false} RunsCompose(w: World, first: seq<Event>, second: seq<Event>)
    ensures Run(w, first + second) == Run(Run(w, first), second)
  {
    if second == [] {
      assert first + second == first;
    } else {
      var n := |second| - 1;
      assert (first + second)[..|first + second| - 1] == first + second[..n];
      RunsCompose(w, first, second[..n]);
    }
  }

  lemma ReachesItself(w: World)
    ensures Reaches(w, w)
  {
    assert Run(w, []) == w;
  }

  lemma ReachesNext(w: World, e: Event)
    ensures Reaches(w, Next(w, e))
  {
    assert [e][..0] == [] && Run(w, [e]) == Next(w, e);
  }

  lemma ReachesOnward(a: World, b: World, c: World)
    requires Reaches(a, b) && Reaches(b, c)
    ensures Reaches(a, c)
  {
    var first, second :| Run(a, first) == b && Run(b, second) == c;
    RunsCompose(a, first, second);
  }

  lemma ReachingFollows()
    ensures Follows((a, b) => Reaches(a, b))
  {
    forall w ensures Reaches(w, w) {
      ReachesItself(w);
    }
    forall w, e ensures Reaches(w, Next(w, e)) {
      ReachesNext(w, e);
    }
    forall a, b, c | Reaches(a, b) && Reaches(b, c) ensures Reaches(a, c) {
      ReachesOnward(a, b, c);
    }
  }

  // ---- A drive --------------------------------------------------------------------------------------------------------

  /** The world after a recovery of `op` that left its tables and checkpoint like this, its worker gone. */
  function Left(w: World, worker: nat, op: Uuid, tables: Tables, ck: Checkpoint): World {
    World(tables, w.checkpoints[op := ck], w.workers - {worker})
  }

  /** A worker about to drive the graph from the checkpoint that is stored. */
  predicate Drives(w: World, worker: nat, op: Uuid, ck: Checkpoint, resume: Option<ApprovalResume>) {
    && ck.next.Some? && worker in w.workers && w.workers[worker] == Running(op, ck, resume)
    && op in w.checkpoints && w.checkpoints[op] == ck
  }

  /** Seen from `w`, a worker that has come to drive the graph from `ck`, or to leave it there. */
  predicate Onward(w: World, w': World, worker: nat, op: Uuid, ck: Checkpoint, resume: Option<ApprovalResume>) {
    && (ck.next.None? ==> w' == Left(w, worker, op, w'.tables, ck))
    && (ck.next.Some? ==>
          && Drives(w', worker, op, ck, resume)
          && w'.checkpoints == w.checkpoints[op := ck] && w'.workers - {worker} == w.workers - {worker})
  }

  lemma KeptCheckpoints(w: World, op: Uuid)
    ensures var ck := CheckpointOf(w.checkpoints, op); ck.Some? ==> w.checkpoints[op := ck.value] == w.checkpoints
  {
  }

  /** A node that does not lead on, or whose checkpoint is never written, ends the drive. */
  lemma LastNode(w: World, worker: nat, op: Uuid, ck: Checkpoint, resume: Option<ApprovalResume>, newId: Uuid, s: NodeStep)
    requires Drives(w, worker, op, ck, resume) && s == RunNodeStep(w.tables, ck.next.value, ck.channels, resume, newId)
    ensures Next(Next(w, RunNode(worker, newId)), Crash(worker)) == Left(w, worker, op, s.tables, ck)
  {
    assert w.checkpoints[op := ck] == w.checkpoints;
  }

  lemma WaitingNode(w: World, worker: nat, op: Uuid, ck: Checkpoint, resume: Option<ApprovalResume>, newId: Uuid, s: NodeStep)
    requires Drives(w, worker, op, ck, resume) && s == RunNodeStep(w.tables, ck.next.value, ck.channels, resume, newId)
    requires s.result.Paused?
    ensures Next(Next(w, RunNode(worker, newId)), WriteCheckpoint(worker)) == Left(w, worker, op, s.tables, ck.(interrupted := true))
  {
    assert (w.workers[worker := Committed(op, ck.(interrupted := true))]) - {worker} == w.workers - {worker};
  }

  lemma PassingNode(w: World, worker: nat, op: Uuid, ck: Checkpoint, resume: Option<ApprovalResume>, newId: Uuid, s: NodeStep)
    requires Drives(w, worker, op, ck, resume) && s == RunNodeStep(w.tables, ck.next.value, ck.channels, resume, newId)
    requires s.result.Advanced?
    ensures ck.next.value.RequestApproval? ==> s.result.channels.approval.Some?
    ensures var w' := Next(Next(w, RunNode(worker, newId)), WriteCheckpoint(worker));
            w'.tables == s.tables && Onward(w, w', worker, op, NextCheckpoint(ck, s), None)
  {
    var after := NextCheckpoint(ck, s);
    var committed := w.workers[worker := Committed(op, after)];
    assert committed - {worker} == w.workers - {worker};
    assert committed[worker := Running(op, after, None)] - {worker} == w.workers - {worker};
  }

  type DriveFunction = (Tables, Checkpoint, Option<ApprovalResume>, nat) -> Drive

  /** The drives of recoveries that would write this identifier, as a function. */
  ghost predicate IsDrive(g: DriveFunction, newId: Uuid) {
    forall t, ck, resume, steps {:trigger DriveGraph(t, ck, resume, steps, newId)} ::
      g(t, ck, resume, steps) == DriveGraph(t, ck, resume, steps, newId)
  }

  lemma DriveAt(g: DriveFunction, t: Tables, ck: Checkpoint, resume: Option<ApprovalResume>,
                steps: nat, newId: Uuid)
    requires IsDrive(g, newId)
    ensures g(t, ck, resume, steps) == DriveGraph(t, ck, resume, steps, newId)
  {
  }

  lemma FinishedDrive(g: DriveFunction, t: Tables, ck: Checkpoint, resume: Option<ApprovalResume>,
                      steps: nat, newId: Uuid)
    requires IsDrive(g, newId) && ck.next.None?
    ensures g(t, ck, resume, steps) == Drive(t, ck, Finished)
  {
    DriveAt(g, t, ck, resume, steps, newId);
  }

  /** A drive begins with its first node: either that ends it, or it goes on from the next checkpoint. */
  lemma DriveBegins(r: (World, World) -> bool, g: DriveFunction, w: World, worker: nat, op: Uuid,
                    ck: Checkpoint, resume: Option<ApprovalResume>, steps: nat, newId: Uuid, d: Drive)
    returns (w': World, after: Option<Checkpoint>)
    requires Follows(r) && IsDrive(g, newId) && Drives(w, worker, op, ck, resume) && d == g(w.tables, ck, resume, steps)
    ensures r(w, w') && (after.None? ==> w' == Left(w, worker, op, d.tables, d.checkpoint))
    ensures after.Some? ==> 2 <= steps && Onward(w, w', worker, op, after.value, None)
    ensures after.Some? ==> d == g(w'.tables, after.value, None, steps - 2)
  {
    DriveAt(g, w.tables, ck, resume, steps, newId);
    var s, e := RunNodeStep(w.tables, ck.next.value, ck.channels, resume, newId), RunNode(worker, newId);
    if steps == 0 {
      w', after := Next(w, Crash(worker)), None;
      KeptCheckpoints(w, op);
    } else if s.result.Raised? || steps == 1 {
      LastNode(w, worker, op, ck, resume, newId, s);
      TwoEvents(r, w, e, Crash(worker));
      w', after := Next(Next(w, e), Crash(worker)), None;
    } else if s.result.Paused? {
      WaitingNode(w, worker, op, ck, resume, newId, s);
      TwoEvents(r, w, e, WriteCheckpoint(worker));
      w', after := Next(Next(w, e), WriteCheckpoint(worker)), None;
    } else {
      PassingNode(w, worker, op, ck, resume, newId, s);
      TwoEvents(r, w, e, WriteCheckpoint(worker));
      w', after := Next(Next(w, e), WriteCheckpoint(worker)), Some(NextCheckpoint(ck, s));
      DriveUnfolds(w.tables, ck, resume, steps, newId, s);
      DriveAt(g, s.tables, NextCheckpoint(ck, s), None, steps - 2, newId);
    }
  }

  lemma LeftOnward(w: World, w': World, worker: nat, op: Uuid, ck: Checkpoint, d: Drive)
    requires w'.checkpoints == w.checkpoints[op := ck] && w'.workers - {worker} == w.workers - {worker}
    ensures Left(w', worker, op, d.tables, d.checkpoint) == Left(w, worker, op, d.tables, d.checkpoint)
  {
    assert w.checkpoints[op := ck][op := d.checkpoint] == w.checkpoints[op := d.checkpoint];
  }

  /** A drive of so many steps is a schedule of its worker's events, with a crash where the steps run out. */
  lemma {:induction false} DrivesAreRuns(r: (World, World) -> bool, g: DriveFunction,
                                         w: World, worker: nat, op: Uuid, ck: Checkpoint,
                                         resume: Option<ApprovalResume>, steps: nat, newId: Uuid, d: Drive)
    requires Follows(r) && IsDrive(g, newId) && Drives(w, worker, op, ck, resume) && d == g(w.tables, ck, resume, steps)
    ensures r(w, Left(w, worker, op, d.tables, d.checkpoint))
    decreases steps
  {
    var w', after := DriveBegins(r, g, w, worker, op, ck, resume, steps, newId, d);
    if after.Some? {
      OnwardIsARun(r, g, w, w', worker, op, after.value, None, steps - 2, newId, d);
    }
  }

  lemma {:induction false} OnwardIsARun(r: (World, World) -> bool, g: DriveFunction,
                                        w: World, w': World, worker: nat, op: Uuid, ck: Checkpoint,
                                        resume: Option<ApprovalResume>, steps: nat, newId: Uuid, d: Drive)
    requires Follows(r) && IsDrive(g, newId) && r(w, w') && Onward(w, w', worker, op, ck, resume) && d == g(w'.tables, ck, resume, steps)
    ensures r(w, Left(w, worker, op, d.tables, d.checkpoint))
    decreases steps + 1
  {
    if ck.next.None? {
      FinishedDrive(g, w'.tables, ck, resume, steps, newId);
    } else {
      DrivesAreRuns(r, g, w', worker, op, ck, resume, steps, newId, d);
      LeftOnward(w, w', worker, op, ck, d);
    }
  }

  // ---- A whole recovery ---------------------------------------------------------------------------------------------

  /** The world with one operation's tables and checkpoint replaced. */
  function Moved(w: World, op: Uuid, tables: Tables, ck: Option<Checkpoint>): World {
    World(tables, if ck.Some? then w.checkpoints[op := ck.value] else w.checkpoints, w.workers)
  }

  lemma StartIsOnward(w: World, worker: nat, op: Uuid, view: OperationStates.RecoveryView, action: RecoveryAction, launch: Launch)
    requires worker in w.workers && w.workers[worker] == Decided(op, view, action)
    requires LaunchOf(view, CheckpointOf(w.checkpoints, op), action) == Some(launch)
    ensures var w' := Next(w, StartGraph(worker));
            w'.tables == w.tables && Onward(w, w', worker, op, launch.checkpoint, launch.resume)
  {
    KeptCheckpoints(w, op);
  }

  lemma LaunchLeaves(w: World, worker: nat, op: Uuid, ck: Option<Checkpoint>, launch: Launch, action: RecoveryAction, steps: nat, newId: Uuid)
    requires launch.cost <= steps
    ensures var r := LaunchStep(w.tables, ck, Some(launch), action, steps, newId);
            var d := DriveGraph(w.tables, launch.checkpoint, launch.resume, steps - launch.cost, newId);
            Moved(w, op, r.tables, r.checkpoint).(workers := w.workers - {worker}) == Left(w, worker, op, d.tables, d.checkpoint)
  {
  }

  lemma LaunchesAreRuns(r: (World, World) -> bool, w: World, worker: nat, op: Uuid, view: OperationStates.RecoveryView,
                        action: RecoveryAction, launch: Launch, steps: nat, newId: Uuid)
    requires Follows(r) && worker in w.workers && w.workers[worker] == Decided(op, view, action)
    requires LaunchOf(view, CheckpointOf(w.checkpoints, op), action) == Some(launch)
    ensures var x := LaunchStep(w.tables, CheckpointOf(w.checkpoints, op), Some(launch), action, steps, newId);
            r(w, Moved(w, op, x.tables, x.checkpoint).(workers := w.workers - {worker}))
  {
    if steps < launch.cost {
      CrashedLaunch(r, w, worker, op);
    } else {
      StartedIsARun(r, w, worker, op, view, action, launch, steps - launch.cost, newId);
      LaunchLeaves(w, worker, op, CheckpointOf(w.checkpoints, op), launch, action, steps, newId);
    }
  }

  lemma CrashedLaunch(r: (World, World) -> bool, w: World, worker: nat, op: Uuid)
    requires Follows(r)
    ensures r(w, Moved(w, op, w.tables, CheckpointOf(w.checkpoints, op)).(workers := w.workers - {worker}))
  {
    KeptCheckpoints(w, op);
    assert r(w, Next(w, Crash(worker)));
  }

  lemma StartedIsARun(r: (World, World) -> bool, w: World, worker: nat, op: Uuid, view: OperationStates.RecoveryView,
                      action: RecoveryAction, launch: Launch, steps: nat, newId: Uuid)
    requires Follows(r) && worker in w.workers && w.workers[worker] == Decided(op, view, action)
    requires LaunchOf(view, CheckpointOf(w.checkpoints, op), action) == Some(launch)
    ensures var d := DriveGraph(w.tables, launch.checkpoint, launch.resume, steps, newId);
            r(w, Left(w, worker, op, d.tables, d.checkpoint))
  {
    var w', d := Next(w, StartGraph(worker)), DriveGraph(w.tables, launch.checkpoint, launch.resume, steps, newId);
    StartIsOnward(w, worker, op, view, action, launch);
    OnwardIsARun(r, (t, ck, resume, n: nat) => DriveGraph(t, ck, resume, n, newId), w, w', worker, op, launch.checkpoint,
                 launch.resume, steps, newId, d);
  }

  lemma ReadingDecides(w: World, worker: nat, op: Uuid, view: OperationStates.RecoveryView)
    requires worker !in w.workers && OperationStates.ViewOf(w.tables, op) == Ok(view)
    ensures var w', decided := Next(Next(w, LoadView(worker, op)), ReadCheckpoint(worker)), Decide(view, CheckpointOf(w.checkpoints, op));
            if decided.Err? || decided.value.KeepWaiting? || decided.value.NoOp? then w' == w
            else && w' == w.(workers := w'.workers) && w'.workers - {worker} == w.workers
                 && worker in w'.workers && w'.workers[worker] == Decided(op, view, decided.value)
                 && LaunchOf(view, CheckpointOf(w.checkpoints, op), decided.value).Some?
  {
    assert w.workers[worker := Viewed(op, view)] - {worker} == w.workers;
  }

  /** A call of recovery that survives for so many steps is a schedule of one worker that was idle and is again. */
  lemma RecoveriesAreRuns(w: World, worker: nat, op: Uuid, steps: nat, newId: Uuid)
    requires worker !in w.workers
    ensures var x := RecoverStep(w.tables, CheckpointOf(w.checkpoints, op), op, steps, newId);
            Reaches(w, Moved(w, op, x.tables, x.checkpoint))
  {
    ReachingFollows();
    RecoveryFollows((a, b) => Reaches(a, b), w, worker, op, steps, newId);
  }

  lemma RecoveryFollows(r: (World, World) -> bool, w: World, worker: nat, op: Uuid, steps: nat, newId: Uuid)
    requires Follows(r) && worker !in w.workers
    ensures var x := RecoverStep(w.tables, CheckpointOf(w.checkpoints, op), op, steps, newId); r(w, Moved(w, op, x.tables, x.checkpoint))
  {
    KeptCheckpoints(w, op);
    var ck, view := CheckpointOf(w.checkpoints, op), OperationStates.ViewOf(w.tables, op);
    if view.Ok? && Decide(view.value, ck).Ok? {
      var action := Decide(view.value, ck).value;
      RecoveryLaunches(w.tables, ck, op, steps, newId, view.value, action);
      ReadingDecides(w, worker, op, view.value);
      if !action.KeepWaiting? && !action.NoOp? {
        DecidedFollows(r, w, worker, op, view.value, action, steps, newId);
      }
    }
  }

  lemma DecidedFollows(r: (World, World) -> bool, w: World, worker: nat, op: Uuid, view: OperationStates.RecoveryView,
                       action: RecoveryAction, steps: nat, newId: Uuid)
    requires Follows(r) && worker !in w.workers && OperationStates.ViewOf(w.tables, op) == Ok(view)
    requires Decide(view, CheckpointOf(w.checkpoints, op)) == Ok(action) && !action.KeepWaiting? && !action.NoOp?
    ensures var ck := CheckpointOf(w.checkpoints, op);
            var x := LaunchStep(w.tables, ck, LaunchOf(view, ck, action), action, steps, newId); r(w, Moved(w, op, x.tables, x.checkpoint))
  {
    var w' := Next(Next(w, LoadView(worker, op)), ReadCheckpoint(worker));
    ReadingDecides(w, worker, op, view);
    TwoEvents(r, w, LoadView(worker, op), ReadCheckpoint(worker));
    LaunchesAreRuns(r, w', worker, op, view, action, LaunchOf(view, CheckpointOf(w.checkpoints, op), action).value, steps, newId);
  }

  // ---- Whole histories ------------------------------------------------------------------------------------------------

  /** The world in which one operation was recovered and answered by itself. */
  function Alone(site: Site, op: Uuid): World {
    World(site.tables, if site.checkpoint.Some? then map[op := site.checkpoint.value] else map[], map[])
  }

  lemma MovesAreRuns(site: Site, op: Uuid, move: Move)
    ensures Reaches(Alone(site, op), Alone(Play(site, op, move), op))
  {
    match move {
      case Attempt(steps, newId) => AttemptsAreRuns(site, op, steps, newId);
      case _ => AnswersAreRuns(site, op, move);
    }
  }

  lemma AnswersAreRuns(site: Site, op: Uuid, move: Move)
    requires !move.Attempt?
    ensures Reaches(Alone(site, op), Alone(Play(site, op, move), op))
  {
    ReachesItself(Alone(site, op));
    match move {
      case Answer(command, id) => ReachesNext(Alone(site, op), Submit(command, id));
      case AnswerBound(command, expected, id, now) => ReachesNext(Alone(site, op), SubmitBound(command, expected, id, now));
    }
  }

  lemma AttemptsAreRuns(site: Site, op: Uuid, steps: nat, newId: Uuid)
    ensures Reaches(Alone(site, op), Alone(Play(site, op, Attempt(steps, newId)), op))
  {
    RecoveriesAreRuns(Alone(site, op), 0, op, steps, newId);
    RecoveryKeepsACheckpoint(site.tables, site.checkpoint, op, steps, newId);
  }

  lemma RecoveryKeepsACheckpoint(t: Tables, ck: Option<Checkpoint>, op: Uuid, steps: nat, newId: Uuid)
    ensures ck.Some? ==> RecoverStep(t, ck, op, steps, newId).checkpoint.Some?
  {
  }

  /** Every history of attempts and answers is a run of the concurrent world, so the states that recovery gets stuck
      in, and those it recovers from, are all reachable there. */
  lemma {:induction false} HistoriesAreRuns(g: Tables, op: Uuid, moves: seq<Move>)
    ensures Reaches(World(g, map[], map[]), Alone(PlayAll(Site(g, None), op, moves), op))
  {
    if moves == [] {
      ReachesItself(World(g, map[], map[]));
    } else {
      var n := |moves| - 1;
      HistoriesAreRuns(g, op, moves[..n]);
      OneMoreMove(World(g, map[], map[]), PlayAll(Site(g, None), op, moves[..n]), op, moves[n]);
    }
  }

  lemma OneMoreMove(w: World, site: Site, op: Uuid, move: Move)
    requires Reaches(w, Alone(site, op))
    ensures Reaches(w, Alone(Play(site, op, move), op))
  {
    MovesAreRuns(site, op, move);
    ReachesOnward(w, Alone(site, op), Alone(Play(site, op, move), op));
  }
}
