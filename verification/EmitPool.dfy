/** The partition emit pool: a queue of objects to write, workers that write them, and a drain
    that the process goes through when it exits. Each step below is taken under the one lock,
    except the writing itself. */
module EmitPool {

  type Path = string

  // ---------- the state ----------

  /** What the lock protects. `outs` are all the paths ever queued. */
  datatype Shared = Shared(queue: seq<Path>, busy: int, failed: nat, stop: bool, started: bool, outs: seq<Path>)

  /** Where a worker is: about to take the lock, blocked on the work condition, writing an
      object, about to report how that went, or returned. */
  datatype Worker = Ready | Waiting | Emitting(path: Path) | Reporting(path: Path, ok: bool) | Exited

  /** Where the rest of the process is: submitting, in the drain's wait loop (blocked on the
      idle condition or not), joining the workers, or gone. */
  datatype Main =
    | Walking
    | Draining(code: int, blocked: bool)
    | Joining(code: int, failed: bool, joined: nat)
    | Finished(code: int)

  /** The last four fields are a record of what happened: which paths were written, which
      reports said so, which said not, and which jobs an exit with an error threw away. */
  datatype State = State(jobs: nat, shared: Shared, workers: seq<Worker>, main: Main,
                         written: set<Path>, good: seq<Path>, bad: seq<Path>, dropped: seq<Path>)

  function Submitted(s: Shared, path: Path): Shared {
    if path in s.outs then s.(started := true)
    else s.(started := true, queue := s.queue + [path], busy := s.busy + 1, outs := s.outs + [path])
  }

  function Taken(s: Shared): Shared
    requires s.queue != []
  {
    s.(queue := s.queue[1..])
  }

  function Reported(s: Shared, ok: bool): Shared {
    s.(failed := s.failed + if ok then 0 else 1, busy := s.busy - 1)
  }

  function Stopped(s: Shared, code: int): Shared {
    if code == 0 then s.(stop := true) else s.(stop := true, busy := s.busy - |s.queue|, queue := [])
  }

  // ---------- the steps ----------

  datatype Action =
    | Submit(path: Path, woken: nat)   // one blocked worker is signalled, if there is one
    | Look(worker: nat)                // a worker takes the lock and looks for a job
    | Emit(worker: nat, ok: bool)      // it writes the object
    | Report(worker: nat)
    | Wake(worker: nat)                // a spurious wakeup
    | Exit(code: int)                  // the drain, up to its first test
    | WakeMain                         // a spurious wakeup
    | Test                             // the drain tests whether the pool is idle
    | Join

  predicate IsWaiting(s: State, i: nat) {
    i < |s.workers| && s.workers[i] == Waiting
  }

  ghost predicate Enabled(s: State, a: Action) {
    match a
    case Submit(_, i) => s.main.Walking? && (IsWaiting(s, i) || forall j: nat :: !IsWaiting(s, j))
    case Look(i) => i < |s.workers| && s.workers[i] == Ready
    case Emit(i, _) => i < |s.workers| && s.workers[i].Emitting?
    case Report(i) => i < |s.workers| && s.workers[i].Reporting?
    case Wake(i) => IsWaiting(s, i)
    case Exit(_) => s.main.Walking?
    case WakeMain => s.main.Draining? && s.main.blocked
    case Test => s.main.Draining? && !s.main.blocked
    case Join => s.main.Joining? && (s.main.joined < |s.workers| ==> s.workers[s.main.joined] == Exited)
  }

  function Woken(w: Worker): Worker {
    if w == Waiting then Ready else w
  }

  function AllWoken(ws: seq<Worker>): (r: seq<Worker>)
    ensures |r| == |ws| && forall i :: 0 <= i < |ws| ==> r[i] == Woken(ws[i])
  {
    if ws == [] then [] else [Woken(ws[0])] + AllWoken(ws[1..])
  }

  ghost function Step(s: State, a: Action): State
    requires Enabled(s, a)
  {
    match a
    case Submit(path, i) =>
      var ws := if s.shared.started then s.workers else seq(s.jobs, _ => Ready);
      s.(shared := Submitted(s.shared, path),
         workers := if path !in s.shared.outs && i < |ws| then ws[i := Woken(ws[i])] else ws)
    case Look(i) =>
      if s.shared.queue != [] then
        s.(shared := Taken(s.shared), workers := s.workers[i := Emitting(s.shared.queue[0])])
      else
        s.(workers := s.workers[i := if s.shared.stop then Exited else Waiting])
    case Emit(i, ok) =>
      var path := s.workers[i].path;
      s.(workers := s.workers[i := Reporting(path, ok)], written := if ok then s.written + {path} else s.written)
    case Report(i) =>
      var Reporting(path, ok) := s.workers[i];
      s.(shared := Reported(s.shared, ok), workers := s.workers[i := Ready],
         main := if s.shared.busy == 1 && s.main.Draining? then s.main.(blocked := false) else s.main,
         good := if ok then s.good + [path] else s.good,
         bad := if ok then s.bad else s.bad + [path])
    case Wake(i) => s.(workers := s.workers[i := Ready])
    case Exit(code) =>
      if !s.shared.started then s.(main := Finished(code))
      else s.(shared := Stopped(s.shared, code), workers := AllWoken(s.workers), main := Draining(code, false),
              dropped := if code == 0 then s.dropped else s.dropped + s.shared.queue)
    case WakeMain => s.(main := s.main.(blocked := false))
    case Test =>
      if s.shared.busy > 0 then s.(main := s.main.(blocked := true))
      else s.(shared := s.shared.(started := false), main := Joining(s.main.code, s.shared.failed > 0, 0))
    case Join =>
      if s.main.joined < |s.workers| then s.(main := s.main.(joined := s.main.joined + 1))
      else s.(main := Finished(if s.main.failed && s.main.code == 0 then 1 else s.main.code))
  }

  predicate Initial(s: State) {
    && s.jobs > 1 && s.workers == [] && s.main == Walking && s.written == {}
    && s.good == s.bad == s.dropped == []
    && s.shared == Shared([], 0, 0, false, false, [])
  }

  /** `s'` comes after the steps `run`. */
  ghost predicate Reaches(s: State, run: seq<Action>, s': State)
    decreases |run|
  {
    if run == [] then s == s' else Enabled(s, run[0]) && Reaches(Step(s, run[0]), run[1..], s')
  }

  // ---------- what every step keeps ----------

  function Count(ps: seq<Path>, p: Path): nat {
    if ps == [] then 0 else Count(ps[..|ps| - 1], p) + if ps[|ps| - 1] == p then 1 else 0
  }

  lemma {:induction false} CountAppend(a: seq<Path>, b: seq<Path>, p: Path)
    ensures Count(a + b, p) == Count(a, p) + Count(b, p)
  {
    if b == [] {
      assert a + b == a;
    } else {
      assert (a + b)[..|a + b| - 1] == a + b[..|b| - 1];
      CountAppend(a, b[..|b| - 1], p);
    }
  }

  lemma {:induction false} CountIn(ps: seq<Path>, p: Path)
    ensures Count(ps, p) > 0 <==> p in ps
  {
    if ps != [] {
      CountIn(ps[..|ps| - 1], p);
      assert ps == ps[..|ps| - 1] + [ps[|ps| - 1]];
    }
  }

  predicate Busy(w: Worker) {
    w.Emitting? || w.Reporting?
  }

  function Has(w: Worker, p: Path): nat {
    if Busy(w) && w.path == p then 1 else 0
  }

  /** How many workers have a job in hand, and how many have this one. */
  function Hands(ws: seq<Worker>): nat {
    if ws == [] then 0 else Hands(ws[..|ws| - 1]) + if Busy(ws[|ws| - 1]) then 1 else 0
  }

  function InHand(ws: seq<Worker>, p: Path): nat {
    if ws == [] then 0 else InHand(ws[..|ws| - 1], p) + Has(ws[|ws| - 1], p)
  }

  lemma {:induction false} HandsUpdate(ws: seq<Worker>, i: nat, w: Worker, p: Path)
    requires i < |ws|
    ensures Has(ws[i], p) <= InHand(ws, p)
    ensures InHand(ws[i := w], p) == InHand(ws, p) - Has(ws[i], p) + Has(w, p)
    ensures Busy(ws[i]) ==> Hands(ws) > 0
    ensures Hands(ws[i := w]) == Hands(ws) - (if Busy(ws[i]) then 1 else 0) + if Busy(w) then 1 else 0
  {
    var init, ws' := ws[..|ws| - 1], ws[i := w];
    if i < |ws| - 1 {
      HandsUpdate(init, i, w, p);
      assert ws'[..|ws| - 1] == init[i := w];
    } else {
      assert ws'[..|ws| - 1] == init;
    }
  }

  lemma {:induction false} HandsSame(ws: seq<Worker>, ws': seq<Worker>, p: Path)
    requires |ws| == |ws'| && forall i :: 0 <= i < |ws| ==> Busy(ws[i]) == Busy(ws'[i]) && Has(ws[i], p) == Has(ws'[i], p)
    ensures Hands(ws) == Hands(ws') && InHand(ws, p) == InHand(ws', p)
  {
    if ws != [] { HandsSame(ws[..|ws| - 1], ws'[..|ws| - 1], p); }
  }

  /** In how many places a path is: queued, in some worker's hand, reported, or thrown away. */
  function Places(s: State, p: Path): nat {
    Count(s.shared.queue, p) + InHand(s.workers, p) + Count(s.good, p) + Count(s.bad, p) + Count(s.dropped, p)
  }

  predicate InPlace(s: State, p: Path) {
    Places(s, p) == if p in s.shared.outs then 1 else 0
  }

  /** What was reported as written has been written. */
  predicate Truthful(s: State) {
    && (forall p <- s.good :: p in s.written)
    && forall i :: 0 <= i < |s.workers| && s.workers[i].Reporting? && s.workers[i].ok ==> s.workers[i].path in s.written
  }

  predicate Stopping(s: State) {
    s.main.Draining? || s.main.Joining? || (s.main.Finished? && s.workers != [])
  }

  predicate Idle(s: State) {
    s.shared.queue == [] && s.shared.busy == 0
  }

  /** Where the drain is, against what it has waited for. */
  predicate Phases(s: State) {
    && (s.shared.stop <==> Stopping(s))
    && (s.main.Walking? && !s.shared.started ==> s.workers == [] && s.shared.outs == [] && s.shared.failed == 0)
    && (s.workers != [] ==> |s.workers| == s.jobs)
    && (s.shared.started ==> s.workers != [])
    && (s.main.Joining? || s.main.Finished? ==> Idle(s))
    && (s.main.Draining? || s.main.Joining? ==> s.workers != [])
    && (s.main.Draining? && s.main.blocked ==> s.shared.busy > 0)
    && (s.main.Joining? ==> s.main.failed == (s.shared.failed > 0) && s.main.joined <= |s.workers|)
    && (s.main.Finished? && s.main.code == 0 ==> s.shared.failed == 0)
    && (s.dropped == [] || (Stopping(s) && s.main.code != 0))
  }

  /** No wakeup is lost. */
  ghost predicate Awake(s: State) {
    && (s.shared.queue != [] ==> exists i: nat :: Active(s, i))
    && (s.shared.stop ==> forall i: nat :: !IsWaiting(s, i))
    && (!s.shared.stop || s.shared.queue != [] ==> forall i :: 0 <= i < |s.workers| ==> s.workers[i] != Exited)
  }

  predicate Active(s: State, i: nat) {
    i < |s.workers| && !s.workers[i].Waiting? && !s.workers[i].Exited?
  }

  ghost predicate Inv(s: State) {
    && s.jobs > 1
    && Books(s) && Truthful(s) && Phases(s) && Awake(s)
  }

  /** The books: every path ever queued is in exactly one place and no other is in any, and
      busy is what is queued or in hand. */
  ghost predicate Books(s: State) {
    && s.shared.busy == |s.shared.queue| + Hands(s.workers)
    && s.shared.failed == |s.bad|
    && forall p :: InPlace(s, p)
  }

  lemma InitialInv(s: State)
    requires Initial(s)
    ensures Inv(s)
  {
  }

  lemma {:induction false} ReadyHaveNothing(ws: seq<Worker>, p: Path)
    requires forall i :: 0 <= i < |ws| ==> ws[i] == Ready
    ensures Hands(ws) == 0 && InHand(ws, p) == 0
  {
    if ws != [] { ReadyHaveNothing(ws[..|ws| - 1], p); }
  }

  lemma SubmitBooks(s: State, path: Path, i: nat)
    requires Inv(s) && Enabled(s, Submit(path, i))
    ensures Books(Step(s, Submit(path, i)))
  {
    var s' := Step(s, Submit(path, i));
    StartBooks(s, i, path, "");
    forall p ensures InPlace(s', p) {
      assert InPlace(s, p);
      StartBooks(s, i, path, p);
      CountAppend(s.shared.queue, [path], p);
      assert Count([path], p) == if path == p then 1 else 0 by { assert [path][..0] == []; }
    }
  }

  lemma StartBooks(s: State, i: nat, path: Path, p: Path)
    requires Inv(s) && Enabled(s, Submit(path, i))
    ensures Hands(Step(s, Submit(path, i)).workers) == Hands(s.workers)
    ensures InHand(Step(s, Submit(path, i)).workers, p) == InHand(s.workers, p)
  {
    var ws := if s.shared.started then s.workers else seq(s.jobs, _ => Ready);
    if !s.shared.started { ReadyHaveNothing(ws, p); }
    HandsSame(ws, Step(s, Submit(path, i)).workers, p);
  }

  lemma LookBooks(s: State, i: nat)
    requires Inv(s) && Enabled(s, Look(i))
    ensures Books(Step(s, Look(i)))
  {
    var s', q := Step(s, Look(i)), s.shared.queue;
    HandsUpdate(s.workers, i, s'.workers[i], "");
    forall p ensures InPlace(s', p) {
      assert InPlace(s, p);
      HandsUpdate(s.workers, i, s'.workers[i], p);
      if q != [] {
        assert q == [q[0]] + q[1..] && [q[0]][..0] == [];
        CountAppend([q[0]], q[1..], p);
      }
    }
  }

  lemma EmitBooks(s: State, i: nat, ok: bool)
    requires Inv(s) && Enabled(s, Emit(i, ok))
    ensures Books(Step(s, Emit(i, ok)))
  {
    var s' := Step(s, Emit(i, ok));
    HandsSame(s.workers, s'.workers, "");
    forall p ensures InPlace(s', p) {
      assert InPlace(s, p);
      HandsSame(s.workers, s'.workers, p);
    }
  }

  lemma ReportBooks(s: State, i: nat)
    requires Inv(s) && Enabled(s, Report(i))
    ensures Books(Step(s, Report(i)))
  {
    var s' := Step(s, Report(i));
    HandsUpdate(s.workers, i, Ready, "");
    forall p ensures InPlace(s', p) {
      assert InPlace(s, p);
      HandsUpdate(s.workers, i, Ready, p);
      CountAppend(s.good, [s.workers[i].path], p);
      CountAppend(s.bad, [s.workers[i].path], p);
    }
  }

  lemma ExitBooks(s: State, code: int)
    requires Inv(s) && Enabled(s, Exit(code))
    ensures Books(Step(s, Exit(code)))
  {
    var s' := Step(s, Exit(code));
    HandsSame(s.workers, s'.workers, "");
    forall p ensures InPlace(s', p) {
      assert InPlace(s, p);
      HandsSame(s.workers, s'.workers, p);
      CountAppend(s.dropped, s.shared.queue, p);
    }
  }

  lemma OtherBooks(s: State, a: Action)
    requires Inv(s) && Enabled(s, a) && (a.Wake? || a.WakeMain? || a.Test? || a.Join?)
    ensures Books(Step(s, a))
  {
    var s' := Step(s, a);
    if a.Wake? { HandsUpdate(s.workers, a.worker, Ready, ""); }
    forall p ensures InPlace(s', p) {
      assert InPlace(s, p);
      if a.Wake? { HandsUpdate(s.workers, a.worker, Ready, p); }
    }
  }

  lemma StepBooks(s: State, a: Action)
    requires Inv(s) && Enabled(s, a)
    ensures Books(Step(s, a))
  {
    match a
    case Submit(path, i) => SubmitBooks(s, path, i);
    case Look(i) => LookBooks(s, i);
    case Emit(i, ok) => EmitBooks(s, i, ok);
    case Report(i) => ReportBooks(s, i);
    case Exit(code) => ExitBooks(s, code);
    case _ => OtherBooks(s, a);
  }

  lemma StepTruthful(s: State, a: Action)
    requires Inv(s) && Enabled(s, a)
    ensures Truthful(Step(s, a))
  {
    match a
    case Submit(_, _) =>
    case Look(_) =>
    case Emit(_, _) =>
    case Report(_) =>
    case _ =>
  }

  lemma StepPhases(s: State, a: Action)
    requires Inv(s) && Enabled(s, a)
    ensures Phases(Step(s, a))
  {
    match a
    case Submit(_, _) =>
    case Look(_) =>
    case Emit(_, _) =>
    case Report(i) => HandsUpdate(s.workers, i, Ready, "");
    case Exit(_) =>
    case Test =>
    case _ =>
  }

  lemma StepAwake(s: State, a: Action)
    requires Inv(s) && Enabled(s, a)
    ensures Awake(Step(s, a))
  {
    var s' := Step(s, a);
    match a
    case Submit(_, _) => SubmitAwake(s, a);
    case Look(i) =>
      assert s.shared.queue != [] ==> Active(s', i);
      forall j: nat | s.shared.stop ensures !IsWaiting(s', j) { assert !IsWaiting(s, j); }
    case Emit(i, _) =>
      assert Active(s', i);
      forall j: nat | s.shared.stop ensures !IsWaiting(s', j) { assert !IsWaiting(s, j); }
    case Report(i) =>
      assert Active(s', i);
      forall j: nat | s.shared.stop ensures !IsWaiting(s', j) { assert !IsWaiting(s, j); }
    case Wake(i) => assert Active(s', i);
    case Exit(_) => ExitAwake(s, a);
    case _ => OtherAwake(s, a);
  }

  lemma SubmitAwake(s: State, a: Action)
    requires Inv(s) && Enabled(s, a) && a.Submit?
    ensures Awake(Step(s, a))
  {
    var s', i := Step(s, a), a.woken;
    if s.shared.started && a.path !in s.shared.outs {
      if IsWaiting(s, i) {
        assert Active(s', i);
      } else {
        assert !IsWaiting(s, 0);
        assert Active(s', 0);
      }
    } else if s.shared.started {
      if j: nat :| Active(s, j) { assert Active(s', j); }
    } else {
      assert Active(s', 0);
    }
  }

  lemma ExitAwake(s: State, a: Action)
    requires Inv(s) && Enabled(s, a) && a.Exit?
    ensures Awake(Step(s, a))
  {
    var s' := Step(s, a);
    if j: nat :| Active(s, j) { assert s.shared.started ==> Active(s', j); }
  }

  lemma OtherAwake(s: State, a: Action)
    requires Inv(s) && Enabled(s, a) && (a.WakeMain? || a.Test? || a.Join?)
    ensures Awake(Step(s, a))
  {
    var s' := Step(s, a);
    if j: nat :| Active(s, j) { assert Active(s', j); }
    forall j: nat | s.shared.stop ensures !IsWaiting(s', j) { assert !IsWaiting(s, j); }
  }

  lemma StepInv(s: State, a: Action)
    requires Inv(s) && Enabled(s, a)
    ensures Inv(Step(s, a))
  {
    StepBooks(s, a);
    StepTruthful(s, a);
    StepPhases(s, a);
    StepAwake(s, a);
  }

  lemma {:induction false} RunInv(s: State, run: seq<Action>, s': State)
    requires Inv(s) && Reaches(s, run, s')
    ensures Inv(s')
    decreases |run|
  {
    if run != [] {
      StepInv(s, run[0]);
      RunInv(Step(s, run[0]), run[1..], s');
    }
  }

  // ---------- safety ----------

  /** In every interleaving: busy counts the jobs queued or in hand, and no path has two
      writers, nor a writer and a place in the queue. */
  lemma OneWriter(s0: State, run: seq<Action>, s: State, i: nat, j: nat)
    requires Initial(s0) && Reaches(s0, run, s)
    requires i < |s.workers| && s.workers[i].Emitting?
    ensures s.shared.busy == |s.shared.queue| + Hands(s.workers)
    ensures s.workers[i].path !in s.shared.queue && s.workers[i].path in s.shared.outs
    ensures j < |s.workers| && j != i && Busy(s.workers[j]) ==> s.workers[j].path != s.workers[i].path
  {
    InitialInv(s0);
    RunInv(s0, run, s);
    var p := s.workers[i].path;
    assert InPlace(s, p);
    HandsUpdate(s.workers, i, Ready, p);
    CountIn(s.shared.queue, p);
    if j < |s.workers| && j != i { HandsUpdate(s.workers[i := Ready], j, Ready, p); }
  }

  /** A process that leaves with exit code 0 has written every path that was ever submitted. */
  lemma AllWritten(s0: State, run: seq<Action>, s: State, p: Path, k: nat)
    requires Initial(s0) && Reaches(s0, run, s) && s.main == Finished(0)
    requires k < |run| && run[k].Submit? && run[k].path == p
    ensures p in s.written
  {
    InitialInv(s0);
    RunInv(s0, run, s);
    StaysQueued(s0, run, s, p, k);
    assert InPlace(s, p);
    NoHands(s.workers, p);
    CountIn(s.good, p);
  }

  lemma {:induction false} StaysQueued(s: State, run: seq<Action>, s': State, p: Path, k: nat)
    requires Reaches(s, run, s')
    requires p in s.shared.outs || (k < |run| && run[k].Submit? && run[k].path == p)
    ensures p in s'.shared.outs
    decreases |run|
  {
    if run != [] {
      StaysQueued(Step(s, run[0]), run[1..], s', p, if k > 0 then k - 1 else 0);
    }
  }

  lemma {:induction false} NoHands(ws: seq<Worker>, p: Path)
    ensures Hands(ws) == 0 ==> InHand(ws, p) == 0
  {
    if ws != [] { NoHands(ws[..|ws| - 1], p); }
  }

  // ---------- progress ----------

  /** A worker that is not blocked is behind every job that is still queued, and while the drain
      is blocked some worker can take a step. */
  lemma NoLostWakeup(s0: State, run: seq<Action>, s: State)
    requires Initial(s0) && Reaches(s0, run, s)
    ensures s.shared.queue != [] ==> exists i: nat :: Active(s, i)
    ensures s.main.Draining? && s.main.blocked ==> exists i: nat :: Active(s, i)
    ensures forall i: nat :: Active(s, i) ==> Enabled(s, Look(i)) || Enabled(s, Emit(i, true)) || Enabled(s, Report(i))
  {
    InitialInv(s0);
    RunInv(s0, run, s);
    if s.main.Draining? && s.main.blocked && s.shared.queue == [] {
      var i := SomeHand(s.workers);
      assert Active(s, i);
    }
  }

  lemma {:induction false} SomeHand(ws: seq<Worker>) returns (i: nat)
    requires Hands(ws) > 0
    ensures i < |ws| && Busy(ws[i])
  {
    i := |ws| - 1;
    if !Busy(ws[i]) { i := SomeHand(ws[..|ws| - 1]); }
  }

  function Work(w: Worker): nat {
    match w
    case Ready => 1
    case Emitting(_) => 4
    case Reporting(_, _) => 3
    case _ => 0
  }

  function WorkOf(ws: seq<Worker>): nat {
    if ws == [] then 0 else WorkOf(ws[..|ws| - 1]) + Work(ws[|ws| - 1])
  }

  lemma {:induction false} WorkUpdate(ws: seq<Worker>, i: nat, w: Worker)
    requires i < |ws|
    ensures WorkOf(ws[i := w]) == WorkOf(ws) - Work(ws[i]) + Work(w)
  {
    var init, ws' := ws[..|ws| - 1], ws[i := w];
    if i < |ws| - 1 {
      WorkUpdate(init, i, w);
      assert ws'[..|ws| - 1] == init[i := w];
    } else {
      assert ws'[..|ws| - 1] == init;
    }
  }

  function MainWork(s: State): int {
    match s.main
    case Walking => |s.workers| + 4
    case Draining(_, blocked) => |s.workers| + if blocked then 2 else 3
    case Joining(_, _, joined) => |s.workers| + 1 - joined
    case Finished(_) => 0
  }

  /** What is left to do: jobs to write, reports to make, workers to join. */
  function Left(s: State): int {
    4 * |s.shared.queue| + WorkOf(s.workers) + MainWork(s)
  }

  /** Once the drain has begun, each step but a spurious wakeup of the drain leaves less to do. */
  lemma StepProgress(s: State, a: Action)
    requires Inv(s) && Stopping(s) && Enabled(s, a)
    ensures Stopping(Step(s, a))
    ensures if a.WakeMain? then Left(Step(s, a)) == Left(s) + 1 else Left(Step(s, a)) < Left(s)
  {
    match a
    case Look(i) => WorkUpdate(s.workers, i, Step(s, a).workers[i]);
    case Emit(i, _) => WorkUpdate(s.workers, i, Step(s, a).workers[i]);
    case Report(i) => WorkUpdate(s.workers, i, Ready);
    case Wake(_) => assert false;
    case _ =>
  }

  /** And until the process is gone there is such a step. */
  lemma SomeStep(s: State) returns (a: Action)
    requires Inv(s) && Stopping(s) && !s.main.Finished?
    ensures Enabled(s, a) && !a.WakeMain?
  {
    if i: nat :| Active(s, i) {
      a := match s.workers[i] case Ready => Look(i) case Emitting(_) => Emit(i, true) case _ => Report(i);
    } else if s.main.Joining? {
      a := Join;
      if s.main.joined < |s.workers| {
        assert !Active(s, s.main.joined) && !IsWaiting(s, s.main.joined);
      }
    } else {
      a := Test;
      if s.shared.busy > 0 {
        var i := SomeHand(s.workers);
        assert Active(s, i);
      }
    }
  }

  function Wakeups(run: seq<Action>): nat {
    if run == [] then 0 else (if run[0].WakeMain? then 1 else 0) + Wakeups(run[1..])
  }

  /** So the drain and the joins end: a run from the drain on takes no more steps than there
      was to do, but for two with each spurious wakeup, and it can only stop when the process
      is gone. */
  lemma {:induction false} DrainEnds(s: State, run: seq<Action>, s': State)
    requires Inv(s) && Stopping(s) && Reaches(s, run, s')
    ensures 0 <= Left(s') && |run| + Left(s') <= Left(s) + 2 * Wakeups(run)
    ensures Inv(s') && Stopping(s')
    ensures s'.main.Finished? || exists a :: Enabled(s', a) && !a.WakeMain?
    decreases |run|
  {
    if run == [] {
      if !s.main.Finished? { var a := SomeStep(s); }
    } else {
      StepProgress(s, run[0]);
      StepInv(s, run[0]);
      DrainEnds(Step(s, run[0]), run[1..], s');
    }
  }

  /** From every state of the drain the process can go on until it is gone. */
  lemma {:induction false} DrainFinishes(s: State) returns (run: seq<Action>, s': State)
    requires Inv(s) && Stopping(s)
    ensures Reaches(s, run, s') && s'.main.Finished? && Wakeups(run) == 0
    decreases Left(s)
  {
    run, s' := [], s;
    DrainEnds(s, [], s);
    if !s.main.Finished? {
      var a := SomeStep(s);
      StepProgress(s, a);
      StepInv(s, a);
      run, s' := DrainFinishes(Step(s, a));
      var rest := run;
      run := [a] + rest;
      assert run[1..] == rest;
    }
  }

  // ---------- the exit code ----------

  predicate Fails(a: Action) {
    a.Emit? && !a.ok
  }

  /** How many writes failed. */
  function Failures(run: seq<Action>): nat {
    if run == [] then 0 else (if Fails(run[0]) then 1 else 0) + Failures(run[1..])
  }

  lemma {:induction false} SomeFailure(run: seq<Action>)
    ensures Failures(run) > 0 <==> exists j :: 0 <= j < |run| && Fails(run[j])
  {
    if run != [] {
      SomeFailure(run[1..]);
      if j :| 0 <= j < |run[1..]| && Fails(run[1..][j]) { assert run[j + 1] == run[1..][j]; }
      if j :| 0 <= j < |run| && Fails(run[j]) { assert j > 0 ==> run[j] == run[1..][j - 1]; }
    }
  }

  function Unsaid(w: Worker): nat {
    if w.Reporting? && !w.ok then 1 else 0
  }

  /** How many failures are not reported yet. */
  function Unreported(ws: seq<Worker>): nat {
    if ws == [] then 0 else Unreported(ws[..|ws| - 1]) + Unsaid(ws[|ws| - 1])
  }

  lemma {:induction false} UnreportedUpdate(ws: seq<Worker>, i: nat, w: Worker)
    requires i < |ws|
    ensures Unreported(ws[i := w]) == Unreported(ws) - Unsaid(ws[i]) + Unsaid(w)
  {
    var init, ws' := ws[..|ws| - 1], ws[i := w];
    if i < |ws| - 1 {
      UnreportedUpdate(init, i, w);
      assert ws'[..|ws| - 1] == init[i := w];
    } else {
      assert ws'[..|ws| - 1] == init;
    }
  }

  lemma {:induction false} UnreportedSame(ws: seq<Worker>, ws': seq<Worker>)
    requires |ws| == |ws'| && forall i :: 0 <= i < |ws| ==> Unsaid(ws[i]) == Unsaid(ws'[i])
    ensures Unreported(ws) == Unreported(ws')
  {
    if ws != [] { UnreportedSame(ws[..|ws| - 1], ws'[..|ws| - 1]); }
  }

  lemma {:induction false} NoneUnreported(ws: seq<Worker>)
    requires Hands(ws) == 0
    ensures Unreported(ws) == 0
  {
    if ws != [] { NoneUnreported(ws[..|ws| - 1]); }
  }

  function Told(s: State): nat {
    s.shared.failed + Unreported(s.workers)
  }

  lemma StepTells(s: State, a: Action)
    requires Inv(s) && Enabled(s, a)
    ensures Told(Step(s, a)) == Told(s) + if Fails(a) then 1 else 0
  {
    var s' := Step(s, a);
    match a
    case Submit(_, _) =>
      if !s.shared.started { ReadyTellNothing(seq(s.jobs, _ => Ready)); }
      UnreportedSame(if s.shared.started then s.workers else seq(s.jobs, _ => Ready), s'.workers);
    case Look(i) => UnreportedUpdate(s.workers, i, s'.workers[i]);
    case Emit(i, _) => UnreportedUpdate(s.workers, i, s'.workers[i]);
    case Report(i) => UnreportedUpdate(s.workers, i, Ready);
    case Wake(i) => UnreportedUpdate(s.workers, i, Ready);
    case Exit(_) => UnreportedSame(s.workers, s'.workers);
    case _ =>
  }

  lemma {:induction false} ReadyTellNothing(ws: seq<Worker>)
    requires forall i :: 0 <= i < |ws| ==> ws[i] == Ready
    ensures Unreported(ws) == 0
  {
    if ws != [] { ReadyTellNothing(ws[..|ws| - 1]); }
  }

  lemma {:induction false} RunTells(s: State, run: seq<Action>, s': State)
    requires Inv(s) && Reaches(s, run, s')
    ensures Told(s') == Told(s) + Failures(run)
    decreases |run|
  {
    if run != [] {
      StepTells(s, run[0]);
      StepInv(s, run[0]);
      RunTells(Step(s, run[0]), run[1..], s');
    }
  }

  /** The process is on its way out, or gone, with the code of its exit unless something failed. */
  predicate Leaves(s: State, code: int) {
    match s.main
    case Walking => false
    case Draining(c, _) => c == code
    case Joining(c, failed, _) => c == code && failed == (s.shared.failed > 0)
    case Finished(c) => c == if code == 0 && s.shared.failed > 0 then 1 else code
  }

  lemma StepLeaves(s: State, a: Action, code: int)
    requires Inv(s) && Enabled(s, a) && (Leaves(s, code) || a == Exit(code))
    ensures Leaves(Step(s, a), code)
  {
    if a.Report? { HandsUpdate(s.workers, a.worker, Ready, ""); }
  }

  lemma {:induction false} RunLeaves(s: State, run: seq<Action>, s': State, code: int, k: nat)
    requires Inv(s) && Reaches(s, run, s') && (Leaves(s, code) || (k < |run| && run[k] == Exit(code)))
    ensures Leaves(s', code)
    decreases |run|
  {
    if run != [] {
      StepInv(s, run[0]);
      if Leaves(s, code) || k == 0 { StepLeaves(s, run[0], code); }
      RunLeaves(Step(s, run[0]), run[1..], s', code, if k > 0 then k - 1 else 0);
    }
  }

  /** With which code the process leaves: with 1 if it exits with 0 and a write failed, and otherwise
      with the code of its exit, whether the pool was ever started or not. */
  lemma ExitCode(s0: State, run: seq<Action>, s: State, code: int, k: nat)
    requires Initial(s0) && Reaches(s0, run, s) && s.main.Finished?
    requires k < |run| && run[k] == Exit(code)
    ensures s.main.code == if code == 0 && exists j :: 0 <= j < |run| && Fails(run[j]) then 1 else code
  {
    InitialInv(s0);
    RunInv(s0, run, s);
    RunLeaves(s0, run, s, code, k);
    RunTells(s0, run, s);
    NoneUnreported(s.workers);
    SomeFailure(run);
  }

  /** It does not leave without an exit. */
  lemma {:induction false} LeavesByExit(s: State, run: seq<Action>, s': State) returns (k: nat)
    requires s.main.Walking? && Reaches(s, run, s') && !s'.main.Walking?
    ensures k < |run| && run[k].Exit?
    decreases |run|
  {
    k := 0;
    if !run[0].Exit? {
      k := LeavesByExit(Step(s, run[0]), run[1..], s');
      k := k + 1;
    }
  }

  // ---------- an exit with an error ----------

  /** Nobody begins to write: what is being written was in hand at `s`. */
  predicate NothingBegun(s: State, s': State) {
    && !s'.main.Walking? && s'.shared.queue == [] && |s'.workers| == |s.workers|
    && (forall i :: 0 <= i < |s.workers| && s'.workers[i].Emitting? ==> s'.workers[i] == s.workers[i])
    && forall p <- s'.written :: p in s.written || InWriting(s, p)
  }

  predicate InWriting(s: State, p: Path) {
    exists i :: 0 <= i < |s.workers| && s.workers[i] == Emitting(p)
  }

  lemma StepBeginsNothing(s: State, s': State, a: Action)
    requires NothingBegun(s, s') && Enabled(s', a)
    ensures NothingBegun(s, Step(s', a))
  {
    if a.Emit? && a.ok { assert s'.workers[a.worker] == s.workers[a.worker] == Emitting(s'.workers[a.worker].path); }
  }

  /** After an exit with an error no queued object is written any more, only those being written. */
  lemma {:induction false} ErrorStopsWriting(s: State, code: int, run: seq<Action>, s': State)
    requires Enabled(s, Exit(code)) && code != 0 && s.shared.started && Reaches(Step(s, Exit(code)), run, s')
    ensures NothingBegun(s, s')
  {
    RunBeginsNothing(s, Step(s, Exit(code)), run, s');
  }

  lemma {:induction false} RunBeginsNothing(s: State, s1: State, run: seq<Action>, s': State)
    requires NothingBegun(s, s1) && Reaches(s1, run, s')
    ensures NothingBegun(s, s')
    decreases |run|
  {
    if run != [] {
      StepBeginsNothing(s, s1, run[0]);
      RunBeginsNothing(s, Step(s1, run[0]), run[1..], s');
    }
  }

  // ---------- the code of the critical sections ----------

  class Job {
    const out: Path
    var next: Job?

    constructor (out: Path)
      ensures this.out == out && next == null
    {
      this.out, next := out, null;
    }
  }

  function Outs(jobs: seq<Job>): (ps: seq<Path>)
    ensures |ps| == |jobs| && forall i :: 0 <= i < |jobs| ==> ps[i] == jobs[i].out
  {
    if jobs == [] then [] else [jobs[0].out] + Outs(jobs[1..])
  }

  function Link(jobs: seq<Job>, i: nat): Job? {
    if i < |jobs| then jobs[i] else null
  }

  class Pool {
    var head: Job?
    var tail: Job?
    var busy: int
    var failed: nat
    var stop: bool
    var started: bool
    var outs: seq<Path>
    ghost var jobs: seq<Job>

    /** The queue is the list from `head`. */
    ghost predicate Linked()
      reads this, jobs
    {
      && head == Link(jobs, 0)
      && (forall i :: 0 <= i < |jobs| ==> jobs[i].next == Link(jobs, i + 1))
      && (forall i, j :: 0 <= i < j < |jobs| ==> jobs[i] != jobs[j])
    }

    /** Once the drain has begun nothing is appended, and `tail` need not be the end. */
    ghost predicate Valid()
      reads this, jobs
    {
      Linked() && (!stop ==> tail == if jobs == [] then null else jobs[|jobs| - 1])
    }

    ghost function View(): Shared
      reads this
    {
      Shared(Outs(jobs), busy, failed, stop, started, outs)
    }

    constructor ()
      ensures Valid() && View() == Shared([], 0, 0, false, false, []) && jobs == []
    {
      head, tail, busy, failed, stop, started, outs, jobs := null, null, 0, 0, false, false, [], [];
    }

    /** Whether the path was queued before; if not, it is noted. */
    method Seen(out: Path) returns (seen: bool)
      modifies this`outs
      ensures seen <==> out in old(outs)
      ensures outs == if seen then old(outs) else old(outs) + [out]
    {
      var i := 0;
      while i < |outs|
        invariant i <= |outs| && out !in outs[..i]
      {
        if outs[i] == out { return true; }
        i := i + 1;
      }
      assert outs[..i] == outs;
      outs := outs + [out];
      seen := false;
    }

    method Submit(out: Path)
      requires Valid() && !stop
      modifies this, jobs
      ensures Valid() && View() == Submitted(old(View()), out)
    {
      started := true;
      var seen := Seen(out);
      if !seen { Append(out); }
    }

    method Append(out: Path)
      requires Valid() && !stop
      modifies this, jobs
      ensures Valid() && View() == old(View()).(queue := old(View()).queue + [out], busy := old(busy) + 1)
    {
      var job := new Job(out);
      if tail != null { tail.next := job; } else { head := job; }
      tail := job;
      busy := busy + 1;
      jobs := jobs + [job];
      assert Outs(jobs) == old(Outs(jobs)) + [out];
    }

    /** What a worker does when it finds the queue non-empty, or the pool stopped. */
    method Take() returns (job: Job?)
      requires Valid() && (jobs != [] || stop)
      modifies this
      ensures Valid()
      ensures if old(jobs) == [] then job == null && View() == old(View())
        else job == old(jobs)[0] && job.out == old(View()).queue[0] && View() == Taken(old(View()))
    {
      job := head;
      if job == null { return; }
      head := job.next;
      if head == null { tail := null; }
      jobs := jobs[1..];
      assert Outs(jobs) == old(Outs(jobs))[1..];
    }

    /** A worker's report; `idle` says that it was the last job. */
    method Report(rc: int) returns (idle: bool)
      requires Valid()
      modifies this
      ensures Valid() && View() == Reported(old(View()), rc == 0)
      ensures idle <==> busy == 0
    {
      if rc != 0 { failed := failed + 1; }
      busy := busy - 1;
      idle := busy == 0;
    }

    /** The drain, up to its wait loop. An exit with an error throws the queued jobs away. */
    method BeginDrain(code: int)
      requires Valid()
      modifies this
      ensures Valid() && View() == Stopped(old(View()), code)
    {
      while code != 0 && head != null
        invariant Linked() && busy - |jobs| == old(busy) - |old(jobs)|
        invariant code == 0 ==> jobs == old(jobs)
        invariant started == old(started) && outs == old(outs) && failed == old(failed)
        decreases |jobs|
      {
        head := head.next;
        jobs := jobs[1..];
        busy := busy - 1;
      }
      tail := head;
      stop := true;
    }
  }
}
