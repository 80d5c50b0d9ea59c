/** The control logic of `main` in main.py as pure functions: resuming from a checkpoint,
    the cyclic data iterator, one training iteration with its EMA gating and its
    log / checkpoint / sample schedule, the loop over `[start_iter, max_iter)`, and the
    generate-only path. Tensors and framework state are opaque values; the network,
    optimizer, learning-rate schedule, EMA decay law and data order are functions the
    caller supplies. Side effects appear as a trace of events. */
module MainLoop {
  import opened Names
  import opened Arith
  import Evaluation

  type Params = seq<real>
  type OptState = seq<real>
  type SchedState = seq<real>
  type BatchData = seq<real>

  /** The configured LOG / SAVE / SAMPLE intervals (a zero interval divides by zero). */
  type Interval = n: int | n > 0 witness 1

  datatype Option<T> = None | Some(value: T)

  datatype Error =
    | ResumeNotFound          // `assert osp.exists(cfg.TRAIN.RESUME)` fails
    | EmptyLoader             // `next` on a fresh iterator raises StopIteration again
    | UnsupportedPrediction   // `ValueError("Not supported prediction type.")`
    | EvaluationFailed        // the labels of `evaluate` raise: `one_hot` of a class beyond LABEL_DIM

  /** `EMAModel.state_dict()`: the shadow parameters and the number of EMA steps taken,
      which drives the decay warm-up. */
  datatype EmaState = EmaState(shadow: Params, steps: nat)

  /** The bundle passed to `torch.save` (main.py:278-284). */
  datatype Checkpoint = Checkpoint(
    stateDict: Params,
    optimizer: OptState,
    lrScheduler: SchedState,
    iter: nat,
    emaStateDict: EmaState)

  datatype Config = Config(
    projectDir: string,
    resume: Option<string>,      // cfg.TRAIN.RESUME
    generateOnly: bool,          // --generate-only
    saveFileName: string,        // --save-file-name
    maxIter: int,                // cfg.TRAIN.MAX_ITER
    logInterval: Interval,
    saveInterval: Interval,
    sampleInterval: Interval,
    predType: string,            // cfg.TRAIN.NOISE_SCHEDULER.PRED_TYPE
    isMain: bool,                // accelerator.is_main_process
    eval: Evaluation.EvalConfig) // cfg.EVAL and MODEL.LABEL_DIM

  datatype TrainOut = TrainOut(model: Params, optimizer: OptState, lrScheduler: SchedState)

  /** What the surrounding runtime supplies. `batch(e, i)` is the `i`-th batch of the
      `e`-th pass over the data loader; `sync(cur)` is `accelerator.sync_gradients` on
      iteration `cur`; `train` is noising, forward, MSE loss, backward, gradient
      sanitisation (when its flag is set) and the optimizer / lr-scheduler step;
      `emaUpdate` is the EMA decay law applied to the new parameters. */
  datatype Runtime = Runtime(
    loaderLen: nat,
    batch: (nat, nat) -> BatchData,
    sync: nat -> bool,
    train: (Params, OptState, SchedState, BatchData, nat, bool) -> TrainOut,
    emaUpdate: (EmaState, Params) -> Params)

  datatype Event =
    | RestartLoader(iter: nat)              // StopIteration caught, `iter(dataloader)` again
    | Fetch(iter: nat, epoch: nat, index: nat)
    | Sanitize(iter: nat)                   // nan_to_num on every gradient
    | OptimizerStep(iter: nat)              // the optimizer.step, lr_scheduler.step, zero_grad calls
    | EmaStep(iter: nat)
    | Log(step: nat)
    | SaveCheckpoint(iter: nat, path: string)
    | StoreParams(iter: nat)                // ema_model.store
    | CopyEma                               // ema_model.copy_to
    | Evaluate(file: string, weights: Params)
    | RestoreParams(iter: nat)              // ema_model.restore
    | Barrier(iter: nat)                    // accelerator.wait_for_everyone

  /** Everything the loop reads and writes: live parameters, optimizer and scheduler state,
      the EMA tracker, the data iterator's position (pass `epoch`, next batch `index`) and
      the files on disk. */
  datatype TrainState = TrainState(
    model: Params,
    optimizer: OptState,
    lrScheduler: SchedState,
    ema: EmaState,
    epoch: nat,
    index: nat,
    disk: map<string, Checkpoint>)

  datatype StepResult = StepResult(state: TrainState, events: seq<Event>, error: Option<Error>)

  // ---------------------------------------------------------------- resume (main.py:184-199)

  datatype Resumed = Resumed(state: TrainState, startIter: nat) | ResumeFailed(error: Error)

  function ResumeSpec(c: Config, s: TrainState): (r: Resumed)
    ensures r.ResumeFailed? <==> c.resume.Some? && c.resume.value !in s.disk
    ensures r.ResumeFailed? ==> r.error == ResumeNotFound
    ensures c.resume.None? ==> r == Resumed(s, 0)
    ensures r.Resumed? ==>
      r.state.epoch == s.epoch && r.state.index == s.index && r.state.disk == s.disk
    ensures r.Resumed? && c.resume.Some? ==> r.state.ema == s.disk[c.resume.value].emaStateDict
    ensures r.Resumed? && c.generateOnly ==>
      r.startIter == 0 && r.state.model == s.model &&
      r.state.optimizer == s.optimizer && r.state.lrScheduler == s.lrScheduler
    ensures r.Resumed? && c.resume.Some? && !c.generateOnly ==>
      var ck := s.disk[c.resume.value];
      r.startIter == ck.iter + 1 && r.state.model == ck.stateDict &&
      r.state.optimizer == ck.optimizer && r.state.lrScheduler == ck.lrScheduler
  {
    match c.resume
    case None => Resumed(s, 0)
    case Some(path) =>
      if path !in s.disk then ResumeFailed(ResumeNotFound)
      else
        var ck := s.disk[path];
        if c.generateOnly then Resumed(s.(ema := ck.emaStateDict), 0)
        else Resumed(s.(model := ck.stateDict, optimizer := ck.optimizer,
                        lrScheduler := ck.lrScheduler, ema := ck.emaStateDict), ck.iter + 1)
  }

  // ---------------------------------------------------------------- data iterator (main.py:226-230)

  /** `epoch`, `index`: the position read. */
  datatype Fetched = Fetched(data: BatchData, epoch: nat, index: nat, restarted: bool) | Exhausted

  function NextBatch(rt: Runtime, epoch: nat, index: nat): (f: Fetched)
    ensures f.Exhausted? <==> rt.loaderLen == 0
    ensures f.Fetched? ==> f.index < rt.loaderLen && f.data == rt.batch(f.epoch, f.index)
    ensures f.Fetched? && !f.restarted ==> f.epoch == epoch && f.index == index
    ensures f.Fetched? ==> (f.restarted <==> index >= rt.loaderLen)
    ensures f.Fetched? && f.restarted ==> f.epoch == epoch + 1 && f.index == 0
  {
    if index < rt.loaderLen then Fetched(rt.batch(epoch, index), epoch, index, false)
    else if rt.loaderLen > 0 then Fetched(rt.batch(epoch + 1, 0), epoch + 1, 0, true)
    else Exhausted
  }

  /** The iterator's position after `k` fetches from a fresh iterator over `n` batches. */
  function CursorAfter(n: nat, k: nat): (nat, nat)
    requires n > 0
  {
    if k == 0 then (0, 0) else ((k - 1) / n, (k - 1) % n + 1)
  }

  /** The `k`-th fetch (from 0) reads batch `k % n` of pass `k / n`: restarting on
      exhaustion cycles through the loader forever. */
  lemma CursorStep(rt: Runtime, k: nat)
    requires rt.loaderLen > 0
    ensures var n := rt.loaderLen;
      var f := NextBatch(rt, CursorAfter(n, k).0, CursorAfter(n, k).1);
      f.Fetched? && f.epoch == k / n && f.index == k % n &&
      (f.epoch, f.index + 1) == CursorAfter(n, k + 1)
  {
    var n := rt.loaderLen;
    if k == 0 {
      DivModUnique(0, n, 0, 0);
    } else {
      var q, r := (k - 1) / n, (k - 1) % n;
      assert k - 1 == q * n + r;
      assert CursorAfter(n, k) == (q, r + 1);
      if r + 1 < n {
        DivModUnique(k, n, q, r + 1);
        assert NextBatch(rt, q, r + 1) == Fetched(rt.batch(q, r + 1), q, r + 1, false);
      } else {
        assert k == (q + 1) * n + 0;
        DivModUnique(k, n, q + 1, 0);
        assert NextBatch(rt, q, r + 1) == Fetched(rt.batch(q + 1, 0), q + 1, 0, true);
      }
      DivModUnique(k, n, k / n, k % n);
    }
  }

  // ---------------------------------------------------------------- one iteration (main.py:223-298)

  predicate ShouldLog(c: Config, cur: nat)
  {
    (cur + 1) % c.logInterval == 0 && c.isMain
  }

  predicate ShouldSave(c: Config, cur: nat)
  {
    ((cur + 1) % c.saveInterval == 0 || cur == c.maxIter - 1) && c.isMain
  }

  predicate ShouldSample(c: Config, cur: nat)
  {
    (cur + 1) % c.sampleInterval == 0 || cur == c.maxIter - 1
  }

  function CheckpointPath(c: Config, cur: nat): string
  {
    JoinPath(c.projectDir, "checkpoints", CheckpointName(cur, c.maxIter))
  }

  function SamplePath(c: Config, cur: nat): string
  {
    JoinPath(c.projectDir, "generate", SampleName(cur))
  }

  /** store, copy the EMA weights in, evaluate with them, restore (main.py:294-297). */
  function SampleBracket(cur: nat, file: string, emaWeights: Params): seq<Event>
  {
    [StoreParams(cur), CopyEma, Evaluate(file, emaWeights), RestoreParams(cur)]
  }

  function EmaAfter(rt: Runtime, cur: nat, ema: EmaState, model: Params): EmaState
  {
    if rt.sync(cur) then EmaState(rt.emaUpdate(ema, model), ema.steps + 1) else ema
  }

  function FetchEvents(cur: nat, f: Fetched): seq<Event>
    requires f.Fetched?
  {
    (if f.restarted then [RestartLoader(cur)] else []) + [Fetch(cur, f.epoch, f.index)]
  }

  /** Sanitisation and the EMA step only when gradients are synchronised; the optimizer,
      scheduler and zero_grad calls on every iteration (main.py:247-257). */
  function TrainEvents(rt: Runtime, cur: nat): seq<Event>
  {
    (if rt.sync(cur) then [Sanitize(cur)] else []) + [OptimizerStep(cur)] +
    (if rt.sync(cur) then [EmaStep(cur)] else [])
  }

  function LogEvents(c: Config, cur: nat): seq<Event>
  {
    if ShouldLog(c, cur) then [Log(cur + 1)] else []
  }

  function SaveEvents(c: Config, cur: nat): seq<Event>
  {
    if ShouldSave(c, cur) then [SaveCheckpoint(cur, CheckpointPath(c, cur))] else []
  }

  /** The label construction of `evaluate` (main.py:65-68) raises, before its first U-Net
      call; every call of it in a run then raises. This is the only failure of `evaluate`
      the model has: the U-Net, the scheduler and `make_image_grid` are taken never to raise. */
  predicate EvalFails(c: Config)
  {
    Evaluation.EvalLabels(c.eval.batchSize, c.eval.labelDim).Failed?
  }

  /** store, copy the EMA weights in, and the `evaluate` call that raises: `restore` is
      never reached (main.py:294-296). */
  function AbortedBracket(cur: nat, file: string, emaWeights: Params): seq<Event>
  {
    [StoreParams(cur), CopyEma, Evaluate(file, emaWeights)]
  }

  function SampleEvents(c: Config, cur: nat, emaWeights: Params): seq<Event>
  {
    if ShouldSample(c, cur) then SampleBracket(cur, SamplePath(c, cur), emaWeights) else []
  }

  /** What a successful iteration does after its fetch, in order. */
  function IterationTail(c: Config, rt: Runtime, cur: nat, emaWeights: Params): seq<Event>
  {
    TrainEvents(rt, cur) + (LogEvents(c, cur) + (SaveEvents(c, cur) +
      (SampleEvents(c, cur, emaWeights) + [Barrier(cur)])))
  }

  /** What an iteration whose `evaluate` fails on its labels does after its fetch. */
  function AbortedTail(c: Config, rt: Runtime, cur: nat, emaWeights: Params): seq<Event>
  {
    TrainEvents(rt, cur) + (LogEvents(c, cur) + (SaveEvents(c, cur) +
      AbortedBracket(cur, SamplePath(c, cur), emaWeights)))
  }

  function IterStep(c: Config, rt: Runtime, s: TrainState, cur: nat): StepResult
  {
    var f := NextBatch(rt, s.epoch, s.index);
    if f.Exhausted? then StepResult(s, [RestartLoader(cur)], Some(EmptyLoader))
    else
      var s1 := s.(epoch := f.epoch, index := f.index + 1);
      if c.predType != "epsilon" then StepResult(s1, FetchEvents(cur, f), Some(UnsupportedPrediction))
      else
        var out := rt.train(s.model, s.optimizer, s.lrScheduler, f.data, cur, rt.sync(cur));
        var ema := EmaAfter(rt, cur, s.ema, out.model);
        var disk :=
          if ShouldSave(c, cur) then
            s.disk[CheckpointPath(c, cur) := Checkpoint(out.model, out.optimizer, out.lrScheduler, cur, ema)]
          else s.disk;
        var s2 := TrainState(out.model, out.optimizer, out.lrScheduler, ema, f.epoch, f.index + 1, disk);
        if ShouldSample(c, cur) && EvalFails(c) then
          StepResult(s2.(model := ema.shadow), FetchEvents(cur, f) + AbortedTail(c, rt, cur, ema.shadow),
                     Some(EvaluationFailed))
        else StepResult(s2, FetchEvents(cur, f) + IterationTail(c, rt, cur, ema.shadow), None)
  }

  // ---------------------------------------------------------------- the loop and `main`

  /** The loop body as a function of the state and `cur_iter`. */
  type Step = (TrainState, nat) -> StepResult

  function IterationOf(c: Config, rt: Runtime): Step
  {
    (s: TrainState, cur: nat) => IterStep(c, rt, s, cur)
  }

  /** Iterations `lo .. hi - 1` of `step` in increasing order, stopping at the first error. */
  function Loop(step: Step, s: TrainState, lo: nat, hi: int): StepResult
    decreases hi - lo
  {
    if hi <= lo then StepResult(s, [], None)
    else
      var prev := Loop(step, s, lo, hi - 1);
      if prev.error.Some? then prev
      else
        var st := step(prev.state, hi - 1);
        StepResult(st.state, prev.events + st.events, st.error)
  }

  /** `for cur_iter in range(lo, hi)` over the loop body (main.py:223-298). */
  function RunSpec(c: Config, rt: Runtime, s: TrainState, lo: nat, hi: int): StepResult
  {
    Loop(IterationOf(c, rt), s, lo, hi)
  }

  /** `main` from the resume block on (main.py:184-300). */
  function MainSpec(c: Config, rt: Runtime, s: TrainState): StepResult
  {
    match ResumeSpec(c, s)
    case ResumeFailed(e) => StepResult(s, [], Some(e))
    case Resumed(s1, start) =>
      if c.generateOnly then
        StepResult(s1.(model := s1.ema.shadow), [CopyEma, Evaluate(c.saveFileName, s1.ema.shadow)],
                   if EvalFails(c) then Some(EvaluationFailed) else None)
      else RunSpec(c, rt, s1.(epoch := 0, index := 0), start, c.maxIter)
  }

  // ---------------------------------------------------------------- projections of a trace

  /** What the selector `f` sees in one event. */
  function Pick<T>(e: Event, f: Event -> Option<T>): (r: seq<T>)
    ensures |r| <= 1
  {
    if f(e).Some? then [f(e).value] else []
  }

  /** The values `f` extracts from a trace, in order. */
  function Select<T>(ev: seq<Event>, f: Event -> Option<T>): (r: seq<T>)
    ensures |r| <= |ev|
  {
    if ev == [] then [] else Pick(ev[0], f) + Select(ev[1..], f)
  }

  function FetchOf(e: Event): Option<nat> { if e.Fetch? then Some(e.iter) else None }
  function FetchPosOf(e: Event): Option<(nat, nat, nat)> { if e.Fetch? then Some((e.iter, e.epoch, e.index)) else None }
  function SanitizeOf(e: Event): Option<nat> { if e.Sanitize? then Some(e.iter) else None }
  function OptimizerOf(e: Event): Option<nat> { if e.OptimizerStep? then Some(e.iter) else None }
  function EmaOf(e: Event): Option<nat> { if e.EmaStep? then Some(e.iter) else None }
  function LogOf(e: Event): Option<nat> { if e.Log? then Some(e.step) else None }
  function SaveOf(e: Event): Option<(nat, string)> { if e.SaveCheckpoint? then Some((e.iter, e.path)) else None }
  function EvaluateOf(e: Event): Option<string> { if e.Evaluate? then Some(e.file) else None }
  function RestoreOf(e: Event): Option<nat> { if e.RestoreParams? then Some(e.iter) else None }

  // ---------------------------------------------------------------- reference schedules

  /** `g(lo) + g(lo + 1) + ... + g(hi - 1)`. */
  function Gather<T>(g: nat -> seq<T>, lo: nat, hi: int): seq<T>
    decreases hi - lo
  {
    if hi <= lo then [] else Gather(g, lo, hi - 1) + g(hi - 1)
  }

  function Only(i: nat): seq<nat> { [i] }

  /** `lo, lo + 1, ..., hi - 1`. */
  function Range(lo: nat, hi: int): seq<nat>
  {
    Gather(Only, lo, hi)
  }

  function Chosen(p: nat -> bool): nat -> seq<nat>
  {
    (i: nat) => if p(i) then [i] else []
  }

  /** The iterations `i` of `lo .. hi - 1` with `p(i)`, in increasing order. */
  function Where(lo: nat, hi: int, p: nat -> bool): seq<nat>
  {
    Gather(Chosen(p), lo, hi)
  }

  function LogAt(c: Config): nat -> seq<nat>
  {
    (i: nat) => if ShouldLog(c, i) then [i + 1] else []
  }

  /** The steps logged by iterations `lo .. hi - 1`. */
  function LoggedSteps(c: Config, lo: nat, hi: int): seq<nat>
  {
    Gather(LogAt(c), lo, hi)
  }

  function SaveAt(c: Config): nat -> seq<(nat, string)>
  {
    (i: nat) => if ShouldSave(c, i) then [(i, CheckpointPath(c, i))] else []
  }

  /** The checkpoints iterations `lo .. hi - 1` write, with their paths. */
  function SavedCheckpoints(c: Config, lo: nat, hi: int): seq<(nat, string)>
  {
    Gather(SaveAt(c), lo, hi)
  }

  function SampleAt(c: Config): nat -> seq<string>
  {
    (i: nat) => if ShouldSample(c, i) then [SamplePath(c, i)] else []
  }

  /** The sample grids iterations `lo .. hi - 1` write. */
  function SampledFiles(c: Config, lo: nat, hi: int): seq<string>
  {
    Gather(SampleAt(c), lo, hi)
  }

  function ReadAt(n: nat, lo: nat): nat -> seq<(nat, nat, nat)>
    requires n > 0
  {
    (i: nat) => if i >= lo then [(i, (i - lo) / n, (i - lo) % n)] else []
  }

  /** Iteration `i` of a run started at `lo` on a fresh iterator over `n` batches reads
      batch `(i - lo) % n` of pass `(i - lo) / n`. */
  function CyclicReads(n: nat, lo: nat, hi: int): seq<(nat, nat, nat)>
    requires n > 0
  {
    Gather(ReadAt(n, lo), lo, hi)
  }
}
