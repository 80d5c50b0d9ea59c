/** The training driver of main.py as an object whose fields the loop updates in place:
    the live parameters, optimizer and scheduler state, the EMA tracker with its stored
    copy of the live parameters, the data iterator, the checkpoint files and the trace of
    side effects. Each method is proved to do what the corresponding function of MainLoop
    specifies. */
module Trainer {
  import opened Names
  import opened MainLoop
  import LoopProperties
  import Evaluation

  class Trainer {
    var model: Params
    var optimizer: OptState
    var lrScheduler: SchedState
    var ema: EmaState
    /** `EMAModel.collected_params`: what `store` saved and `restore` puts back. */
    var collected: Params
    /** The data iterator: pass `epoch`, next batch `index`. */
    var epoch: nat
    var index: nat
    var disk: map<string, Checkpoint>
    var trace: seq<Event>

    function State(): TrainState
      reads this
    {
      TrainState(model, optimizer, lrScheduler, ema, epoch, index, disk)
    }

    /** A freshly built model, optimizer and scheduler; the EMA tracker starts from a copy of
        the model with no steps taken (main.py:153-159). */
    constructor(model0: Params, optimizer0: OptState, lrScheduler0: SchedState, disk0: map<string, Checkpoint>)
      ensures State() == TrainState(model0, optimizer0, lrScheduler0, EmaState(model0, 0), 0, 0, disk0)
      ensures trace == []
    {
      model, optimizer, lrScheduler := model0, optimizer0, lrScheduler0;
      ema := EmaState(model0, 0);
      collected := [];
      epoch, index := 0, 0;
      disk := disk0;
      trace := [];
    }

    /** The resume block (main.py:184-199). */
    method Resume(c: Config) returns (start: nat, err: Option<Error>)
      modifies this
      ensures var r := ResumeSpec(c, old(State()));
        && (r.ResumeFailed? ==> err == Some(r.error) && State() == old(State()))
        && (r.Resumed? ==> err.None? && State() == r.state && start == r.startIter)
      ensures trace == old(trace)
    {
      start, err := 0, None;
      if c.resume.Some? {
        var path := c.resume.value;
        if path !in disk {
          err := Some(ResumeNotFound);
          return;
        }
        var ck := disk[path];
        ema := ck.emaStateDict;
        if !c.generateOnly {
          model := ck.stateDict;
          optimizer := ck.optimizer;
          lrScheduler := ck.lrScheduler;
          start := ck.iter + 1;
        }
      }
    }

    /** `next(loader)`, recreating the iterator once on `StopIteration` (main.py:226-230). */
    method Next(rt: Runtime, cur: nat) returns (data: BatchData, ok: bool)
      modifies this
      ensures var f := NextBatch(rt, old(epoch), old(index));
        && (ok <==> f.Fetched?)
        && (ok ==> data == f.data && epoch == f.epoch && index == f.index + 1 &&
                   trace == old(trace) + FetchEvents(cur, f))
        && (!ok ==> epoch == old(epoch) && index == old(index) && trace == old(trace) + [RestartLoader(cur)])
      ensures model == old(model) && optimizer == old(optimizer) && lrScheduler == old(lrScheduler)
      ensures ema == old(ema) && disk == old(disk)
    {
      if index >= rt.loaderLen {
        trace := trace + [RestartLoader(cur)];
        if rt.loaderLen == 0 {
          return [], false;
        }
        epoch, index := epoch + 1, 0;
      }
      data := rt.batch(epoch, index);
      trace := trace + [Fetch(cur, epoch, index)];
      index := index + 1;
      ok := true;
    }

    /** store, copy_to, evaluate, restore (main.py:292-297): the evaluation sees the EMA
        weights, and the live parameters come back unchanged unless `evaluate` fails on its labels, which
        skips the restore and leaves the EMA weights in the model. */
    method SampleWithEma(c: Config, cur: nat, file: string) returns (ok: bool)
      modifies this
      ensures ok <==> !EvalFails(c)
      ensures collected == old(model)
      ensures ok ==> model == old(model) && trace == old(trace) + SampleBracket(cur, file, ema.shadow)
      ensures !ok ==> model == ema.shadow && trace == old(trace) + AbortedBracket(cur, file, ema.shadow)
      ensures ema == old(ema) && optimizer == old(optimizer) && lrScheduler == old(lrScheduler)
      ensures epoch == old(epoch) && index == old(index) && disk == old(disk)
    {
      collected := model;
      trace := trace + [StoreParams(cur)];
      model := ema.shadow;
      trace := trace + [CopyEma];
      trace := trace + [Evaluate(file, model)];
      var labels := Evaluation.EvalLabels(c.eval.batchSize, c.eval.labelDim);
      if labels.Failed? {
        return false;
      }
      model := collected;
      trace := trace + [RestoreParams(cur)];
      ok := true;
    }

    /** Loss, backward, gradient sanitisation when gradients are synchronised, the
        optimizer and scheduler step, then the EMA step when synchronised (main.py:239-257). */
    method TrainOn(rt: Runtime, cur: nat, data: BatchData)
      modifies this
      ensures var out := rt.train(old(model), old(optimizer), old(lrScheduler), data, cur, rt.sync(cur));
        && model == out.model && optimizer == out.optimizer && lrScheduler == out.lrScheduler
        && ema == EmaAfter(rt, cur, old(ema), out.model)
      ensures trace == old(trace) + TrainEvents(rt, cur)
      ensures epoch == old(epoch) && index == old(index) && disk == old(disk)
    {
      var sync := rt.sync(cur);
      var out := rt.train(model, optimizer, lrScheduler, data, cur, sync);
      if sync {
        trace := trace + [Sanitize(cur)];
      }
      model, optimizer, lrScheduler := out.model, out.optimizer, out.lrScheduler;
      trace := trace + [OptimizerStep(cur)];
      if sync {
        ema := EmaState(rt.emaUpdate(ema, model), ema.steps + 1);
        trace := trace + [EmaStep(cur)];
      }
    }

    /** Sampling on its schedule, then the barrier (main.py:291-298); a sampling `evaluate`
        that raises ends the iteration before the restore and the barrier. */
    method SampleAndWait(c: Config, cur: nat) returns (err: Option<Error>)
      modifies this
      ensures var aborted := ShouldSample(c, cur) && EvalFails(c);
        && err == (if aborted then Some(EvaluationFailed) else None)
        && model == (if aborted then ema.shadow else old(model))
        && trace == old(trace) + (if aborted then AbortedBracket(cur, SamplePath(c, cur), ema.shadow)
                                  else SampleEvents(c, cur, ema.shadow) + [Barrier(cur)])
      ensures optimizer == old(optimizer) && lrScheduler == old(lrScheduler)
      ensures ema == old(ema) && epoch == old(epoch) && index == old(index) && disk == old(disk)
    {
      ghost var t0 := trace;
      if ShouldSample(c, cur) {
        var file := JoinPath(c.projectDir, "generate", SampleName(cur));
        var ok := SampleWithEma(c, cur, file);
        if !ok {
          return Some(EvaluationFailed);
        }
      }
      ghost var t1 := trace;
      trace := trace + [Barrier(cur)];
      assert t1 == t0 + SampleEvents(c, cur, ema.shadow);
      err := None;
    }

    /** Logging and checkpointing on their schedules, then sampling and the barrier
        (main.py:262-298). */
    method Report(c: Config, cur: nat) returns (err: Option<Error>)
      modifies this
      ensures disk == if ShouldSave(c, cur)
        then old(disk)[CheckpointPath(c, cur) := Checkpoint(old(model), optimizer, lrScheduler, cur, ema)]
        else old(disk)
      ensures var aborted := ShouldSample(c, cur) && EvalFails(c);
        && err == (if aborted then Some(EvaluationFailed) else None)
        && model == (if aborted then ema.shadow else old(model))
        && trace == old(trace) + (LogEvents(c, cur) + (SaveEvents(c, cur) +
             (if aborted then AbortedBracket(cur, SamplePath(c, cur), ema.shadow)
              else SampleEvents(c, cur, ema.shadow) + [Barrier(cur)])))
      ensures optimizer == old(optimizer) && lrScheduler == old(lrScheduler)
      ensures ema == old(ema) && epoch == old(epoch) && index == old(index)
    {
      ghost var t0 := trace;
      if ShouldLog(c, cur) {
        trace := trace + [Log(cur + 1)];
      }
      ghost var t1 := trace;
      if ShouldSave(c, cur) {
        var path := JoinPath(c.projectDir, "checkpoints", CheckpointName(cur, c.maxIter));
        disk := disk[path := Checkpoint(model, optimizer, lrScheduler, cur, ema)];
        trace := trace + [SaveCheckpoint(cur, path)];
      }
      ghost var t2 := trace;
      assert t1 == t0 + LogEvents(c, cur);
      assert t2 == t1 + SaveEvents(c, cur);
      err := SampleAndWait(c, cur);
      ghost var tail := trace[|t2|..];
      assert trace == t2 + tail;
      LoopProperties.AppendAssoc(t0, LogEvents(c, cur), SaveEvents(c, cur));
      LoopProperties.AppendAssoc(t0 + LogEvents(c, cur), SaveEvents(c, cur), tail);
      LoopProperties.AppendAssoc(LogEvents(c, cur), SaveEvents(c, cur), tail);
      LoopProperties.AppendAssoc(t0, LogEvents(c, cur), SaveEvents(c, cur) + tail);
    }

    /** One pass of the loop body (main.py:224-298). */
    method Iteration(c: Config, rt: Runtime, cur: nat) returns (err: Option<Error>)
      modifies this
      ensures var r := IterStep(c, rt, old(State()), cur);
        State() == r.state && trace == old(trace) + r.events && err == r.error
    {
      ghost var s := State();
      ghost var t0 := trace;
      ghost var f := NextBatch(rt, s.epoch, s.index);
      var data, ok := Next(rt, cur);
      if !ok {
        return Some(EmptyLoader);
      }
      ghost var t1 := trace;
      if c.predType != "epsilon" {
        return Some(UnsupportedPrediction);
      }
      TrainOn(rt, cur, data);
      ghost var t2 := trace;
      err := Report(c, cur);
      if err.Some? {
        LoopProperties.AppendAssoc(t1, TrainEvents(rt, cur),
          LogEvents(c, cur) + (SaveEvents(c, cur) + AbortedBracket(cur, SamplePath(c, cur), ema.shadow)));
        LoopProperties.AppendAssoc(t0, FetchEvents(cur, f), AbortedTail(c, rt, cur, ema.shadow));
      } else {
        LoopProperties.AppendAssoc(t1, TrainEvents(rt, cur),
          LogEvents(c, cur) + (SaveEvents(c, cur) + (SampleEvents(c, cur, ema.shadow) + [Barrier(cur)])));
        LoopProperties.AppendAssoc(t0, FetchEvents(cur, f), IterationTail(c, rt, cur, ema.shadow));
      }
    }

    /** `for cur_iter in range(start_iter, max_iter)` on a fresh data iterator
        (main.py:221-298). */
    method Train(c: Config, rt: Runtime, start: nat) returns (err: Option<Error>)
      modifies this
      ensures var r := RunSpec(c, rt, old(State()).(epoch := 0, index := 0), start, c.maxIter);
        State() == r.state && trace == old(trace) + r.events && err == r.error
    {
      epoch, index := 0, 0;
      ghost var s0 := State();
      assert s0 == old(State()).(epoch := 0, index := 0);
      ghost var t0 := trace;
      assert t0 == old(trace);
      var cur := start;
      err := None;
      ghost var r := RunSpec(c, rt, s0, start, cur);
      while cur < c.maxIter
        invariant start <= cur && (cur == start || cur <= c.maxIter) && err.None?
        invariant r == RunSpec(c, rt, s0, start, cur) && r.error.None?
        invariant State() == r.state && trace == t0 + r.events
        decreases c.maxIter - cur
      {
        LoopProperties.RunExtend(c, rt, s0, start, cur);
        ghost var st := IterStep(c, rt, r.state, cur);
        err := Iteration(c, rt, cur);
        LoopProperties.AppendAssoc(t0, r.events, st.events);
        r := StepResult(st.state, r.events + st.events, st.error);
        if err.Some? {
          LoopProperties.RunStopsAtError(c, rt, s0, start, cur + 1, c.maxIter);
          assert r == RunSpec(c, rt, s0, start, c.maxIter);
          return;
        }
        cur := cur + 1;
      }
      assert r == RunSpec(c, rt, s0, start, c.maxIter);
    }

    /** `main` from the resume block on (main.py:184-298). */
    method Run(c: Config, rt: Runtime) returns (err: Option<Error>)
      modifies this
      ensures var r := MainSpec(c, rt, old(State()));
        State() == r.state && trace == old(trace) + r.events && err == r.error
    {
      ghost var res := ResumeSpec(c, State());
      var start;
      start, err := Resume(c);
      if err.Some? {
        return;
      }
      if c.generateOnly {
        model := ema.shadow;
        trace := trace + [CopyEma, Evaluate(c.saveFileName, model)];
        if EvalFails(c) {
          err := Some(EvaluationFailed);
        }
        return;
      }
      err := Train(c, rt, start);
    }
  }
}
