/** Properties of the training loop of main.py, proved about the functions of MainLoop:
    what one iteration does, the schedule of a whole run, its failure paths, the cyclic
    data iterator, and resuming from a checkpoint. */
module LoopProperties {
  import opened Names
  import opened MainLoop

  // ---------------------------------------------------------------- traces

  lemma {:induction false} SelectAppend<T>(a: seq<Event>, b: seq<Event>, f: Event -> Option<T>)
    ensures Select(a + b, f) == Select(a, f) + Select(b, f)
  {
    if a == [] {
      assert a + b == b;
    } else {
      assert (a + b)[0] == a[0];
      assert (a + b)[1..] == a[1..] + b;
      SelectAppend(a[1..], b, f);
      AppendAssocOf(Pick(a[0], f), Select(a[1..], f), Select(b, f));
    }
  }

  lemma AppendAssoc(a: seq<Event>, b: seq<Event>, c: seq<Event>)
    ensures (a + b) + c == a + (b + c)
  {
  }

  lemma AppendAssocOf<T>(a: seq<T>, b: seq<T>, c: seq<T>)
    ensures (a + b) + c == a + (b + c)
  {
  }

  lemma SelectSingle<T>(e: Event, f: Event -> Option<T>)
    ensures Select([e], f) == Pick(e, f)
  {
    assert [e][1..] == [];
  }

  lemma SelectPair<T>(a: Event, b: Event, f: Event -> Option<T>)
    ensures Select([a, b], f) == Pick(a, f) + Pick(b, f)
  {
    assert [a, b] == [a] + [b];
    SelectAppend([a], [b], f);
    SelectSingle(a, f);
    SelectSingle(b, f);
  }

  lemma SelectBracket<T>(cur: nat, file: string, w: Params, f: Event -> Option<T>)
    ensures Select(SampleBracket(cur, file, w), f) ==
      Pick(StoreParams(cur), f) + (Pick(CopyEma, f) + (Pick(Evaluate(file, w), f) + Pick(RestoreParams(cur), f)))
  {
    assert SampleBracket(cur, file, w) == [StoreParams(cur), CopyEma] + [Evaluate(file, w), RestoreParams(cur)];
    SelectAppend([StoreParams(cur), CopyEma], [Evaluate(file, w), RestoreParams(cur)], f);
    SelectPair(StoreParams(cur), CopyEma, f);
    SelectPair(Evaluate(file, w), RestoreParams(cur), f);
    AppendAssocOf(Pick(StoreParams(cur), f), Pick(CopyEma, f), Pick(Evaluate(file, w), f) + Pick(RestoreParams(cur), f));
  }

  /** Select distributes over the parts of an iteration's trace. */
  lemma SelectIteration<T>(c: Config, rt: Runtime, cur: nat, fe: seq<Event>, w: Params, f: Event -> Option<T>)
    ensures Select(fe + IterationTail(c, rt, cur, w), f) ==
      Select(fe, f) + (Select(TrainEvents(rt, cur), f) + (Select(LogEvents(c, cur), f) +
      (Select(SaveEvents(c, cur), f) + (Select(SampleEvents(c, cur, w), f) + Select([Barrier(cur)], f)))))
  {
    var tr, lg, sv, sm := TrainEvents(rt, cur), LogEvents(c, cur), SaveEvents(c, cur), SampleEvents(c, cur, w);
    var t4 := sm + [Barrier(cur)];
    var t3 := sv + t4;
    var t2 := lg + t3;
    var t1 := tr + t2;
    assert IterationTail(c, rt, cur, w) == t1;
    SelectAppend(fe, t1, f);
    SelectAppend(tr, t2, f);
    SelectAppend(lg, t3, f);
    SelectAppend(sv, t4, f);
    SelectAppend(sm, [Barrier(cur)], f);
  }

  lemma SelectTrain<T>(rt: Runtime, cur: nat, f: Event -> Option<T>)
    ensures Select(TrainEvents(rt, cur), f) ==
      (if rt.sync(cur) then Pick(Sanitize(cur), f) + (Pick(OptimizerStep(cur), f) + Pick(EmaStep(cur), f))
       else Pick(OptimizerStep(cur), f))
  {
    if rt.sync(cur) {
      assert TrainEvents(rt, cur) == [Sanitize(cur)] + [OptimizerStep(cur), EmaStep(cur)];
      SelectAppend([Sanitize(cur)], [OptimizerStep(cur), EmaStep(cur)], f);
      SelectSingle(Sanitize(cur), f);
      SelectPair(OptimizerStep(cur), EmaStep(cur), f);
    } else {
      assert TrainEvents(rt, cur) == [OptimizerStep(cur)];
      SelectSingle(OptimizerStep(cur), f);
    }
  }

  lemma SelectFetch<T>(cur: nat, fb: Fetched, f: Event -> Option<T>)
    requires fb.Fetched?
    ensures Select(FetchEvents(cur, fb), f) ==
      (if fb.restarted then Pick(RestartLoader(cur), f) + Pick(Fetch(cur, fb.epoch, fb.index), f)
       else Pick(Fetch(cur, fb.epoch, fb.index), f))
  {
    if fb.restarted {
      assert FetchEvents(cur, fb) == [RestartLoader(cur), Fetch(cur, fb.epoch, fb.index)];
      SelectPair(RestartLoader(cur), Fetch(cur, fb.epoch, fb.index), f);
    } else {
      assert FetchEvents(cur, fb) == [Fetch(cur, fb.epoch, fb.index)];
      SelectSingle(Fetch(cur, fb.epoch, fb.index), f);
    }
  }

  lemma SelectOptional<T>(b: bool, e: Event, f: Event -> Option<T>)
    ensures Select(if b then [e] else [], f) == if b then Pick(e, f) else []
  {
    SelectSingle(e, f);
  }

  lemma SelectSamples<T>(c: Config, cur: nat, w: Params, f: Event -> Option<T>)
    ensures Select(SampleEvents(c, cur, w), f) == if ShouldSample(c, cur) then
      Pick(StoreParams(cur), f) + (Pick(CopyEma, f) + (Pick(Evaluate(SamplePath(c, cur), w), f) + Pick(RestoreParams(cur), f)))
      else []
  {
    SelectBracket(cur, SamplePath(c, cur), w, f);
  }

  // ---------------------------------------------------------------- one iteration

  /** The trace of one iteration after a successful fetch, projected by any selector,
      part by part. */
  lemma TraceSelect<T>(c: Config, rt: Runtime, cur: nat, fb: Fetched, w: Params, f: Event -> Option<T>)
    requires fb.Fetched?
    ensures Select(FetchEvents(cur, fb) + IterationTail(c, rt, cur, w), f) ==
      (if fb.restarted then Pick(RestartLoader(cur), f) + Pick(Fetch(cur, fb.epoch, fb.index), f)
       else Pick(Fetch(cur, fb.epoch, fb.index), f)) +
      ((if rt.sync(cur) then Pick(Sanitize(cur), f) + (Pick(OptimizerStep(cur), f) + Pick(EmaStep(cur), f))
        else Pick(OptimizerStep(cur), f)) +
      ((if ShouldLog(c, cur) then Pick(Log(cur + 1), f) else []) +
      ((if ShouldSave(c, cur) then Pick(SaveCheckpoint(cur, CheckpointPath(c, cur)), f) else []) +
      ((if ShouldSample(c, cur) then
          Pick(StoreParams(cur), f) + (Pick(CopyEma, f) + (Pick(Evaluate(SamplePath(c, cur), w), f) + Pick(RestoreParams(cur), f)))
        else []) +
       Pick(Barrier(cur), f)))))
  {
    SelectIteration(c, rt, cur, FetchEvents(cur, fb), w, f);
    SelectFetch(cur, fb, f);
    SelectTrain(rt, cur, f);
    SelectOptional(ShouldLog(c, cur), Log(cur + 1), f);
    SelectOptional(ShouldSave(c, cur), SaveCheckpoint(cur, CheckpointPath(c, cur)), f);
    SelectSamples(c, cur, w, f);
    SelectSingle(Barrier(cur), f);
  }

  lemma TraceFetches(c: Config, rt: Runtime, cur: nat, fb: Fetched, w: Params)
    requires fb.Fetched?
    ensures Select(FetchEvents(cur, fb) + IterationTail(c, rt, cur, w), FetchOf) == [cur]
  {
    assert Pick(RestartLoader(cur), FetchOf) == [];
    assert Pick(Fetch(cur, fb.epoch, fb.index), FetchOf) == [cur];
    assert Pick(Sanitize(cur), FetchOf) == [];
    assert Pick(OptimizerStep(cur), FetchOf) == [];
    assert Pick(EmaStep(cur), FetchOf) == [];
    assert Pick(Log(cur + 1), FetchOf) == [];
    assert Pick(SaveCheckpoint(cur, CheckpointPath(c, cur)), FetchOf) == [];
    assert Pick(StoreParams(cur), FetchOf) == [];
    assert Pick(CopyEma, FetchOf) == [];
    assert Pick(Evaluate(SamplePath(c, cur), w), FetchOf) == [];
    assert Pick(RestoreParams(cur), FetchOf) == [];
    assert Pick(Barrier(cur), FetchOf) == [];
    TraceSelect(c, rt, cur, fb, w, FetchOf);
  }

  lemma TraceOptimizes(c: Config, rt: Runtime, cur: nat, fb: Fetched, w: Params)
    requires fb.Fetched?
    ensures Select(FetchEvents(cur, fb) + IterationTail(c, rt, cur, w), OptimizerOf) == [cur]
  {
    assert Pick(RestartLoader(cur), OptimizerOf) == [];
    assert Pick(Fetch(cur, fb.epoch, fb.index), OptimizerOf) == [];
    assert Pick(Sanitize(cur), OptimizerOf) == [];
    assert Pick(OptimizerStep(cur), OptimizerOf) == [cur];
    assert Pick(EmaStep(cur), OptimizerOf) == [];
    assert Pick(Log(cur + 1), OptimizerOf) == [];
    assert Pick(SaveCheckpoint(cur, CheckpointPath(c, cur)), OptimizerOf) == [];
    assert Pick(StoreParams(cur), OptimizerOf) == [];
    assert Pick(CopyEma, OptimizerOf) == [];
    assert Pick(Evaluate(SamplePath(c, cur), w), OptimizerOf) == [];
    assert Pick(RestoreParams(cur), OptimizerOf) == [];
    assert Pick(Barrier(cur), OptimizerOf) == [];
    TraceSelect(c, rt, cur, fb, w, OptimizerOf);
  }

  lemma TraceSanitizes(c: Config, rt: Runtime, cur: nat, fb: Fetched, w: Params)
    requires fb.Fetched?
    ensures Select(FetchEvents(cur, fb) + IterationTail(c, rt, cur, w), SanitizeOf) == (if rt.sync(cur) then [cur] else [])
  {
    assert Pick(RestartLoader(cur), SanitizeOf) == [];
    assert Pick(Fetch(cur, fb.epoch, fb.index), SanitizeOf) == [];
    assert Pick(Sanitize(cur), SanitizeOf) == [cur];
    assert Pick(OptimizerStep(cur), SanitizeOf) == [];
    assert Pick(EmaStep(cur), SanitizeOf) == [];
    assert Pick(Log(cur + 1), SanitizeOf) == [];
    assert Pick(SaveCheckpoint(cur, CheckpointPath(c, cur)), SanitizeOf) == [];
    assert Pick(StoreParams(cur), SanitizeOf) == [];
    assert Pick(CopyEma, SanitizeOf) == [];
    assert Pick(Evaluate(SamplePath(c, cur), w), SanitizeOf) == [];
    assert Pick(RestoreParams(cur), SanitizeOf) == [];
    assert Pick(Barrier(cur), SanitizeOf) == [];
    TraceSelect(c, rt, cur, fb, w, SanitizeOf);
  }

  lemma TraceEmaSteps(c: Config, rt: Runtime, cur: nat, fb: Fetched, w: Params)
    requires fb.Fetched?
    ensures Select(FetchEvents(cur, fb) + IterationTail(c, rt, cur, w), EmaOf) == (if rt.sync(cur) then [cur] else [])
  {
    assert Pick(RestartLoader(cur), EmaOf) == [];
    assert Pick(Fetch(cur, fb.epoch, fb.index), EmaOf) == [];
    assert Pick(Sanitize(cur), EmaOf) == [];
    assert Pick(OptimizerStep(cur), EmaOf) == [];
    assert Pick(EmaStep(cur), EmaOf) == [cur];
    assert Pick(Log(cur + 1), EmaOf) == [];
    assert Pick(SaveCheckpoint(cur, CheckpointPath(c, cur)), EmaOf) == [];
    assert Pick(StoreParams(cur), EmaOf) == [];
    assert Pick(CopyEma, EmaOf) == [];
    assert Pick(Evaluate(SamplePath(c, cur), w), EmaOf) == [];
    assert Pick(RestoreParams(cur), EmaOf) == [];
    assert Pick(Barrier(cur), EmaOf) == [];
    TraceSelect(c, rt, cur, fb, w, EmaOf);
  }

  lemma TraceLogs(c: Config, rt: Runtime, cur: nat, fb: Fetched, w: Params)
    requires fb.Fetched?
    ensures Select(FetchEvents(cur, fb) + IterationTail(c, rt, cur, w), LogOf) == (if ShouldLog(c, cur) then [cur + 1] else [])
  {
    assert Pick(RestartLoader(cur), LogOf) == [];
    assert Pick(Fetch(cur, fb.epoch, fb.index), LogOf) == [];
    assert Pick(Sanitize(cur), LogOf) == [];
    assert Pick(OptimizerStep(cur), LogOf) == [];
    assert Pick(EmaStep(cur), LogOf) == [];
    assert Pick(Log(cur + 1), LogOf) == [cur + 1];
    assert Pick(SaveCheckpoint(cur, CheckpointPath(c, cur)), LogOf) == [];
    assert Pick(StoreParams(cur), LogOf) == [];
    assert Pick(CopyEma, LogOf) == [];
    assert Pick(Evaluate(SamplePath(c, cur), w), LogOf) == [];
    assert Pick(RestoreParams(cur), LogOf) == [];
    assert Pick(Barrier(cur), LogOf) == [];
    TraceSelect(c, rt, cur, fb, w, LogOf);
  }

  lemma TraceSaves(c: Config, rt: Runtime, cur: nat, fb: Fetched, w: Params)
    requires fb.Fetched?
    ensures Select(FetchEvents(cur, fb) + IterationTail(c, rt, cur, w), SaveOf) == (if ShouldSave(c, cur) then [(cur, CheckpointPath(c, cur))] else [])
  {
    assert Pick(RestartLoader(cur), SaveOf) == [];
    assert Pick(Fetch(cur, fb.epoch, fb.index), SaveOf) == [];
    assert Pick(Sanitize(cur), SaveOf) == [];
    assert Pick(OptimizerStep(cur), SaveOf) == [];
    assert Pick(EmaStep(cur), SaveOf) == [];
    assert Pick(Log(cur + 1), SaveOf) == [];
    assert Pick(SaveCheckpoint(cur, CheckpointPath(c, cur)), SaveOf) == [(cur, CheckpointPath(c, cur))];
    assert Pick(StoreParams(cur), SaveOf) == [];
    assert Pick(CopyEma, SaveOf) == [];
    assert Pick(Evaluate(SamplePath(c, cur), w), SaveOf) == [];
    assert Pick(RestoreParams(cur), SaveOf) == [];
    assert Pick(Barrier(cur), SaveOf) == [];
    TraceSelect(c, rt, cur, fb, w, SaveOf);
  }

  lemma TraceSamples(c: Config, rt: Runtime, cur: nat, fb: Fetched, w: Params)
    requires fb.Fetched?
    ensures Select(FetchEvents(cur, fb) + IterationTail(c, rt, cur, w), EvaluateOf) == (if ShouldSample(c, cur) then [SamplePath(c, cur)] else [])
  {
    assert Pick(RestartLoader(cur), EvaluateOf) == [];
    assert Pick(Fetch(cur, fb.epoch, fb.index), EvaluateOf) == [];
    assert Pick(Sanitize(cur), EvaluateOf) == [];
    assert Pick(OptimizerStep(cur), EvaluateOf) == [];
    assert Pick(EmaStep(cur), EvaluateOf) == [];
    assert Pick(Log(cur + 1), EvaluateOf) == [];
    assert Pick(SaveCheckpoint(cur, CheckpointPath(c, cur)), EvaluateOf) == [];
    assert Pick(StoreParams(cur), EvaluateOf) == [];
    assert Pick(CopyEma, EvaluateOf) == [];
    assert Pick(Evaluate(SamplePath(c, cur), w), EvaluateOf) == [SamplePath(c, cur)];
    assert Pick(RestoreParams(cur), EvaluateOf) == [];
    assert Pick(Barrier(cur), EvaluateOf) == [];
    TraceSelect(c, rt, cur, fb, w, EvaluateOf);
  }

  lemma TraceRestores(c: Config, rt: Runtime, cur: nat, fb: Fetched, w: Params)
    requires fb.Fetched?
    ensures Select(FetchEvents(cur, fb) + IterationTail(c, rt, cur, w), RestoreOf) == (if ShouldSample(c, cur) then [cur] else [])
  {
    assert Pick(RestartLoader(cur), RestoreOf) == [];
    assert Pick(Fetch(cur, fb.epoch, fb.index), RestoreOf) == [];
    assert Pick(Sanitize(cur), RestoreOf) == [];
    assert Pick(OptimizerStep(cur), RestoreOf) == [];
    assert Pick(EmaStep(cur), RestoreOf) == [];
    assert Pick(Log(cur + 1), RestoreOf) == [];
    assert Pick(SaveCheckpoint(cur, CheckpointPath(c, cur)), RestoreOf) == [];
    assert Pick(StoreParams(cur), RestoreOf) == [];
    assert Pick(CopyEma, RestoreOf) == [];
    assert Pick(Evaluate(SamplePath(c, cur), w), RestoreOf) == [];
    assert Pick(RestoreParams(cur), RestoreOf) == [cur];
    assert Pick(Barrier(cur), RestoreOf) == [];
    TraceSelect(c, rt, cur, fb, w, RestoreOf);
  }

  /** A successful iteration fetched a batch and its trace is the fetch followed by the
      iteration's events; the iterator then points just past the batch read. */
  lemma IterStepShape(c: Config, rt: Runtime, s: TrainState, cur: nat)
    requires IterStep(c, rt, s, cur).error.None?
    ensures var st := IterStep(c, rt, s, cur);
      var fb := NextBatch(rt, s.epoch, s.index);
      && fb.Fetched?
      && st.events == FetchEvents(cur, fb) + IterationTail(c, rt, cur, st.state.ema.shadow)
      && st.state.epoch == fb.epoch && st.state.index == fb.index + 1
      && st.state.ema == EmaAfter(rt, cur, s.ema, st.state.model)
  {
  }

  lemma IterStepFetches(c: Config, rt: Runtime, s: TrainState, cur: nat)
    requires IterStep(c, rt, s, cur).error.None?
    ensures Select(IterStep(c, rt, s, cur).events, FetchOf) == [cur]
  {
    IterStepShape(c, rt, s, cur);
    TraceFetches(c, rt, cur, NextBatch(rt, s.epoch, s.index), IterStep(c, rt, s, cur).state.ema.shadow);
  }

  lemma IterStepOptimizes(c: Config, rt: Runtime, s: TrainState, cur: nat)
    requires IterStep(c, rt, s, cur).error.None?
    ensures Select(IterStep(c, rt, s, cur).events, OptimizerOf) == [cur]
  {
    IterStepShape(c, rt, s, cur);
    TraceOptimizes(c, rt, cur, NextBatch(rt, s.epoch, s.index), IterStep(c, rt, s, cur).state.ema.shadow);
  }

  lemma IterStepSanitizes(c: Config, rt: Runtime, s: TrainState, cur: nat)
    requires IterStep(c, rt, s, cur).error.None?
    ensures Select(IterStep(c, rt, s, cur).events, SanitizeOf) == (if rt.sync(cur) then [cur] else [])
  {
    IterStepShape(c, rt, s, cur);
    TraceSanitizes(c, rt, cur, NextBatch(rt, s.epoch, s.index), IterStep(c, rt, s, cur).state.ema.shadow);
  }

  lemma IterStepEmaSteps(c: Config, rt: Runtime, s: TrainState, cur: nat)
    requires IterStep(c, rt, s, cur).error.None?
    ensures Select(IterStep(c, rt, s, cur).events, EmaOf) == (if rt.sync(cur) then [cur] else [])
  {
    IterStepShape(c, rt, s, cur);
    TraceEmaSteps(c, rt, cur, NextBatch(rt, s.epoch, s.index), IterStep(c, rt, s, cur).state.ema.shadow);
  }

  /** A successful iteration logs exactly when `(cur + 1) % LOG_INTERVAL == 0` on the main
      process, at step `cur + 1`. */
  lemma IterStepLogs(c: Config, rt: Runtime, s: TrainState, cur: nat)
    requires IterStep(c, rt, s, cur).error.None?
    ensures Select(IterStep(c, rt, s, cur).events, LogOf) == (if ShouldLog(c, cur) then [cur + 1] else [])
  {
    IterStepShape(c, rt, s, cur);
    TraceLogs(c, rt, cur, NextBatch(rt, s.epoch, s.index), IterStep(c, rt, s, cur).state.ema.shadow);
  }

  /** A successful iteration writes one checkpoint exactly on its save schedule, under the
      source's file name. */
  lemma IterStepSaves(c: Config, rt: Runtime, s: TrainState, cur: nat)
    requires IterStep(c, rt, s, cur).error.None?
    ensures Select(IterStep(c, rt, s, cur).events, SaveOf) == (if ShouldSave(c, cur) then [(cur, CheckpointPath(c, cur))] else [])
  {
    IterStepShape(c, rt, s, cur);
    TraceSaves(c, rt, cur, NextBatch(rt, s.epoch, s.index), IterStep(c, rt, s, cur).state.ema.shadow);
  }

  /** A successful iteration evaluates once exactly on its sample schedule, into the
      source's file name. */
  lemma IterStepSamples(c: Config, rt: Runtime, s: TrainState, cur: nat)
    requires IterStep(c, rt, s, cur).error.None?
    ensures Select(IterStep(c, rt, s, cur).events, EvaluateOf) == (if ShouldSample(c, cur) then [SamplePath(c, cur)] else [])
  {
    IterStepShape(c, rt, s, cur);
    TraceSamples(c, rt, cur, NextBatch(rt, s.epoch, s.index), IterStep(c, rt, s, cur).state.ema.shadow);
  }

  /** A successful iteration restores the live parameters exactly when it samples. */
  lemma IterStepRestores(c: Config, rt: Runtime, s: TrainState, cur: nat)
    requires IterStep(c, rt, s, cur).error.None?
    ensures Select(IterStep(c, rt, s, cur).events, RestoreOf) == (if ShouldSample(c, cur) then [cur] else [])
  {
    IterStepShape(c, rt, s, cur);
    TraceRestores(c, rt, cur, NextBatch(rt, s.epoch, s.index), IterStep(c, rt, s, cur).state.ema.shadow);
  }

  /** A successful iteration `cur` fetches once and steps the optimizer once; it sanitises
      gradients and steps the EMA exactly when gradients are synchronised, so the EMA step
      counter grows by one exactly then. */
  lemma IterStepTraining(c: Config, rt: Runtime, s: TrainState, cur: nat)
    requires IterStep(c, rt, s, cur).error.None?
    ensures var st := IterStep(c, rt, s, cur);
      && Select(st.events, FetchOf) == [cur]
      && Select(st.events, OptimizerOf) == [cur]
      && Select(st.events, SanitizeOf) == (if rt.sync(cur) then [cur] else [])
      && Select(st.events, EmaOf) == (if rt.sync(cur) then [cur] else [])
      && st.state.ema.steps == s.ema.steps + (if rt.sync(cur) then 1 else 0)
      && st.state.index <= rt.loaderLen
  {
    IterStepShape(c, rt, s, cur);
    IterStepFetches(c, rt, s, cur);
    IterStepOptimizes(c, rt, s, cur);
    IterStepSanitizes(c, rt, s, cur);
    IterStepEmaSteps(c, rt, s, cur);
  }

  lemma TraceFetchPosition(c: Config, rt: Runtime, cur: nat, fb: Fetched, w: Params)
    requires fb.Fetched?
    ensures Select(FetchEvents(cur, fb) + IterationTail(c, rt, cur, w), FetchPosOf) == [(cur, fb.epoch, fb.index)]
  {
    assert Pick(RestartLoader(cur), FetchPosOf) == [];
    assert Pick(Fetch(cur, fb.epoch, fb.index), FetchPosOf) == [(cur, fb.epoch, fb.index)];
    assert Pick(Sanitize(cur), FetchPosOf) == [];
    assert Pick(OptimizerStep(cur), FetchPosOf) == [];
    assert Pick(EmaStep(cur), FetchPosOf) == [];
    assert Pick(Log(cur + 1), FetchPosOf) == [];
    assert Pick(SaveCheckpoint(cur, CheckpointPath(c, cur)), FetchPosOf) == [];
    assert Pick(StoreParams(cur), FetchPosOf) == [];
    assert Pick(CopyEma, FetchPosOf) == [];
    assert Pick(Evaluate(SamplePath(c, cur), w), FetchPosOf) == [];
    assert Pick(RestoreParams(cur), FetchPosOf) == [];
    assert Pick(Barrier(cur), FetchPosOf) == [];
    TraceSelect(c, rt, cur, fb, w, FetchPosOf);
  }

  /** A successful iteration records the position it read, which is where the iterator stood
      or, when it was exhausted, the start of the next pass. */
  lemma IterStepFetchPosition(c: Config, rt: Runtime, s: TrainState, cur: nat)
    requires IterStep(c, rt, s, cur).error.None?
    ensures var st := IterStep(c, rt, s, cur);
      var fb := NextBatch(rt, s.epoch, s.index);
      && fb.Fetched?
      && Select(st.events, FetchPosOf) == [(cur, fb.epoch, fb.index)]
      && st.state.epoch == fb.epoch && st.state.index == fb.index + 1
  {
    IterStepShape(c, rt, s, cur);
    TraceFetchPosition(c, rt, cur, NextBatch(rt, s.epoch, s.index), IterStep(c, rt, s, cur).state.ema.shadow);
  }

  /** With a usable loader and the `"epsilon"` prediction type an iteration fails exactly
      when it samples and `evaluate` fails on its labels, and then with `EvaluationFailed`; the iterator
      never points beyond the loader. */
  lemma IterStepSucceeds(c: Config, rt: Runtime, s: TrainState, cur: nat)
    requires rt.loaderLen > 0 && c.predType == "epsilon"
    ensures var st := IterStep(c, rt, s, cur);
      && (st.error.None? <==> !(ShouldSample(c, cur) && EvalFails(c)))
      && (st.error.Some? ==> st.error == Some(EvaluationFailed))
      && st.state.index <= rt.loaderLen
  {
  }

  /** The label construction of `evaluate` raises exactly when `MODEL.LABEL_DIM == 1` and
      `EVAL.BATCH_SIZE >= 2`: class 1 of the second half of the batch has no one-hot slot. */
  lemma EvalFailsIff(c: Config)
    ensures EvalFails(c) <==> c.eval.labelDim == 1 && c.eval.batchSize >= 2
  {
    Evaluation.LabelsShape(c.eval.batchSize, c.eval.labelDim);
  }

  /** The trace of an iteration whose `evaluate` fails on its labels, projected by any selector. */
  lemma AbortedSelect<T>(c: Config, rt: Runtime, cur: nat, fb: Fetched, w: Params, f: Event -> Option<T>)
    requires fb.Fetched?
    ensures Select(FetchEvents(cur, fb) + AbortedTail(c, rt, cur, w), f) ==
      (if fb.restarted then Pick(RestartLoader(cur), f) + Pick(Fetch(cur, fb.epoch, fb.index), f)
       else Pick(Fetch(cur, fb.epoch, fb.index), f)) +
      ((if rt.sync(cur) then Pick(Sanitize(cur), f) + (Pick(OptimizerStep(cur), f) + Pick(EmaStep(cur), f))
        else Pick(OptimizerStep(cur), f)) +
      ((if ShouldLog(c, cur) then Pick(Log(cur + 1), f) else []) +
      ((if ShouldSave(c, cur) then Pick(SaveCheckpoint(cur, CheckpointPath(c, cur)), f) else []) +
       (Pick(StoreParams(cur), f) + (Pick(CopyEma, f) + Pick(Evaluate(SamplePath(c, cur), w), f))))))
  {
    var fe, tr, lg, sv := FetchEvents(cur, fb), TrainEvents(rt, cur), LogEvents(c, cur), SaveEvents(c, cur);
    var br := AbortedBracket(cur, SamplePath(c, cur), w);
    assert AbortedTail(c, rt, cur, w) == tr + (lg + (sv + br));
    SelectAppend(fe, tr + (lg + (sv + br)), f);
    SelectAppend(tr, lg + (sv + br), f);
    SelectAppend(lg, sv + br, f);
    SelectAppend(sv, br, f);
    assert br == [StoreParams(cur)] + [CopyEma, Evaluate(SamplePath(c, cur), w)];
    SelectAppend([StoreParams(cur)], [CopyEma, Evaluate(SamplePath(c, cur), w)], f);
    SelectSingle(StoreParams(cur), f);
    SelectPair(CopyEma, Evaluate(SamplePath(c, cur), w), f);
    SelectFetch(cur, fb, f);
    SelectTrain(rt, cur, f);
    SelectOptional(ShouldLog(c, cur), Log(cur + 1), f);
    SelectOptional(ShouldSave(c, cur), SaveCheckpoint(cur, CheckpointPath(c, cur)), f);
  }

  lemma AbortedFetches(c: Config, rt: Runtime, cur: nat, fb: Fetched, w: Params)
    requires fb.Fetched?
    ensures Select(FetchEvents(cur, fb) + AbortedTail(c, rt, cur, w), FetchOf) == [cur]
  {
    assert Pick(RestartLoader(cur), FetchOf) == [];
    assert Pick(Fetch(cur, fb.epoch, fb.index), FetchOf) == [cur];
    assert Pick(Sanitize(cur), FetchOf) == [];
    assert Pick(OptimizerStep(cur), FetchOf) == [];
    assert Pick(EmaStep(cur), FetchOf) == [];
    assert Pick(Log(cur + 1), FetchOf) == [];
    assert Pick(SaveCheckpoint(cur, CheckpointPath(c, cur)), FetchOf) == [];
    assert Pick(StoreParams(cur), FetchOf) == [];
    assert Pick(CopyEma, FetchOf) == [];
    assert Pick(Evaluate(SamplePath(c, cur), w), FetchOf) == [];
    AbortedSelect(c, rt, cur, fb, w, FetchOf);
  }

  lemma AbortedEvaluates(c: Config, rt: Runtime, cur: nat, fb: Fetched, w: Params)
    requires fb.Fetched?
    ensures Select(FetchEvents(cur, fb) + AbortedTail(c, rt, cur, w), EvaluateOf) == [SamplePath(c, cur)]
  {
    assert Pick(RestartLoader(cur), EvaluateOf) == [];
    assert Pick(Fetch(cur, fb.epoch, fb.index), EvaluateOf) == [];
    assert Pick(Sanitize(cur), EvaluateOf) == [];
    assert Pick(OptimizerStep(cur), EvaluateOf) == [];
    assert Pick(EmaStep(cur), EvaluateOf) == [];
    assert Pick(Log(cur + 1), EvaluateOf) == [];
    assert Pick(SaveCheckpoint(cur, CheckpointPath(c, cur)), EvaluateOf) == [];
    assert Pick(StoreParams(cur), EvaluateOf) == [];
    assert Pick(CopyEma, EvaluateOf) == [];
    assert Pick(Evaluate(SamplePath(c, cur), w), EvaluateOf) == [SamplePath(c, cur)];
    AbortedSelect(c, rt, cur, fb, w, EvaluateOf);
  }

  lemma AbortedNeverRestores(c: Config, rt: Runtime, cur: nat, fb: Fetched, w: Params)
    requires fb.Fetched?
    ensures Select(FetchEvents(cur, fb) + AbortedTail(c, rt, cur, w), RestoreOf) == []
  {
    assert Pick(RestartLoader(cur), RestoreOf) == [];
    assert Pick(Fetch(cur, fb.epoch, fb.index), RestoreOf) == [];
    assert Pick(Sanitize(cur), RestoreOf) == [];
    assert Pick(OptimizerStep(cur), RestoreOf) == [];
    assert Pick(EmaStep(cur), RestoreOf) == [];
    assert Pick(Log(cur + 1), RestoreOf) == [];
    assert Pick(SaveCheckpoint(cur, CheckpointPath(c, cur)), RestoreOf) == [];
    assert Pick(StoreParams(cur), RestoreOf) == [];
    assert Pick(CopyEma, RestoreOf) == [];
    assert Pick(Evaluate(SamplePath(c, cur), w), RestoreOf) == [];
    AbortedSelect(c, rt, cur, fb, w, RestoreOf);
  }

  /** A sampling iteration whose `evaluate` fails on its labels has fetched and trained, logged and saved
      on schedule, called `evaluate` once with the EMA weights copied in, and never restored
      the live parameters: the model is left holding the EMA weights. */
  lemma IterStepEvaluationFails(c: Config, rt: Runtime, s: TrainState, cur: nat)
    requires rt.loaderLen > 0 && c.predType == "epsilon" && ShouldSample(c, cur) && EvalFails(c)
    ensures var st := IterStep(c, rt, s, cur);
      && st.error == Some(EvaluationFailed)
      && st.state.model == st.state.ema.shadow
      && st.state.ema == EmaAfter(rt, cur, s.ema, rt.train(s.model, s.optimizer, s.lrScheduler,
                                   NextBatch(rt, s.epoch, s.index).data, cur, rt.sync(cur)).model)
      && Select(st.events, FetchOf) == [cur]
      && Select(st.events, EvaluateOf) == [SamplePath(c, cur)]
      && Select(st.events, RestoreOf) == []
  {
    var st := IterStep(c, rt, s, cur);
    var fb := NextBatch(rt, s.epoch, s.index);
    assert st.events == FetchEvents(cur, fb) + AbortedTail(c, rt, cur, st.state.ema.shadow);
    AbortedFetches(c, rt, cur, fb, st.state.ema.shadow);
    AbortedEvaluates(c, rt, cur, fb, st.state.ema.shadow);
    AbortedNeverRestores(c, rt, cur, fb, st.state.ema.shadow);
  }

  /** An iteration started where `k` fetches leave a fresh iterator reads batch `k % n` of
      pass `k / n` and leaves the iterator where `k + 1` fetches leave it. */
  lemma IterStepReadsAt(c: Config, rt: Runtime, s: TrainState, cur: nat, k: nat)
    requires rt.loaderLen > 0 && c.predType == "epsilon" && !(ShouldSample(c, cur) && EvalFails(c))
    requires (s.epoch, s.index) == CursorAfter(rt.loaderLen, k)
    ensures var st := IterStep(c, rt, s, cur);
      && st.error.None?
      && (st.state.epoch, st.state.index) == CursorAfter(rt.loaderLen, k + 1)
      && Select(st.events, FetchPosOf) == [(cur, k / rt.loaderLen, k % rt.loaderLen)]
  {
    IterStepSucceeds(c, rt, s, cur);
    IterStepFetchPosition(c, rt, s, cur);
    CursorStep(rt, k);
  }

  /** A successful iteration writes its checkpoint, holding its own final state, exactly
      on its save schedule and leaves every other file alone. */
  lemma IterStepDisk(c: Config, rt: Runtime, s: TrainState, cur: nat)
    requires IterStep(c, rt, s, cur).error.None?
    ensures var st := IterStep(c, rt, s, cur).state;
      st.disk == if ShouldSave(c, cur) then s.disk[CheckpointPath(c, cur) := AsCheckpoint(st, cur)] else s.disk
  {
  }

  /** The EMA step counter of a successful iteration grows by the number of EMA steps in its
      trace. */
  lemma IterStepEmaCount(c: Config, rt: Runtime, s: TrainState, cur: nat)
    requires IterStep(c, rt, s, cur).error.None?
    ensures var st := IterStep(c, rt, s, cur);
      st.state.ema.steps == s.ema.steps + |Select(st.events, EmaOf)|
  {
    IterStepShape(c, rt, s, cur);
    IterStepEmaSteps(c, rt, s, cur);
  }

  function AsCheckpoint(st: TrainState, iter: nat): Checkpoint
  {
    Checkpoint(st.model, st.optimizer, st.lrScheduler, iter, st.ema)
  }

  // ---------------------------------------------------------------- any loop

  lemma LoopExtend(step: Step, s: TrainState, lo: nat, hi: nat)
    requires lo <= hi && Loop(step, s, lo, hi).error.None?
    ensures var prev := Loop(step, s, lo, hi);
      var st := step(prev.state, hi);
      Loop(step, s, lo, hi + 1) == StepResult(st.state, prev.events + st.events, st.error)
  {
  }

  /** The first failing iteration ends the loop: later iterations change nothing. */
  lemma {:induction false} LoopStopsAtError(step: Step, s: TrainState, lo: nat, m: int, hi: int)
    requires lo <= m <= hi && Loop(step, s, lo, m).error.Some?
    ensures Loop(step, s, lo, hi) == Loop(step, s, lo, m)
    decreases hi - m
  {
    if m < hi {
      LoopStopsAtError(step, s, lo, m, hi - 1);
    }
  }

  lemma LoopPrefix(step: Step, s: TrainState, lo: nat, m: int, hi: int)
    requires lo <= m <= hi && Loop(step, s, lo, hi).error.None?
    ensures Loop(step, s, lo, m).error.None?
  {
    if Loop(step, s, lo, m).error.Some? {
      LoopStopsAtError(step, s, lo, m, hi);
    }
  }

  /** Running to `m` and then on from the state reached runs the whole range. */
  lemma {:induction false} LoopSplit(step: Step, s: TrainState, lo: nat, m: nat, hi: int)
    requires lo <= m <= hi && Loop(step, s, lo, m).error.None?
    ensures var a := Loop(step, s, lo, m);
      var b := Loop(step, a.state, m, hi);
      Loop(step, s, lo, hi) == StepResult(b.state, a.events + b.events, b.error)
    decreases hi - m
  {
    var a := Loop(step, s, lo, m);
    if hi == m {
      assert a.events + [] == a.events;
    } else {
      LoopSplit(step, s, lo, m, hi - 1);
      var b := Loop(step, a.state, m, hi - 1);
      if b.error.None? {
        var st := step(b.state, hi - 1);
        AppendAssoc(a.events, b.events, st.events);
      }
    }
  }

  /** A selector that sees `g(cur)` in every successful iteration of `step` sees
      `Gather(g, lo, hi)` in a successful loop. */
  /** Every successful iteration of `step` shows the selector `f` exactly `g(cur)`. */
  ghost predicate SelectsEach<T>(step: Step, f: Event -> Option<T>, g: nat -> seq<T>)
  {
    forall st: TrainState, cur: nat :: step(st, cur).error.None? ==> Select(step(st, cur).events, f) == g(cur)
  }

  /** From `lo` on, `p(cur, state)` makes iteration `cur` succeed, holds again after it and
      makes it show the selector `f` exactly `g(cur)`. */
  ghost predicate SelectsFrom<T>(step: Step, lo: nat, p: (nat, TrainState) -> bool, f: Event -> Option<T>, g: nat -> seq<T>)
  {
    forall st: TrainState, cur: nat :: lo <= cur && p(cur, st) ==>
      step(st, cur).error.None? && p(cur + 1, step(st, cur).state) && Select(step(st, cur).events, f) == g(cur)
  }

  /** From `lo` on, every successful iteration keeps the property `p` of the state. */
  ghost predicate PreservesFrom(step: Step, lo: nat, p: TrainState -> bool)
  {
    forall st: TrainState, cur: nat :: lo <= cur && p(st) && step(st, cur).error.None? ==> p(step(st, cur).state)
  }

  /** Every successful iteration raises the counter `m` by the number of its `f`-events. */
  ghost predicate CountsEach<T>(step: Step, m: TrainState -> int, f: Event -> Option<T>)
  {
    forall st: TrainState, cur: nat :: step(st, cur).error.None? ==>
      m(step(st, cur).state) == m(st) + |Select(step(st, cur).events, f)|
  }

  lemma {:induction false} LoopSelect<T>(step: Step, s: TrainState, lo: nat, hi: int, f: Event -> Option<T>, g: nat -> seq<T>)
    requires SelectsEach(step, f, g)
    requires Loop(step, s, lo, hi).error.None?
    ensures Select(Loop(step, s, lo, hi).events, f) == Gather(g, lo, hi)
    decreases hi - lo
  {
    if hi > lo {
      var prev := Loop(step, s, lo, hi - 1);
      LoopSelect(step, s, lo, hi - 1, f, g);
      var st := step(prev.state, hi - 1);
      LoopExtend(step, s, lo, hi - 1);
      SelectAppend(prev.events, st.events, f);
      assert Select(st.events, f) == g(hi - 1);
      assert Gather(g, lo, hi) == Gather(g, lo, hi - 1) + g(hi - 1);
    } else {
      assert Loop(step, s, lo, hi).events == [];
    }
  }

  /** A property `p(cur, state)` that guarantees the success of iteration `cur` and holds
      again after it makes the whole loop succeed; the selector `f` then sees `g(cur)` in
      each iteration. */
  lemma {:induction false} LoopSelectFrom<T>(step: Step, s: TrainState, lo: nat, hi: int,
                                             p: (nat, TrainState) -> bool, f: Event -> Option<T>, g: nat -> seq<T>)
    requires p(lo, s) && SelectsFrom(step, lo, p, f, g)
    ensures var r := Loop(step, s, lo, hi);
      r.error.None? && (lo <= hi ==> p(hi, r.state)) && Select(r.events, f) == Gather(g, lo, hi)
    decreases hi - lo
  {
    if hi > lo {
      var prev := Loop(step, s, lo, hi - 1);
      LoopSelectFrom(step, s, lo, hi - 1, p, f, g);
      assert p(hi - 1, prev.state);
      var st := step(prev.state, hi - 1);
      assert st.error.None? && p(hi, st.state) && Select(st.events, f) == g(hi - 1);
      LoopExtend(step, s, lo, hi - 1);
      SelectAppend(prev.events, st.events, f);
    }
  }

  /** A property of the state that every successful iteration from `lo` on preserves holds
      at the end of a successful loop. */
  lemma {:induction false} LoopPreserves(step: Step, s: TrainState, lo: nat, hi: int, p: TrainState -> bool)
    requires Loop(step, s, lo, hi).error.None? && p(s)
    requires PreservesFrom(step, lo, p)
    ensures p(Loop(step, s, lo, hi).state)
    decreases hi - lo
  {
    if hi > lo {
      LoopPreserves(step, s, lo, hi - 1, p);
      LoopExtend(step, s, lo, hi - 1);
    }
  }

  /** A counter that each successful iteration raises by the number of `f`-events in its
      trace ends raised by the number of `f`-events of the whole loop. */
  lemma {:induction false} LoopCount<T>(step: Step, s: TrainState, lo: nat, hi: int, m: TrainState -> int, f: Event -> Option<T>)
    requires Loop(step, s, lo, hi).error.None?
    requires CountsEach(step, m, f)
    ensures m(Loop(step, s, lo, hi).state) == m(s) + |Select(Loop(step, s, lo, hi).events, f)|
    decreases hi - lo
  {
    if hi > lo {
      var prev := Loop(step, s, lo, hi - 1);
      LoopCount(step, s, lo, hi - 1, m, f);
      var st := step(prev.state, hi - 1);
      LoopExtend(step, s, lo, hi - 1);
      var r := Loop(step, s, lo, hi);
      assert r.state == st.state && r.events == prev.events + st.events;
      SelectAppend(prev.events, st.events, f);
      assert |Select(r.events, f)| == |Select(prev.events, f)| + |Select(st.events, f)|;
      assert m(st.state) == m(prev.state) + |Select(st.events, f)|;
    } else {
      assert Loop(step, s, lo, hi) == StepResult(s, [], None);
    }
  }

  /** Iteration `cur` of `step` fails exactly when `bad(cur)`, and then with `e`. */
  ghost predicate FailsExactly(step: Step, bad: nat -> bool, e: Error)
  {
    forall st: TrainState, cur: nat ::
      (step(st, cur).error.None? <==> !bad(cur)) && (step(st, cur).error.Some? ==> step(st, cur).error == Some(e))
  }

  /** Some `i` of `[lo, hi)` has `bad(i)`. */
  ghost predicate BadIn(bad: nat -> bool, lo: nat, hi: int)
  {
    exists i :: lo <= i < hi && bad(i)
  }

  lemma BadInExtend(bad: nat -> bool, lo: nat, hi: int)
    requires lo < hi
    ensures BadIn(bad, lo, hi) <==> BadIn(bad, lo, hi - 1) || bad(hi - 1)
  {
    if BadIn(bad, lo, hi) && !bad(hi - 1) {
      var i :| lo <= i < hi && bad(i);
      assert lo <= i < hi - 1;
    }
    if bad(hi - 1) {
      assert lo <= hi - 1 < hi;
    }
  }

  /** A loop whose iterations fail exactly where `bad` holds fails exactly when some
      iteration of its range is bad, and then with the same error. */
  lemma {:induction false} LoopFailsIff(step: Step, s: TrainState, lo: nat, hi: int, bad: nat -> bool, e: Error)
    requires FailsExactly(step, bad, e)
    ensures var r := Loop(step, s, lo, hi);
      (r.error.None? <==> !BadIn(bad, lo, hi)) && (r.error.Some? ==> r.error == Some(e))
    decreases hi - lo
  {
    if hi > lo {
      LoopFailsIff(step, s, lo, hi - 1, bad, e);
      BadInExtend(bad, lo, hi);
    } else {
      assert !BadIn(bad, lo, hi);
    }
  }

  lemma {:induction false} GatherSplit<T>(g: nat -> seq<T>, lo: nat, m: int, hi: int)
    requires lo <= m <= hi
    ensures Gather(g, lo, m) + Gather(g, m, hi) == Gather(g, lo, hi)
    decreases hi - m
  {
    if m < hi {
      GatherSplit(g, lo, m, hi - 1);
      AppendAssocOf(Gather(g, lo, m), Gather(g, m, hi - 1), g(hi - 1));
    } else {
      assert Gather(g, lo, m) + [] == Gather(g, lo, m);
    }
  }

  lemma {:induction false} GatherHas<T>(g: nat -> seq<T>, lo: nat, hi: int, i: nat, x: T)
    requires lo <= i < hi && x in g(i)
    ensures x in Gather(g, lo, hi)
    decreases hi - lo
  {
    if i < hi - 1 {
      GatherHas(g, lo, hi - 1, i, x);
    }
    assert Gather(g, lo, hi) == Gather(g, lo, hi - 1) + g(hi - 1);
  }

  /** Every element gathered comes from some index of the range. */
  lemma {:induction false} GatherSource<T>(g: nat -> seq<T>, lo: nat, hi: int, x: T) returns (i: nat)
    requires x in Gather(g, lo, hi)
    ensures lo <= i < hi && x in g(i)
    decreases hi - lo
  {
    assert hi > lo;
    assert Gather(g, lo, hi) == Gather(g, lo, hi - 1) + g(hi - 1);
    if x in g(hi - 1) {
      i := hi - 1;
    } else {
      i := GatherSource(g, lo, hi - 1, x);
    }
  }

  // ---------------------------------------------------------------- whole runs

  // Each iteration, seen as a step of the generic loop.

  function EmaCounter(): TrainState -> int
  {
    (st: TrainState) => st.ema.steps as int
  }

  lemma IterationCountsEma(c: Config, rt: Runtime)
    ensures CountsEach(IterationOf(c, rt), EmaCounter(), EmaOf)
  {
    var step := IterationOf(c, rt);
    forall st: TrainState, cur: nat | step(st, cur).error.None?
      ensures EmaCounter()(step(st, cur).state) == EmaCounter()(st) + |Select(step(st, cur).events, EmaOf)|
    {
      IterStepEmaCount(c, rt, st, cur);
    }
  }

  lemma IterationFetches(c: Config, rt: Runtime)
    ensures SelectsEach(IterationOf(c, rt), FetchOf, Only)
  {
    forall st: TrainState, cur: nat | IterationOf(c, rt)(st, cur).error.None?
      ensures Select(IterationOf(c, rt)(st, cur).events, FetchOf) == Only(cur)
    {
      IterStepFetches(c, rt, st, cur);
    }
  }

  lemma IterationOptimizes(c: Config, rt: Runtime)
    ensures SelectsEach(IterationOf(c, rt), OptimizerOf, Only)
  {
    forall st: TrainState, cur: nat | IterationOf(c, rt)(st, cur).error.None?
      ensures Select(IterationOf(c, rt)(st, cur).events, OptimizerOf) == Only(cur)
    {
      IterStepOptimizes(c, rt, st, cur);
    }
  }

  lemma IterationSanitizes(c: Config, rt: Runtime)
    ensures SelectsEach(IterationOf(c, rt), SanitizeOf, Chosen(rt.sync))
  {
    forall st: TrainState, cur: nat | IterationOf(c, rt)(st, cur).error.None?
      ensures Select(IterationOf(c, rt)(st, cur).events, SanitizeOf) == Chosen(rt.sync)(cur)
    {
      IterStepSanitizes(c, rt, st, cur);
    }
  }

  lemma IterationEmaSteps(c: Config, rt: Runtime)
    ensures SelectsEach(IterationOf(c, rt), EmaOf, Chosen(rt.sync))
  {
    forall st: TrainState, cur: nat | IterationOf(c, rt)(st, cur).error.None?
      ensures Select(IterationOf(c, rt)(st, cur).events, EmaOf) == Chosen(rt.sync)(cur)
    {
      IterStepEmaSteps(c, rt, st, cur);
    }
  }

  lemma IterationLogs(c: Config, rt: Runtime)
    ensures SelectsEach(IterationOf(c, rt), LogOf, LogAt(c))
  {
    var step, sel := IterationOf(c, rt), LogAt(c);
    forall st: TrainState, cur: nat | step(st, cur).error.None?
      ensures Select(step(st, cur).events, LogOf) == sel(cur)
    {
      assert step(st, cur) == IterStep(c, rt, st, cur);
      assert sel(cur) == (if ShouldLog(c, cur) then [cur + 1] else []);
      IterStepLogs(c, rt, st, cur);
    }
  }

  lemma IterationSaves(c: Config, rt: Runtime)
    ensures SelectsEach(IterationOf(c, rt), SaveOf, SaveAt(c))
  {
    var step, sel := IterationOf(c, rt), SaveAt(c);
    forall st: TrainState, cur: nat | step(st, cur).error.None?
      ensures Select(step(st, cur).events, SaveOf) == sel(cur)
    {
      assert step(st, cur) == IterStep(c, rt, st, cur);
      assert sel(cur) == (if ShouldSave(c, cur) then [(cur, CheckpointPath(c, cur))] else []);
      IterStepSaves(c, rt, st, cur);
    }
  }

  lemma IterationSamples(c: Config, rt: Runtime)
    ensures SelectsEach(IterationOf(c, rt), EvaluateOf, SampleAt(c))
  {
    var step, sel := IterationOf(c, rt), SampleAt(c);
    forall st: TrainState, cur: nat | step(st, cur).error.None?
      ensures Select(step(st, cur).events, EvaluateOf) == sel(cur)
    {
      assert step(st, cur) == IterStep(c, rt, st, cur);
      assert sel(cur) == (if ShouldSample(c, cur) then [SamplePath(c, cur)] else []);
      IterStepSamples(c, rt, st, cur);
    }
  }

  function SampleWhen(c: Config): nat -> bool
  {
    (i: nat) => ShouldSample(c, i)
  }

  lemma IterationRestores(c: Config, rt: Runtime)
    ensures SelectsEach(IterationOf(c, rt), RestoreOf, Chosen(SampleWhen(c)))
  {
    var step, sel := IterationOf(c, rt), Chosen(SampleWhen(c));
    forall st: TrainState, cur: nat | step(st, cur).error.None?
      ensures Select(step(st, cur).events, RestoreOf) == sel(cur)
    {
      assert step(st, cur) == IterStep(c, rt, st, cur);
      assert sel(cur) == (if ShouldSample(c, cur) then [cur] else []);
      IterStepRestores(c, rt, st, cur);
    }
  }

  lemma RunExtend(c: Config, rt: Runtime, s: TrainState, lo: nat, hi: nat)
    requires lo <= hi && RunSpec(c, rt, s, lo, hi).error.None?
    ensures var prev := RunSpec(c, rt, s, lo, hi);
      var st := IterStep(c, rt, prev.state, hi);
      RunSpec(c, rt, s, lo, hi + 1) == StepResult(st.state, prev.events + st.events, st.error)
  {
    LoopExtend(IterationOf(c, rt), s, lo, hi);
  }

  lemma RunStopsAtError(c: Config, rt: Runtime, s: TrainState, lo: nat, m: int, hi: int)
    requires lo <= m <= hi && RunSpec(c, rt, s, lo, m).error.Some?
    ensures RunSpec(c, rt, s, lo, hi) == RunSpec(c, rt, s, lo, m)
  {
    LoopStopsAtError(IterationOf(c, rt), s, lo, m, hi);
  }

  /** With a non-empty loader and the `"epsilon"` prediction type exhaustion of the data
      never stops training: a run fails exactly when `evaluate` fails on its labels and some iteration of
      `[lo, hi)` samples, and then with `EvaluationFailed`. */
  lemma RunSucceeds(c: Config, rt: Runtime, s: TrainState, lo: nat, hi: int)
    requires rt.loaderLen > 0 && c.predType == "epsilon"
    ensures var r := RunSpec(c, rt, s, lo, hi);
      && (r.error.None? <==> !(EvalFails(c) && exists i :: lo <= i < hi && ShouldSample(c, i)))
      && (r.error.Some? ==> r.error == Some(EvaluationFailed))
  {
    IterationFailsExactly(c, rt);
    LoopFailsIff(IterationOf(c, rt), s, lo, hi, AbortsAt(c), EvaluationFailed);
    AbortsIn(c, lo, hi);
  }

  /** Iteration `i` samples and `evaluate` fails on its labels. */
  function AbortsAt(c: Config): nat -> bool
  {
    (i: nat) => ShouldSample(c, i) && EvalFails(c)
  }

  lemma AbortsIn(c: Config, lo: nat, hi: int)
    ensures BadIn(AbortsAt(c), lo, hi) <==> EvalFails(c) && exists i :: lo <= i < hi && ShouldSample(c, i)
  {
    if EvalFails(c) && exists i :: lo <= i < hi && ShouldSample(c, i) {
      var i :| lo <= i < hi && ShouldSample(c, i);
      assert AbortsAt(c)(i);
    }
  }

  lemma IterationFailsExactly(c: Config, rt: Runtime)
    requires rt.loaderLen > 0 && c.predType == "epsilon"
    ensures FailsExactly(IterationOf(c, rt), AbortsAt(c), EvaluationFailed)
  {
    var step, bad := IterationOf(c, rt), AbortsAt(c);
    forall st: TrainState, cur: nat
      ensures (step(st, cur).error.None? <==> !bad(cur))
           && (step(st, cur).error.Some? ==> step(st, cur).error == Some(EvaluationFailed))
    {
      assert step(st, cur) == IterStep(c, rt, st, cur);
      assert bad(cur) == (ShouldSample(c, cur) && EvalFails(c));
      IterStepSucceeds(c, rt, st, cur);
    }
  }

  /** When `evaluate` fails on its labels, a run stops at its first sampling iteration `k`: it has fetched
      every iteration up to and including `k`, called `evaluate` once, never restored the
      live parameters, and leaves the model holding the EMA weights. */
  lemma RunAbortsAtFirstSample(c: Config, rt: Runtime, s: TrainState, lo: nat, hi: int, k: nat)
    requires rt.loaderLen > 0 && c.predType == "epsilon" && EvalFails(c)
    requires lo <= k < hi && ShouldSample(c, k)
    requires forall i :: lo <= i < k ==> !ShouldSample(c, i)
    ensures var r := RunSpec(c, rt, s, lo, hi);
      && r.error == Some(EvaluationFailed)
      && r.state.model == r.state.ema.shadow
      && Select(r.events, FetchOf) == Range(lo, k + 1)
      && Select(r.events, EvaluateOf) == [SamplePath(c, k)]
      && Select(r.events, RestoreOf) == []
  {
    RunSucceeds(c, rt, s, lo, k);
    var prev := RunSpec(c, rt, s, lo, k);
    RunExtend(c, rt, s, lo, k);
    IterStepEvaluationFails(c, rt, prev.state, k);
    var st := IterStep(c, rt, prev.state, k);
    RunStopsAtError(c, rt, s, lo, k + 1, hi);
    RunFetches(c, rt, s, lo, k);
    RunSamples(c, rt, s, lo, k);
    RunRestores(c, rt, s, lo, k);
    NoSamplesBefore(c, lo, k);
    SelectAppend(prev.events, st.events, FetchOf);
    SelectAppend(prev.events, st.events, EvaluateOf);
    SelectAppend(prev.events, st.events, RestoreOf);
    assert Range(lo, k + 1) == Range(lo, k) + [k];
  }

  lemma {:induction false} NoSamplesBefore(c: Config, lo: nat, k: int)
    requires forall i :: lo <= i < k ==> !ShouldSample(c, i)
    ensures SampledFiles(c, lo, k) == [] && Where(lo, k, SampleWhen(c)) == []
    decreases k - lo
  {
    if k > lo {
      NoSamplesBefore(c, lo, k - 1);
      assert SampleAt(c)(k - 1) == [];
      assert Chosen(SampleWhen(c))(k - 1) == [];
    }
  }

  /** Every iteration of `[lo, hi)` is fetched exactly once, in increasing order. */
  lemma RunFetches(c: Config, rt: Runtime, s: TrainState, lo: nat, hi: int)
    requires RunSpec(c, rt, s, lo, hi).error.None?
    ensures Select(RunSpec(c, rt, s, lo, hi).events, FetchOf) == Range(lo, hi)
  {
    IterationFetches(c, rt);
    LoopSelect(IterationOf(c, rt), s, lo, hi, FetchOf, Only);
  }

  /** The optimizer and scheduler step once per iteration, in increasing order. */
  lemma RunOptimizes(c: Config, rt: Runtime, s: TrainState, lo: nat, hi: int)
    requires RunSpec(c, rt, s, lo, hi).error.None?
    ensures Select(RunSpec(c, rt, s, lo, hi).events, OptimizerOf) == Range(lo, hi)
  {
    IterationOptimizes(c, rt);
    LoopSelect(IterationOf(c, rt), s, lo, hi, OptimizerOf, Only);
  }

  /** Gradients are sanitised on exactly the synchronised iterations. */
  lemma RunSanitizes(c: Config, rt: Runtime, s: TrainState, lo: nat, hi: int)
    requires RunSpec(c, rt, s, lo, hi).error.None?
    ensures Select(RunSpec(c, rt, s, lo, hi).events, SanitizeOf) == Where(lo, hi, rt.sync)
  {
    IterationSanitizes(c, rt);
    LoopSelect(IterationOf(c, rt), s, lo, hi, SanitizeOf, Chosen(rt.sync));
  }

  /** The EMA steps on exactly the synchronised iterations. */
  lemma RunEmaSteps(c: Config, rt: Runtime, s: TrainState, lo: nat, hi: int)
    requires RunSpec(c, rt, s, lo, hi).error.None?
    ensures Select(RunSpec(c, rt, s, lo, hi).events, EmaOf) == Where(lo, hi, rt.sync)
  {
    IterationEmaSteps(c, rt);
    LoopSelect(IterationOf(c, rt), s, lo, hi, EmaOf, Chosen(rt.sync));
  }

  /** The EMA step counter grows by the number of synchronised iterations. */
  lemma RunEmaCount(c: Config, rt: Runtime, s: TrainState, lo: nat, hi: int)
    requires RunSpec(c, rt, s, lo, hi).error.None?
    ensures RunSpec(c, rt, s, lo, hi).state.ema.steps == s.ema.steps + |Where(lo, hi, rt.sync)|
  {
    IterationCountsEma(c, rt);
    LoopCount(IterationOf(c, rt), s, lo, hi, EmaCounter(), EmaOf);
    RunEmaSteps(c, rt, s, lo, hi);
  }

  /** A run visits every iteration of `[lo, hi)` exactly once, in increasing order, with one
      optimizer step each; gradient sanitisation and EMA steps happen on exactly the
      iterations where gradients are synchronised, and the EMA step counter grows by
      their number. */
  lemma RunSchedule(c: Config, rt: Runtime, s: TrainState, lo: nat, hi: int)
    requires RunSpec(c, rt, s, lo, hi).error.None?
    ensures var r := RunSpec(c, rt, s, lo, hi);
      && Select(r.events, FetchOf) == Range(lo, hi)
      && Select(r.events, OptimizerOf) == Range(lo, hi)
      && Select(r.events, SanitizeOf) == Where(lo, hi, rt.sync)
      && Select(r.events, EmaOf) == Where(lo, hi, rt.sync)
      && r.state.ema.steps == s.ema.steps + |Where(lo, hi, rt.sync)|
  {
    RunFetches(c, rt, s, lo, hi);
    RunOptimizes(c, rt, s, lo, hi);
    RunSanitizes(c, rt, s, lo, hi);
    RunEmaSteps(c, rt, s, lo, hi);
    RunEmaCount(c, rt, s, lo, hi);
  }

  /** The lines a run logs are exactly the reference log schedule. */
  lemma RunLogs(c: Config, rt: Runtime, s: TrainState, lo: nat, hi: int)
    requires RunSpec(c, rt, s, lo, hi).error.None?
    ensures Select(RunSpec(c, rt, s, lo, hi).events, LogOf) == LoggedSteps(c, lo, hi)
  {
    IterationLogs(c, rt);
    LoopSelect(IterationOf(c, rt), s, lo, hi, LogOf, LogAt(c));
  }

  /** The checkpoints a run writes are exactly the reference save schedule. */
  lemma RunCheckpoints(c: Config, rt: Runtime, s: TrainState, lo: nat, hi: int)
    requires RunSpec(c, rt, s, lo, hi).error.None?
    ensures Select(RunSpec(c, rt, s, lo, hi).events, SaveOf) == SavedCheckpoints(c, lo, hi)
  {
    IterationSaves(c, rt);
    LoopSelect(IterationOf(c, rt), s, lo, hi, SaveOf, SaveAt(c));
  }

  /** The sample grids a run writes are exactly the reference sample schedule. */
  lemma RunSamples(c: Config, rt: Runtime, s: TrainState, lo: nat, hi: int)
    requires RunSpec(c, rt, s, lo, hi).error.None?
    ensures Select(RunSpec(c, rt, s, lo, hi).events, EvaluateOf) == SampledFiles(c, lo, hi)
  {
    IterationSamples(c, rt);
    LoopSelect(IterationOf(c, rt), s, lo, hi, EvaluateOf, SampleAt(c));
  }

  /** A successful run restores the live parameters after exactly its sampling iterations. */
  lemma RunRestores(c: Config, rt: Runtime, s: TrainState, lo: nat, hi: int)
    requires RunSpec(c, rt, s, lo, hi).error.None?
    ensures Select(RunSpec(c, rt, s, lo, hi).events, RestoreOf) == Where(lo, hi, SampleWhen(c))
  {
    IterationRestores(c, rt);
    LoopSelect(IterationOf(c, rt), s, lo, hi, RestoreOf, Chosen(SampleWhen(c)));
  }

  /** The iterator stands where `cur - lo` fetches from a fresh iterator leave it. */
  predicate CursorAt(n: nat, lo: nat, cur: nat, st: TrainState)
  {
    n > 0 && cur >= lo && (st.epoch, st.index) == CursorAfter(n, cur - lo)
  }

  function AtCursor(n: nat, lo: nat): (nat, TrainState) -> bool
  {
    (cur: nat, st: TrainState) => CursorAt(n, lo, cur, st)
  }

  lemma IterationReadsAt(c: Config, rt: Runtime, lo: nat)
    requires rt.loaderLen > 0 && c.predType == "epsilon" && !EvalFails(c)
    ensures SelectsFrom(IterationOf(c, rt), lo, AtCursor(rt.loaderLen, lo), FetchPosOf, ReadAt(rt.loaderLen, lo))
  {
    var n := rt.loaderLen;
    var step := IterationOf(c, rt);
    var p := AtCursor(n, lo);
    forall st: TrainState, cur: nat | lo <= cur && p(cur, st)
      ensures step(st, cur).error.None? && p(cur + 1, step(st, cur).state)
           && Select(step(st, cur).events, FetchPosOf) == ReadAt(n, lo)(cur)
    {
      IterationKeepsCursor(c, rt, lo, st, cur);
    }
  }

  lemma IterationKeepsCursor(c: Config, rt: Runtime, lo: nat, st: TrainState, cur: nat)
    requires rt.loaderLen > 0 && c.predType == "epsilon" && !EvalFails(c) && CursorAt(rt.loaderLen, lo, cur, st)
    ensures var r := IterationOf(c, rt)(st, cur);
      && r.error.None?
      && CursorAt(rt.loaderLen, lo, cur + 1, r.state)
      && Select(r.events, FetchPosOf) == ReadAt(rt.loaderLen, lo)(cur)
  {
    IterStepReadsAt(c, rt, st, cur, cur - lo);
  }

  /** From a fresh iterator, iteration `i` reads batch `(i - lo) % n` of pass `(i - lo) / n`,
      and the iterator ends where `hi - lo` fetches leave it. */
  lemma RunReadsCyclically(c: Config, rt: Runtime, s: TrainState, lo: nat, hi: int)
    requires rt.loaderLen > 0 && c.predType == "epsilon" && !EvalFails(c) && s.epoch == 0 && s.index == 0
    ensures var r := RunSpec(c, rt, s, lo, hi);
      && r.error.None?
      && Select(r.events, FetchPosOf) == CyclicReads(rt.loaderLen, lo, hi)
      && (hi >= lo ==> (r.state.epoch, r.state.index) == CursorAfter(rt.loaderLen, hi - lo))
  {
    var n := rt.loaderLen;
    IterationReadsAt(c, rt, lo);
    assert CursorAfter(n, 0) == (0, 0);
    LoopSelectFrom(IterationOf(c, rt), s, lo, hi, AtCursor(n, lo), FetchPosOf, ReadAt(n, lo));
  }

  /** Any prediction type other than `"epsilon"` stops the first iteration after its fetch,
      before any loss, optimizer step, checkpoint or sample, and leaves the training
      state as it was. */
  lemma RunRejectsPrediction(c: Config, rt: Runtime, s: TrainState, lo: nat, hi: int)
    requires c.predType != "epsilon" && lo < hi && rt.loaderLen > 0
    ensures var r := RunSpec(c, rt, s, lo, hi);
      && r.error == Some(UnsupportedPrediction)
      && Select(r.events, FetchOf) == [lo]
      && Select(r.events, OptimizerOf) == []
      && Select(r.events, SaveOf) == []
      && Select(r.events, EvaluateOf) == []
      && r.state.model == s.model && r.state.optimizer == s.optimizer
      && r.state.lrScheduler == s.lrScheduler && r.state.ema == s.ema && r.state.disk == s.disk
  {
    var fb := NextBatch(rt, s.epoch, s.index);
    IterStepRejects(c, rt, s, lo);
    FetchOnly(lo, fb);
    var st := IterStep(c, rt, s, lo);
    RunExtend(c, rt, s, lo, lo);
    assert [] + st.events == st.events;
    RunStopsAtError(c, rt, s, lo, lo + 1, hi);
  }

  lemma IterStepRejects(c: Config, rt: Runtime, s: TrainState, cur: nat)
    requires c.predType != "epsilon" && rt.loaderLen > 0
    ensures var fb := NextBatch(rt, s.epoch, s.index);
      && fb.Fetched?
      && IterStep(c, rt, s, cur) ==
         StepResult(s.(epoch := fb.epoch, index := fb.index + 1), FetchEvents(cur, fb), Some(UnsupportedPrediction))
  {
  }

  lemma FetchOnly(cur: nat, fb: Fetched)
    requires fb.Fetched?
    ensures var ev := FetchEvents(cur, fb);
      && Select(ev, FetchOf) == [cur] && Select(ev, OptimizerOf) == []
      && Select(ev, SaveOf) == [] && Select(ev, EvaluateOf) == []
  {
    SelectFetch(cur, fb, FetchOf);
    SelectFetch(cur, fb, OptimizerOf);
    SelectFetch(cur, fb, SaveOf);
    SelectFetch(cur, fb, EvaluateOf);
  }

  /** An empty data loader makes the first fetch raise, before anything is trained. */
  lemma RunRejectsEmptyLoader(c: Config, rt: Runtime, s: TrainState, lo: nat, hi: int)
    requires rt.loaderLen == 0 && lo < hi
    ensures var r := RunSpec(c, rt, s, lo, hi);
      r.error == Some(EmptyLoader) && Select(r.events, FetchOf) == [] && r.state == s
  {
    RunExtend(c, rt, s, lo, lo);
    assert IterStep(c, rt, s, lo) == StepResult(s, [RestartLoader(lo)], Some(EmptyLoader));
    assert [] + [RestartLoader(lo)] == [RestartLoader(lo)];
    RunStopsAtError(c, rt, s, lo, lo + 1, hi);
    SelectSingle(RestartLoader(lo), FetchOf);
  }

  // ---------------------------------------------------------------- checkpoint and sample files

  lemma SavedCheckpointsMember(c: Config, lo: nat, hi: int, i: nat, p: string)
    ensures (i, p) in SavedCheckpoints(c, lo, hi) <==>
      lo <= i < hi && ShouldSave(c, i) && p == CheckpointPath(c, i)
  {
    if lo <= i < hi && ShouldSave(c, i) && p == CheckpointPath(c, i) {
      GatherHas(SaveAt(c), lo, hi, i, (i, p));
    }
    if (i, p) in SavedCheckpoints(c, lo, hi) {
      var j := GatherSource(SaveAt(c), lo, hi, (i, p));
      assert (i, p) in SaveAt(c)(j);
    }
  }

  /** During a run a checkpoint is written at iteration `i` iff `(i + 1) % SAVE_INTERVAL == 0`
      or `i` is the last iteration (on the main process), and it is written to
      `checkpoints/final.pth` on the last iteration and `checkpoints/checkpoint_{i + 1}.pth`
      otherwise. */
  lemma CheckpointWrittenIff(c: Config, rt: Runtime, s: TrainState, lo: nat, hi: int, i: nat, p: string)
    requires RunSpec(c, rt, s, lo, hi).error.None?
    ensures (i, p) in Select(RunSpec(c, rt, s, lo, hi).events, SaveOf) <==>
      && lo <= i < hi
      && ((i + 1) % c.saveInterval == 0 || i == c.maxIter - 1) && c.isMain
      && p == JoinPath(c.projectDir, "checkpoints",
                       if i == c.maxIter - 1 then "final.pth" else "checkpoint_" + Decimal(i + 1) + ".pth")
  {
    RunCheckpoints(c, rt, s, lo, hi);
    SavedCheckpointsMember(c, lo, hi, i, p);
  }

  lemma SamplePathInjective(c: Config, i: nat, j: nat)
    ensures SamplePath(c, i) == SamplePath(c, j) <==> i == j
  {
    JoinPathInjective(c.projectDir, "generate", SampleName(i), SampleName(j));
    SampleNameInjective(i, j);
  }

  lemma SampledFilesMember(c: Config, lo: nat, hi: int, i: nat)
    ensures SamplePath(c, i) in SampledFiles(c, lo, hi) <==> lo <= i < hi && ShouldSample(c, i)
  {
    var x := SamplePath(c, i);
    if lo <= i < hi && ShouldSample(c, i) {
      GatherHas(SampleAt(c), lo, hi, i, x);
    }
    if x in SampledFiles(c, lo, hi) {
      var j := GatherSource(SampleAt(c), lo, hi, x);
      assert x in SampleAt(c)(j);
      assert ShouldSample(c, j) && x == SamplePath(c, j);
      SamplePathInjective(c, i, j);
    }
  }

  /** During a successful run `evaluate` is called with `generate/iter_{i + 1:03d}.png` (and
      the main process saves that grid) iff
      `(i + 1) % SAMPLE_INTERVAL == 0` or `i` is the last iteration. */
  lemma SampleWrittenIff(c: Config, rt: Runtime, s: TrainState, lo: nat, hi: int, i: nat)
    requires RunSpec(c, rt, s, lo, hi).error.None?
    ensures SamplePath(c, i) in Select(RunSpec(c, rt, s, lo, hi).events, EvaluateOf) <==>
      lo <= i < hi && ((i + 1) % c.sampleInterval == 0 || i == c.maxIter - 1)
  {
    RunSamples(c, rt, s, lo, hi);
    SampledFilesMember(c, lo, hi, i);
  }

  /** The file `path` holds the checkpoint `x`. */
  function Holds(path: string, x: Checkpoint): TrainState -> bool
  {
    (st: TrainState) => path in st.disk && st.disk[path] == x
  }

  /** Iterations after `k` never overwrite the checkpoint file of iteration `k`. */
  lemma IterationKeepsCheckpoint(c: Config, rt: Runtime, k: nat, x: Checkpoint)
    ensures PreservesFrom(IterationOf(c, rt), k + 1, Holds(CheckpointPath(c, k), x))
  {
    var step := IterationOf(c, rt);
    var p := Holds(CheckpointPath(c, k), x);
    forall st: TrainState, cur: nat | k + 1 <= cur && p(st) && step(st, cur).error.None?
      ensures p(step(st, cur).state)
    {
      IterStepKeepsCheckpoint(c, rt, st, cur, k, x);
    }
  }

  lemma IterStepKeepsCheckpoint(c: Config, rt: Runtime, st: TrainState, cur: nat, k: nat, x: Checkpoint)
    requires k < cur && IterStep(c, rt, st, cur).error.None?
    requires CheckpointPath(c, k) in st.disk && st.disk[CheckpointPath(c, k)] == x
    ensures var d := IterStep(c, rt, st, cur).state.disk;
      CheckpointPath(c, k) in d && d[CheckpointPath(c, k)] == x
  {
    IterStepDisk(c, rt, st, cur);
    if ShouldSave(c, cur) && CheckpointPath(c, cur) == CheckpointPath(c, k) {
      JoinPathInjective(c.projectDir, "checkpoints", CheckpointName(cur, c.maxIter), CheckpointName(k, c.maxIter));
      CheckpointNameInjective(cur, k, c.maxIter);
    }
  }

  /** The checkpoint written at iteration `k` is still on disk at the end of the run, holding
      exactly the model, optimizer, scheduler and EMA state at the end of iteration `k`:
      later iterations write other names. */
  lemma CheckpointPersists(c: Config, rt: Runtime, s: TrainState, lo: nat, hi: int, k: nat)
    requires RunSpec(c, rt, s, lo, hi).error.None?
    requires lo <= k < hi && ShouldSave(c, k)
    ensures var d := RunSpec(c, rt, s, lo, hi).state.disk;
      CheckpointPath(c, k) in d && d[CheckpointPath(c, k)] == AsCheckpoint(RunSpec(c, rt, s, lo, k + 1).state, k)
  {
    var step := IterationOf(c, rt);
    LoopPrefix(step, s, lo, k, hi);
    LoopPrefix(step, s, lo, k + 1, hi);
    var before := Loop(step, s, lo, k);
    RunExtend(c, rt, s, lo, k);
    IterStepDisk(c, rt, before.state, k);
    var mid := Loop(step, s, lo, k + 1);
    var pk := CheckpointPath(c, k);
    var x := AsCheckpoint(mid.state, k);
    LoopSplit(step, s, lo, k + 1, hi);
    IterationKeepsCheckpoint(c, rt, k, x);
    LoopPreserves(step, mid.state, k + 1, hi, Holds(pk, x));
  }

  /** Resuming (not generate-only) from the checkpoint written at iteration `k` restores the
      state at the end of iteration `k` and starts at `k + 1`. */
  lemma ResumeFromCheckpoint(c: Config, rt: Runtime, s: TrainState, lo: nat, hi: int, k: nat, t: TrainState)
    requires RunSpec(c, rt, s, lo, hi).error.None?
    requires lo <= k < hi && ShouldSave(c, k)
    requires t.disk == RunSpec(c, rt, s, lo, hi).state.disk
    ensures var mid := RunSpec(c, rt, s, lo, k + 1).state;
      ResumeSpec(c.(resume := Some(CheckpointPath(c, k)), generateOnly := false), t) ==
        Resumed(t.(model := mid.model, optimizer := mid.optimizer, lrScheduler := mid.lrScheduler,
                   ema := mid.ema), k + 1)
  {
    CheckpointPersists(c, rt, s, lo, hi, k);
  }

  /** A run up to and including checkpoint iteration `k`, followed by a restart that resumes
      from that checkpoint, trains every iteration of `[lo, max_iter)` exactly once, in order:
      none repeated, none skipped. */
  lemma ResumeCompletesRun(c: Config, rt: Runtime, s: TrainState, lo: nat, hi: int, k: nat, t: TrainState)
    requires RunSpec(c, rt, s, lo, hi).error.None? && hi <= c.maxIter
    requires lo <= k < hi && ShouldSave(c, k)
    requires t.disk == RunSpec(c, rt, s, lo, hi).state.disk
    requires MainSpec(c.(resume := Some(CheckpointPath(c, k)), generateOnly := false), rt, t).error.None?
    ensures
      Select(RunSpec(c, rt, s, lo, k + 1).events, FetchOf) +
      Select(MainSpec(c.(resume := Some(CheckpointPath(c, k)), generateOnly := false), rt, t).events, FetchOf)
      == Range(lo, c.maxIter)
  {
    var c' := c.(resume := Some(CheckpointPath(c, k)), generateOnly := false);
    ResumeFromCheckpoint(c, rt, s, lo, hi, k, t);
    var t1 := ResumeSpec(c', t).state;
    assert MainSpec(c', rt, t) == RunSpec(c', rt, t1.(epoch := 0, index := 0), k + 1, c.maxIter);
    RunFetches(c', rt, t1.(epoch := 0, index := 0), k + 1, c.maxIter);
    LoopPrefix(IterationOf(c, rt), s, lo, k + 1, hi);
    RunFetches(c, rt, s, lo, k + 1);
    GatherSplit(Only, lo, k + 1, c.maxIter);
  }

  // ---------------------------------------------------------------- `main`

  /** A resume path that does not exist fails before any state is loaded or anything runs. */
  lemma MissingResumeTouchesNothing(c: Config, rt: Runtime, s: TrainState)
    requires c.resume.Some? && c.resume.value !in s.disk
    ensures MainSpec(c, rt, s) == StepResult(s, [], Some(ResumeNotFound))
  {
  }

  /** Generate-only mode loads only the EMA state, copies it into the model, calls `evaluate`
      exactly once with `--save-file-name`, which fails only as the label construction of `evaluate` does, and never
      enters the training loop. */
  lemma GenerateOnlyEvaluatesOnce(c: Config, rt: Runtime, s: TrainState)
    requires c.generateOnly && (c.resume.None? || c.resume.value in s.disk)
    ensures var r := MainSpec(c, rt, s);
      var ema := if c.resume.Some? then s.disk[c.resume.value].emaStateDict else s.ema;
      && r.error == (if EvalFails(c) then Some(EvaluationFailed) else None)
      && Select(r.events, FetchOf) == [] && Select(r.events, OptimizerOf) == []
      && Select(r.events, SaveOf) == [] && Select(r.events, EvaluateOf) == [c.saveFileName]
      && r.state.model == ema.shadow && r.state.ema == ema
      && r.state.optimizer == s.optimizer && r.state.lrScheduler == s.lrScheduler && r.state.disk == s.disk
  {
    var r := MainSpec(c, rt, s);
    var s1 := ResumeSpec(c, s).state;
    assert r == StepResult(s1.(model := s1.ema.shadow), [CopyEma, Evaluate(c.saveFileName, s1.ema.shadow)],
                           if EvalFails(c) then Some(EvaluationFailed) else None);
    assert r.events == [CopyEma] + [Evaluate(c.saveFileName, r.state.ema.shadow)];
    SelectAppend([CopyEma], [Evaluate(c.saveFileName, r.state.ema.shadow)], FetchOf);
    SelectAppend([CopyEma], [Evaluate(c.saveFileName, r.state.ema.shadow)], OptimizerOf);
    SelectAppend([CopyEma], [Evaluate(c.saveFileName, r.state.ema.shadow)], SaveOf);
    SelectAppend([CopyEma], [Evaluate(c.saveFileName, r.state.ema.shadow)], EvaluateOf);
    SelectSingle(CopyEma, FetchOf);
    SelectSingle(CopyEma, OptimizerOf);
    SelectSingle(CopyEma, SaveOf);
    SelectSingle(CopyEma, EvaluateOf);
    SelectSingle(Evaluate(c.saveFileName, r.state.ema.shadow), FetchOf);
    SelectSingle(Evaluate(c.saveFileName, r.state.ema.shadow), OptimizerOf);
    SelectSingle(Evaluate(c.saveFileName, r.state.ema.shadow), SaveOf);
    SelectSingle(Evaluate(c.saveFileName, r.state.ema.shadow), EvaluateOf);
  }

  /** Training mode (with a usable resume file if one is configured) fails only when some
      iteration samples and `evaluate` fails on its labels, and otherwise trains exactly the iterations
      `start_iter .. max_iter - 1`, where `start_iter` is the checkpoint's `iter + 1` when
      resuming and 0 otherwise. */
  lemma TrainingRunsFromStartIter(c: Config, rt: Runtime, s: TrainState)
    requires !c.generateOnly && (c.resume.None? || c.resume.value in s.disk)
    requires rt.loaderLen > 0 && c.predType == "epsilon"
    ensures var start := if c.resume.Some? then s.disk[c.resume.value].iter + 1 else 0;
      var r := MainSpec(c, rt, s);
      && (r.error.None? <==> !(EvalFails(c) && exists i :: start <= i < c.maxIter && ShouldSample(c, i)))
      && (r.error.None? ==> Select(r.events, FetchOf) == Range(start, c.maxIter))
  {
    var res := ResumeSpec(c, s);
    var s1 := res.state.(epoch := 0, index := 0);
    RunSucceeds(c, rt, s1, res.startIter, c.maxIter);
    if MainSpec(c, rt, s).error.None? {
      RunFetches(c, rt, s1, res.startIter, c.maxIter);
    }
  }
}
