# MAD training harness and EDM sampler, modelled in Dafny

This project models the control core of the MAD diffusion training harness.

- **The training driver of `main.py`.**
  - The resume block.
  - The cyclic data iterator that recreates itself on `StopIteration`.
  - One training iteration: the prediction-type check, gradient sanitisation and the EMA step gated on `sync_gradients`, then logging, checkpointing and sampling on their schedules with their file names.
  - The loop over `[start_iter, max_iter)`.
  - The generate-only path.
- **The sampling pass of `evaluate`.** The class labels it builds and its loop over the scheduler's timesteps.
- **`generate_image_grid` of `modeling/generate.py`:**
  - the clamp of the noise range;
  - the `t_steps` discretisation;
  - the churn / Euler / Heun sampling loop over exact reals;
  - the byte clip and the tile layout of the output grid.

Framework code is represented by function-typed parameters that the caller supplies:
- the network;
- AdamW and the learning-rate schedule;
- the EMA decay law;
- the data loader's batches;
- `sync_gradients`;
- the diffusers schedulers;
- `round_sigma`;
- the floating-point power and square root;
- the Gaussian draws.

Side effects of the training loop are recorded as a trace of events:
- fetch and loader restart;
- sanitise, optimizer step and EMA step;
- log, checkpoint and store / copy / evaluate / restore;
- barrier.

Files on disk are a map from path to checkpoint bundle.

Modules:

- `Names` (names.dfy): Python's `str(n)` and `f"{n:03d}"` for non-negative integers, the `checkpoint_{n}.pth` / `final.pth` / `iter_{n:03d}.png` names, and their injectivity.
- `Arith` (arith.dfy): small integer-arithmetic facts used for the index maps.
- `MainLoop` (mainloop.dfy): the specification functions.
  - `ResumeSpec`, `NextBatch` and `IterStep`.
  - A generic `Loop` with `RunSpec` and `MainSpec` over it.
  - Trace projections `Select`.
  - The reference schedules that the trace is compared against: `Range`, `Where`, `LoggedSteps`, `SavedCheckpoints`, `SampledFiles` and `CyclicReads`.
- `LoopProperties` (loopprops.dfy): lemmas about one iteration, about any loop, and about the runs of `main`.
- `Trainer` (trainer.dfy): the driver as a class whose fields the methods update in place.
  - Each method is proved to leave exactly the state and trace that the corresponding `MainLoop` function specifies.
  - `Train` is the `for cur_iter` loop with its invariant.
- `Evaluation` (evaluation.dfy): the labels of `evaluate` and its timestep loop.
- `Sampler` (sampler.dfy): the EDM sampler.
  - `SampleLoop` and `SampleStep` are methods proved against the functions `Trajectory` and `StepSpec`.
  - The lemmas state the shape of the computation.
- `Grid` (grid.dfy): the byte quantisation and the reshape/permute of the output grid.

Behaviour of the code that a reader might expect to be otherwise:

- **`num_steps == 1`.** One might expect a single plain Euler step. In the code, line 47 of `modeling/generate.py` divides `0 / 0`, so every level is NaN. Exact reals have no NaN, so the model requires `num_steps != 1`.
- **`num_steps == 0`.** The schedule `t_steps` is empty, because `zeros_like(t_steps[:1])` is empty. Line 52 then raises on `t_steps[0]`. `GenerateImageGrid` returns `Err(EmptySchedule)`.
- **Evaluation failure.** With `MODEL.LABEL_DIM == 1` and `EVAL.BATCH_SIZE >= 2`, the label construction of `evaluate` (`one_hot`, main.py:65-68) raises. This is the only way `evaluate` fails in the model (see "## Left out"). The first sampling iteration then ends `main` after `store` and `copy_to` but before `restore`, so the live model is left holding the EMA weights. The model returns `EvaluationFailed` there (`RunAbortsAtFirstSample`), and the generate-only path fails the same way.
- **Resuming.** A resumed run does not repeat an uninterrupted one batch for batch. The code creates a fresh iterator, so a resumed run reads the loader from its first batch again. `ResumeCompletesRun` proves that every iteration number is trained exactly once. `RunReadsCyclically` states which batch each iteration reads, counted from the resumed run's own start.

## Model

| member | source | states |
|---|---|---|
| Names.Decimal | main.py:286 | `str(n)` has at least one digit, all digits, and no leading zero |
| Names.DecimalRoundTrip | main.py:286 | reading the decimal notation of `n` back gives `n` |
| Names.Padded | main.py:292 | `f"{n:03d}"` is all digits, exactly `max(width, len(str(n)))` long: zeros followed by `str(n)` |
| Names.PaddedRoundTrip | main.py:292 | the zero-padded notation reads back as `n` |
| Names.JoinPathInjective | main.py:288 | two paths in the same directory are equal iff their file names are |
| Names.CheckpointNameFinal | main.py:285-287 | the checkpoint is named `final.pth` iff it is written on iteration `max_iter - 1` |
| Names.CheckpointNameInjective | main.py:285-287 | two iterations never write checkpoints under the same name |
| Names.SampleNameInjective | main.py:292 | sample names are equal iff the iterations are, and the number has at least three digits |
| Names.CheckpointName | main.py:285-287 | `checkpoint_{cur + 1}.pth`, or `final.pth` on the last iteration; stated by `CheckpointNameFinal` and `CheckpointNameInjective` |
| Names.SampleName | main.py:292 | `iter_{cur + 1:03d}.png`; stated by `SampleNameInjective` |
| Names.JoinPath | main.py:288 | `osp.join(dir, sub, name)`; stated by `JoinPathInjective` |
| MainLoop.ResumeSpec | main.py:184-194 | fails with `ResumeNotFound` iff a resume path is set and missing; otherwise the EMA state comes from the checkpoint, and model, optimizer and scheduler are also restored with `start_iter = iter + 1` unless generate-only (then `start_iter = 0` and they are untouched); no resume leaves everything as it is |
| MainLoop.NextBatch | main.py:226-230 | a fetch fails iff the loader is empty; it reads the current position unless the iterator is exhausted, in which case it restarts on the first batch of the next pass |
| MainLoop.CursorStep | main.py:221-230 | from a fresh iterator over `n` batches the `k`-th fetch reads batch `k % n` of pass `k / n` |
| MainLoop.IterStep | main.py:223-298 | one loop body: the fetch, the prediction-type check, the training step, the EMA step on sync, logging, the checkpoint, and sampling, which ends the iteration with `EvaluationFailed` when the label construction of `evaluate` raises; its properties are the `LoopProperties.IterStep*` lemmas |
| MainLoop.RunSpec | main.py:223-298 | `for cur_iter in range(lo, hi)` over `IterStep`, stopping at the first error; its properties are the `LoopProperties.Run*` lemmas |
| MainLoop.MainSpec | main.py:184-298 | the resume block, then the generate-only path or the training loop on a fresh iterator; its properties are `GenerateOnlyEvaluatesOnce`, `TrainingRunsFromStartIter` and `MissingResumeTouchesNothing` |
| LoopProperties.IterStepShape | main.py:223-298 | the order of a successful iteration's events (fetch, train, log, save, sample, barrier), read off `IterStep`; the schedule facts are in the `IterStep*` lemmas below |
| LoopProperties.IterStepTraining | main.py:226-257 | a successful iteration fetches once and calls `optimizer.step()` once; it sanitises gradients and steps the EMA exactly when gradients are synchronised, raising the EMA step count by one exactly then |
| LoopProperties.IterStepLogs | main.py:262-273 | a successful iteration logs step `cur + 1` exactly when `(cur + 1) % LOG_INTERVAL == 0` on the main process |
| LoopProperties.IterStepSaves | main.py:275-288 | a successful iteration writes one checkpoint, under its file name, exactly on the save schedule |
| LoopProperties.IterStepSamples | main.py:291-297 | a successful iteration calls `evaluate` with its sample file exactly on the sample schedule |
| LoopProperties.IterStepDisk | main.py:275-288 | the only file an iteration changes is its own checkpoint, which holds the iteration's final model, optimizer, scheduler, EMA state and `iter = cur_iter` |
| LoopProperties.IterStepSucceeds | main.py:226-297 | with a non-empty loader and the `"epsilon"` prediction type an iteration fails iff it samples and the label construction of `evaluate` raises, and then with `EvaluationFailed`; the iterator never points past the loader |
| LoopProperties.EvalFailsIff | main.py:65-68 | the label construction of `evaluate` (main.py:65-68) raises iff `MODEL.LABEL_DIM == 1` and `EVAL.BATCH_SIZE >= 2` |
| LoopProperties.IterStepEvaluationFails | main.py:291-297 | a sampling iteration whose `evaluate` fails in its label construction fails with `EvaluationFailed` after its fetch and training, with one `evaluate` call and no `restore`, leaving the model holding the EMA weights |
| LoopProperties.IterStepRestores | main.py:291-297 | a successful iteration restores the live parameters exactly when it samples |
| LoopProperties.IterStepReadsAt | main.py:226-230 | an iteration that does not fail in `evaluate` and starts where `k` fetches leave the iterator reads batch `k % n` of pass `k / n` and leaves it where `k + 1` fetches do |
| LoopProperties.IterStepRejects | main.py:242-245 | any other prediction type stops the iteration right after its fetch, with the training state unchanged |
| LoopProperties.LoopStopsAtError | main.py:223 | the first failing iteration ends the loop; later iterations change nothing |
| LoopProperties.LoopSplit | main.py:223 | running `[lo, m)` and then `[m, hi)` from the state reached is running `[lo, hi)` |
| LoopProperties.LoopSelect | main.py:223 | if each iteration's trace shows `g(cur)` to a selector, the whole loop shows `g(lo) + ... + g(hi - 1)` |
| LoopProperties.LoopSelectFrom | main.py:223 | a state property that makes an iteration succeed and holds again after it makes the whole loop succeed, with the selected events of each iteration in order |
| LoopProperties.LoopPreserves | main.py:223 | a state property every successful iteration keeps holds at the end of the loop |
| LoopProperties.LoopCount | main.py:223 | a counter each iteration raises by its number of selected events ends raised by the loop's number of them |
| LoopProperties.RunSucceeds | main.py:223-297 | with a non-empty loader and `"epsilon"` exhaustion of the data never stops training: a run fails iff the label construction of `evaluate` raises and some iteration of `[lo, hi)` samples, and then with `EvaluationFailed` |
| LoopProperties.LoopFailsIff | main.py:223 | a loop whose iterations fail exactly on the bad iteration numbers fails iff its range holds a bad one, with that error |
| LoopProperties.RunAbortsAtFirstSample | main.py:291-297 | when the label construction of `evaluate` raises, a run stops at its first sampling iteration `k`: it fetched `lo .. k`, called `evaluate` once, never restored, and the model holds the EMA weights |
| LoopProperties.RunFetches | main.py:223 | a run fetches for every iteration of `[lo, hi)` exactly once, in increasing order |
| LoopProperties.RunOptimizes | main.py:252-254 | a run calls `optimizer.step()` once per iteration, in increasing order |
| LoopProperties.RunSanitizes | main.py:248-251 | gradients are sanitised on exactly the synchronised iterations, in order |
| LoopProperties.RunEmaSteps | main.py:256-257 | the EMA steps on exactly the synchronised iterations, in order |
| LoopProperties.RunEmaCount | main.py:256-257 | the EMA step counter grows by exactly the number of synchronised iterations |
| LoopProperties.RunSchedule | main.py:223-257 | the five facts above together for one run |
| LoopProperties.RunLogs | main.py:262-273 | the steps a run logs are exactly the reference log schedule |
| LoopProperties.RunCheckpoints | main.py:275-288 | the checkpoints a run writes, with their paths, are exactly the reference save schedule |
| LoopProperties.RunSamples | main.py:291-297 | the files a run calls `evaluate` with are exactly the reference sample schedule |
| LoopProperties.RunRestores | main.py:294-297 | a successful run calls `restore` after exactly its sampling iterations, in order |
| LoopProperties.RunReadsCyclically | main.py:221-230 | when `evaluate` does not raise, from a fresh iterator iteration `i` of a run started at `lo` reads batch `(i - lo) % n` of pass `(i - lo) / n`, and the iterator ends where `hi - lo` fetches leave it |
| LoopProperties.RunRejectsPrediction | main.py:242-245 | a prediction type other than `"epsilon"` fails the first iteration with `UnsupportedPrediction` after one fetch, before any optimizer step, checkpoint or sample, with model, optimizer, scheduler, EMA and disk unchanged |
| LoopProperties.RunRejectsEmptyLoader | main.py:226-230 | an empty loader fails the first fetch before anything is trained, leaving the state unchanged |
| LoopProperties.SavedCheckpointsMember | main.py:275-288 | `(i, p)` is in the reference save schedule iff `lo <= i < hi`, `i` is on the schedule and `p` is its path |
| LoopProperties.CheckpointWrittenIff | main.py:275-288 | during a run a checkpoint is written at iteration `i` iff `(i + 1) % SAVE_INTERVAL == 0` or `i == max_iter - 1` on the main process, to `checkpoints/final.pth` on the last iteration and `checkpoints/checkpoint_{i + 1}.pth` otherwise |
| LoopProperties.SamplePathInjective | main.py:292 | two iterations write their sample grids to the same path iff they are the same iteration |
| LoopProperties.SampledFilesMember | main.py:291-292 | iteration `i`'s sample path is in the reference sample schedule iff `lo <= i < hi` and `i` is on the schedule |
| LoopProperties.SampleWrittenIff | main.py:291-297 | during a successful run `evaluate` is called with `generate/iter_{i + 1:03d}.png` iff `(i + 1) % SAMPLE_INTERVAL == 0` or `i == max_iter - 1` (the main process then saves it) |
| LoopProperties.IterStepKeepsCheckpoint | main.py:285-288 | an iteration after `k` leaves the checkpoint file of iteration `k` as it was |
| LoopProperties.CheckpointPersists | main.py:275-288 | the checkpoint written at iteration `k` is still on disk at the end of the run and holds exactly the state at the end of iteration `k` |
| LoopProperties.ResumeFromCheckpoint | main.py:184-194 | resuming from the checkpoint of iteration `k` restores the model, optimizer, scheduler and EMA state at the end of iteration `k` and starts at `k + 1` |
| LoopProperties.ResumeCompletesRun | main.py:194 | a run through checkpoint iteration `k` followed by a resumed run from that checkpoint trains every iteration of `[lo, max_iter)` exactly once, in order: none repeated, none skipped |
| LoopProperties.MissingResumeTouchesNothing | main.py:185-186 | a missing resume path fails with `ResumeNotFound` before any state is loaded or anything runs |
| LoopProperties.GenerateOnlyEvaluatesOnce | main.py:210-214 | generate-only mode loads only the EMA state, copies it into the model, calls `evaluate` exactly once with `--save-file-name` and fails only when the label construction of `evaluate` raises; it fetches nothing, steps nothing, saves nothing |
| LoopProperties.TrainingRunsFromStartIter | main.py:184-223 | training mode fails only when the label construction of `evaluate` raises on a sampling iteration of `start_iter .. max_iter - 1`, and otherwise trains exactly those iterations, with `start_iter` the checkpoint's `iter + 1` when resuming and 0 otherwise |
| Trainer.Trainer.constructor | main.py:153-159 | a fresh tracker: the EMA shadow is a copy of the model with no EMA steps taken, the iterator is at the start and the trace is empty |
| Trainer.Trainer.Resume | main.py:184-194 | leaves exactly the state `ResumeSpec` gives, or the error with nothing changed |
| Trainer.Trainer.Next | main.py:226-230 | reads exactly the batch `NextBatch` gives, moves only the iterator and records the fetch and any restart |
| Trainer.Trainer.SampleWithEma | main.py:293-297 | the evaluation sees the EMA weights; it fails iff the label construction of `evaluate` raises, and then the model keeps the EMA weights and no `restore` is recorded; otherwise the live parameters come back equal |
| Trainer.Trainer.SampleAndWait | main.py:291-298 | the sample bracket on the sample schedule and then the barrier, or, when the label construction of `evaluate` raises, the aborted bracket, the EMA weights in the model and `EvaluationFailed` |
| Trainer.Trainer.TrainOn | main.py:239-257 | the new model, optimizer and scheduler are the training step's output, the EMA advances exactly on sync, and the trace gains the sanitise / optimizer / EMA events |
| Trainer.Trainer.Report | main.py:262-298 | the disk gains the iteration's checkpoint exactly on the save schedule; the trace gains the log and save events, then the sample bracket and barrier, or the aborted bracket and `EvaluationFailed` |
| Trainer.Trainer.Iteration | main.py:224-298 | leaves exactly the state, trace and error of `IterStep` |
| Trainer.Trainer.Train | main.py:219-298 | the `for cur_iter` loop leaves exactly the state, trace and error of `RunSpec` from a fresh iterator |
| Trainer.Trainer.Run | main.py:184-298 | `main` from the resume block on leaves exactly the state, trace and error of `MainSpec` |
| Evaluation.ClassIndices | main.py:66 | the first half of the batch has class 0, the second half class 1, with `2 * (n // 2)` entries |
| Evaluation.EvalLabels | main.py:65-74 | the labels of `evaluate`, or the `one_hot` failure; stated by `LabelsShape` |
| Evaluation.LabelsShape | main.py:65-74 | no labels iff `LABEL_DIM <= 0`; `one_hot` fails iff `LABEL_DIM == 1` and the batch has two or more images; otherwise row `i` is one-hot at class 0 in the first half and 1 in the second |
| Evaluation.OddBatchLabels | main.py:66-68 | an odd batch of `n` images gets `n - 1` label rows |
| Evaluation.DenoiseSplit | main.py:76-84 | denoising through timesteps `a` and then `b` is denoising through `a + b` |
| Evaluation.DenoiseIgnoresEta | main.py:79-84 | only the DDIM scheduler is given `EVAL.ETA`; with any other the result does not depend on it |
| Evaluation.Update | main.py:76-84 | one U-Net call and one scheduler step at timestep `t`, DDIM with `EVAL.ETA` or the plain step |
| Evaluation.Denoised | main.py:76-84 | the images after `Update` at each timestep in order; stated by `DenoiseSplit` and `Evaluate` |
| Evaluation.Evaluate | main.py:65-84 | a label error is raised before the U-Net is called; otherwise the U-Net is evaluated once per timestep in the scheduler's order and the result is the images denoised through all of them |
| Sampler.NoiseRange | modeling/generate.py:40-41 | the effective range is the larger of the two minima and the smaller of the two maxima |
| Sampler.Levels | modeling/generate.py:44-48 | one level per step |
| Sampler.TSteps | modeling/generate.py:44-49 | the Karras level discretisation with the final 0, or its error; stated by `TStepsShape`, `TStepsPositive` and `TStepsSafe` |
| Sampler.TStepsShape | modeling/generate.py:44-49 | `t_steps` fails iff `num_steps < 0` or `rho == 0`; it is empty for `num_steps == 0`; otherwise it has `num_steps + 1` entries, the rounded levels followed by exactly 0 |
| Sampler.TStepsPositive | modeling/generate.py:40-49 | with positive noise bounds, a positive power of a positive base and a rounding that keeps levels positive, every level before the final 0 is positive |
| Sampler.TStepsSafe | modeling/generate.py:49-71 | under those laws and `S_churn >= 0`, no step divides by zero: neither `t_hat` nor any `t_next` the correction divides by is 0 |
| Sampler.GammaBounds | modeling/generate.py:59 | `gamma <= np.sqrt(2) - 1`, with the cap written as the shortest decimal that rounds to that double; it is 0 outside `[S_min, S_max]` and on every step when `S_churn == 0`, and non-negative when `S_churn >= 0` |
| Sampler.Gamma | modeling/generate.py:59 | the churn factor of a step; stated by `GammaBounds` |
| Sampler.THat | modeling/generate.py:60 | the raised level `round_sigma(t_cur + gamma * t_cur)` |
| Sampler.Churned | modeling/generate.py:61 | `x_hat`: `x_cur` plus `sqrt(t_hat^2 - t_cur^2) * S_noise` times the draws, of the same length; stated by `ChurnVanishes` |
| Sampler.NetSigmasOrder | modeling/generate.py:53-72 | the network is evaluated `2 * num_steps - 1` times: at `t_hat` of step `i`, then at `t[i + 1]` on every step but the last (so never at the final 0) |
| Sampler.LastStepIsDenoised | modeling/generate.py:63-66 | on the last step `t_next == 0`, so in exact arithmetic the Euler step lands on the denoiser's output |
| Sampler.ChurnVanishes | modeling/generate.py:59-61 | with `S_churn == 0` and a level `round_sigma` keeps, no noise is added |
| Sampler.NoChurnIgnoresDraws | modeling/generate.py:53-72 | with `S_churn == 0` and levels `round_sigma` keeps, the sampled images do not depend on the churn draws |
| Sampler.StepSpec | modeling/generate.py:56-72 | one loop step: churn, Euler step, and the Heun correction on every step but the last; stated by `LastStepIsDenoised` and `SampleStep` |
| Sampler.Trajectory | modeling/generate.py:52-72 | the images after the first `k` steps; stated by `SampleLoop` and `NoChurnIgnoresDraws` |
| Sampler.SampleStep | modeling/generate.py:56-72 | one pass of the loop body computes `StepSpec` and evaluates the network at exactly `StepSigmas` |
| Sampler.SampleLoop | modeling/generate.py:52-72 | the loop runs `num_steps` steps over consecutive pairs of levels and returns `Trajectory` after all of them, with the network's noise levels in order |
| Sampler.GenerateImageGrid | modeling/generate.py:25-78 | errors propagate from `t_steps` (and an empty schedule fails); otherwise the result is the byte grid of the trajectory from `gridw * gridh` latents scaled by `t[0]`, and the network is evaluated at `NetSigmas` |
| Sampler.Quantized | modeling/generate.py:76 | one byte per value, each one `Grid.Quantize` of the value at the same index, so in `[0, 255]` |
| Grid.Quantize | modeling/generate.py:76 | the byte of `(x * 127.5 + 128).clip(0, 255).to(uint8)` is in `[0, 255]` and is the floor of the clipped value: the cast truncates |
| Grid.QuantizeSaturates | modeling/generate.py:76 | values mapping below 0 or above 255 saturate |
| Grid.QuantizeInverse | modeling/generate.py:76 | byte `q` is produced from the value `(q - 128) / 127.5`, so every byte value is reachable |
| Grid.QuantizeMonotone | modeling/generate.py:76 | larger values never give smaller bytes |
| Grid.TileGrid | modeling/generate.py:77-78 | the grid has `gridh * R` rows of `gridw * R` columns of `C` channels |
| Grid.TileGridReads | modeling/generate.py:77-78 | grid value `(r, c, ch)` is value `(ch, r % R, c % R)` of batch image `(r / R) * gridw + c / R`, read off `TileGrid`; the layout itself is stated by `TileGridPlacesEveryPixel` |
| Grid.TileGridPlacesEveryPixel | modeling/generate.py:77-78 | every value of batch image `gr * gridw + gc` appears at cell `(gr, gc)` of the grid, rows and columns in order |

## Left out

- The diffusers and accelerate internals are not modelled: `add_noise`, `set_timesteps` and `step` of the schedulers, the `EMAModel` decay law, `get_constant_schedule_with_warmup`, `prepare`, `gather`, gradient accumulation, mixed precision and `main_process_first`. They are function parameters, and the distributed runtime appears only through `sync_gradients` and `is_main_process`. The barrier `wait_for_everyone` is one trace event. Multi-process concurrency is not modelled.
- The network forward pass, the MSE loss, AdamW and `nan_to_num` are folded into one `train` function parameter. The `OptimizerStep` event records the `optimizer.step()` call made on every iteration. Under gradient accumulation, only the call on a sync iteration changes the parameters. That effect is inside `train`, which is given the `sync_gradients` flag. The loss value and its floating-point behaviour are not modelled.
- Random draws (`torch.randint`, `randn`, `randn_like`, the seed) are parameters. The class labels `generate_image_grid` draws once are folded into its `denoise` parameter.
- `torch.save` / `torch.load` are a map from path to checkpoint bundle. `os.makedirs`, PIL saving and the file contents' encoding are not modelled. `osp.join` is written as `dir + "/" + sub + "/" + name`.
- The pretrained-weights load is not modelled. It runs only when no resume file is set, and it touches only the model.
- Logging text, the ETA string, meters and `tqdm` are not modelled.
- `MainLoop.EvalFails`: the only failure of `evaluate` in the model is its label construction (`one_hot`, main.py:65-68). The loop takes the U-Net call, the scheduler steps, `gather` and `make_image_grid` as never raising. `make_image_grid(cols=4, rows=len // 4)` at main.py:92 raises when the image count is not a multiple of 4, and a U-Net given an odd batch at main.py:78 may raise; neither is modelled.
- `Params` stands for the trainable (`requires_grad`) parameters. `copy_to` (main.py:212, 295) writes only those, while `store`, `restore` and `state_dict` cover all parameters. Buffers and frozen parameters are not modelled.
- The CLIP tokenizer and text ids are not modelled. The `.squeeze()` of the labels is not modelled: rows stay one per image even when the batch or `LABEL_DIM` is 1.
- The gather, clamp and normalisation of `evaluate` after its loop, its saving of the grid only on the main process (the `Evaluate` event records the call on every process), and `make_image_grid(cols=4)`, are not modelled. `Image.fromarray(image, "RGB")` requiring three channels is not modelled.
- A zero LOG / SAVE / SAMPLE interval (a `ZeroDivisionError` in the source) is excluded: the intervals have a positive type. A negative interval, which Python's `%` treats like its absolute value on the schedule tests, is excluded by the same type.
- A hand-made checkpoint with a negative `iter` is excluded, because `iter` is a natural number.
- Sampler.TSteps: requires `num_steps != 1`, because the source divides `0 / 0` there and every level becomes NaN, which exact reals cannot express.
- Sampler.GenerateImageGrid: requires every `t_hat`, and every `t_next` a correction divides by, to be non-zero. The source would produce inf or NaN there. `TStepsSafe` gives conditions under which this holds.
- Sampler: the arithmetic is exact: the `float64` rounding, the `sqrt` of a negative difference and the uint8 cast of NaN are not modelled. `pow`, `sqrt` and `round_sigma` are parameters.
- Evaluation.Evaluate: `plainStep` and `ddimStep` are deterministic functions. The DDPM step and DDIM with `eta > 0` draw noise inside the scheduler, and those draws are not modelled separately.
- Evaluation.Evaluate: the evaluation inside the training loop and the generate-only path is not this method. The loop uses only its label outcome, through `EvalFails`, to decide whether the label construction of the label construction of `evaluate` raises.
- Evaluation.Evaluate: an odd `EVAL.BATCH_SIZE` gives one label row fewer than images, as `OddBatchLabels` shows. Whether the U-Net then accepts the mismatched labels is up to the U-Net parameter.
