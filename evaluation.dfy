/** The sampling pass of `evaluate` (main.py:41-93): the class labels it conditions on and
    its loop over the scheduler's timesteps. The U-Net, the scheduler's `set_timesteps` and
    `step`, and the initial Gaussian images are parameters. */
module Evaluation {

  datatype Outcome<T> = Ok(value: T) | Failed(error: EvalError)

  /** `one_hot` raises when a class index is not below `num_classes`. */
  datatype EvalError = ClassOutOfRange

  /** No labels (`LABEL_DIM <= 0`), or one one-hot row of `LABEL_DIM` reals per label. */
  datatype Labels = NoLabels | OneHot(rows: seq<seq<real>>)

  function Repeat(k: nat, n: nat): (r: seq<nat>)
    ensures |r| == n && forall i :: 0 <= i < n ==> r[i] == k
  {
    if n == 0 then [] else Repeat(k, n - 1) + [k]
  }

  /** `[0] * (n // 2) + [1] * (n // 2)`, cut to its first `n` entries: the first half of the
      batch is class 0, the second half class 1, and an odd batch has no label for its last
      image. */
  function ClassIndices(n: nat): (r: seq<nat>)
    ensures |r| == 2 * (n / 2) && |r| <= n
    ensures forall i :: 0 <= i < |r| ==> r[i] == if i < n / 2 then 0 else 1
  {
    var all := Repeat(0, n / 2) + Repeat(1, n / 2);
    all[..if |all| < n then |all| else n]
  }

  function OneHotRow(k: nat, dim: nat): seq<real>
  {
    seq(dim, j => if j == k then 1.0 else 0.0)
  }

  /** The labels of an evaluation batch of `n` images (main.py:66-73). */
  function EvalLabels(n: nat, labelDim: int): Outcome<Labels>
  {
    if labelDim <= 0 then Ok(NoLabels)
    else
      var idx := ClassIndices(n);
      if exists i :: 0 <= i < |idx| && idx[i] >= labelDim then Failed(ClassOutOfRange)
      else Ok(OneHot(seq(|idx|, i requires 0 <= i < |idx| => OneHotRow(idx[i], labelDim))))
  }

  /** Without a label dimension there are no labels; a single class cannot encode the
      label 1 of the second half, so `num_classes = 1` fails exactly when the batch has two
      or more images; otherwise row `i` is one-hot at class 0 in the first half and at
      class 1 in the second. */
  lemma LabelsShape(n: nat, labelDim: int)
    ensures EvalLabels(n, labelDim) == Ok(NoLabels) <==> labelDim <= 0
    ensures EvalLabels(n, labelDim).Failed? <==> labelDim == 1 && n >= 2
    ensures labelDim >= 1 && EvalLabels(n, labelDim).Ok? ==>
      var rows := EvalLabels(n, labelDim).value.rows;
      && EvalLabels(n, labelDim).value.OneHot?
      && |rows| == 2 * (n / 2)
      && (forall i :: 0 <= i < |rows| ==> |rows[i]| == labelDim)
      && (forall i, j :: 0 <= i < |rows| && 0 <= j < labelDim ==>
            rows[i][j] == if j == (if i < n / 2 then 0 else 1) then 1.0 else 0.0)
  {
    var idx := ClassIndices(n);
    if labelDim == 1 && n >= 2 {
      assert idx[n / 2] >= labelDim;
    }
  }

  /** An odd batch gets one label row fewer than it has images. */
  lemma OddBatchLabels(n: nat, labelDim: int)
    requires n % 2 == 1 && labelDim >= 2
    ensures EvalLabels(n, labelDim).Ok? && EvalLabels(n, labelDim).value.OneHot?
    ensures |EvalLabels(n, labelDim).value.rows| == n - 1
  {
    LabelsShape(n, labelDim);
  }

  datatype EvalConfig = EvalConfig(
    batchSize: nat,      // EVAL.BATCH_SIZE
    labelDim: int,       // MODEL.LABEL_DIM
    sampleSteps: nat,    // EVAL.SAMPLE_STEPS
    scheduler: string,   // EVAL.SCHEDULER
    eta: real)           // EVAL.ETA

  /** The U-Net and the noise scheduler, as functions of what they are given. */
  datatype Pipeline = Pipeline(
    timesteps: nat -> seq<int>,                                  // `set_timesteps(steps).timesteps`
    unet: (seq<real>, int, Labels) -> seq<real>,                 // `unet(images, t, ids, class_labels)`
    ddimStep: (seq<real>, int, seq<real>, real) -> seq<real>,    // `step(out, t, images, clipped, eta)`
    plainStep: (seq<real>, int, seq<real>) -> seq<real>)         // `step(out, t, images)`

  /** One pass of the loop body at timestep `t` (main.py:76-82). */
  function Update(cfg: EvalConfig, p: Pipeline, labels: Labels, x: seq<real>, t: int): seq<real>
  {
    var out := p.unet(x, t, labels);
    if cfg.scheduler == "ddim" then p.ddimStep(out, t, x, cfg.eta) else p.plainStep(out, t, x)
  }

  /** The images after denoising `x0` through the timesteps `ts` in order. */
  function Denoised(cfg: EvalConfig, p: Pipeline, labels: Labels, x0: seq<real>, ts: seq<int>): seq<real>
    decreases |ts|
  {
    if ts == [] then x0 else Update(cfg, p, labels, Denoised(cfg, p, labels, x0, ts[..|ts| - 1]), ts[|ts| - 1])
  }

  /** Denoising through `a` and then through `b` is denoising through `a + b`. */
  lemma {:induction false} DenoiseSplit(cfg: EvalConfig, p: Pipeline, labels: Labels, x0: seq<real>, a: seq<int>, b: seq<int>)
    ensures Denoised(cfg, p, labels, x0, a + b) == Denoised(cfg, p, labels, Denoised(cfg, p, labels, x0, a), b)
    decreases |b|
  {
    if b == [] {
      assert a + b == a;
    } else {
      var b' := b[..|b| - 1];
      assert (a + b)[..|a + b| - 1] == a + b';
      DenoiseSplit(cfg, p, labels, x0, a, b');
    }
  }

  /** Only the DDIM scheduler is given `EVAL.ETA`: with any other scheduler the result does not
      depend on it. */
  lemma {:induction false} DenoiseIgnoresEta(cfg: EvalConfig, p: Pipeline, labels: Labels, x0: seq<real>, ts: seq<int>, eta: real)
    requires cfg.scheduler != "ddim"
    ensures Denoised(cfg, p, labels, x0, ts) == Denoised(cfg.(eta := eta), p, labels, x0, ts)
    decreases |ts|
  {
    if ts != [] {
      DenoiseIgnoresEta(cfg, p, labels, x0, ts[..|ts| - 1], eta);
    }
  }

  /** `evaluate` up to the gathering of the images: the labels, then one U-Net evaluation and
      one scheduler step per timestep, in the scheduler's order. `noise` is the initial
      `torch.randn` batch; `calls` lists the timesteps the U-Net was evaluated at. A label
      error is raised before the U-Net is called. */
  method Evaluate(cfg: EvalConfig, p: Pipeline, noise: seq<real>) returns (r: Outcome<seq<real>>, calls: seq<int>)
    ensures var labels := EvalLabels(cfg.batchSize, cfg.labelDim);
      && (labels.Failed? ==> r == Failed(labels.error) && calls == [])
      && (labels.Ok? ==> r == Ok(Denoised(cfg, p, labels.value, noise, p.timesteps(cfg.sampleSteps)))
                         && calls == p.timesteps(cfg.sampleSteps))
  {
    var labels := EvalLabels(cfg.batchSize, cfg.labelDim);
    if labels.Failed? {
      return Failed(labels.error), [];
    }
    var ts := p.timesteps(cfg.sampleSteps);
    var images := noise;
    calls := [];
    var k := 0;
    while k < |ts|
      invariant 0 <= k <= |ts|
      invariant images == Denoised(cfg, p, labels.value, noise, ts[..k])
      invariant calls == ts[..k]
    {
      var t := ts[k];
      var out := p.unet(images, t, labels.value);
      if cfg.scheduler == "ddim" {
        images := p.ddimStep(out, t, images, cfg.eta);
      } else {
        images := p.plainStep(out, t, images);
      }
      assert ts[..k + 1][..k] == ts[..k];
      calls := calls + [t];
      k := k + 1;
    }
    assert ts[..k] == ts;
    r := Ok(images);
  }
}
