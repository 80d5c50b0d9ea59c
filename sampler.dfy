/** `generate_image_grid` (modeling/generate.py:8-81): the EDM sampler with stochastic churn,
    an Euler step and Heun's second-order correction, over exact reals. The network, its
    `round_sigma`, the power and square-root functions and the Gaussian draws are parameters;
    each image batch is one flat sequence of values. */
module Sampler {
  import Grid

  /** A denoiser maps an image batch and a noise level to a batch of the same shape. */
  type Denoiser = f: (seq<real>, real) -> seq<real> | forall x: seq<real>, t: real :: |f(x, t)| == |x|
    witness (x: seq<real>, t: real) => x

  datatype Net = Net(
    sigmaMin: real,                // net.sigma_min
    sigmaMax: real,                // net.sigma_max
    imgChannels: nat,              // net.img_channels
    imgResolution: nat,            // net.img_resolution
    roundSigma: real -> real,      // net.round_sigma
    denoise: Denoiser)             // net(x, t, class_labels) with the labels drawn once

  /** Floating-point `**` and `sqrt`. */
  datatype Maths = Maths(pow: (real, real) -> real, sqrt: real -> real)

  datatype Settings = Settings(
    gridw: nat, gridh: nat, numSteps: int,
    sigmaMin: real, sigmaMax: real, rho: real,
    sChurn: real, sMin: real, sMax: real, sNoise: real)

  /** The Gaussian draws: value `j` of the latents, and value `j` of the churn noise drawn on
      step `i`. */
  datatype Draws = Draws(latent: nat -> real, churn: (nat, nat) -> real)

  /** `torch.arange` rejects a negative length; `1 / rho` raises for `rho == 0`; with
      `num_steps == 0` the schedule is empty and `t_steps[0]` raises. */
  datatype SampleError = NegativeStepCount | ZeroRho | EmptySchedule

  datatype Result<T> = Ok(value: T) | Err(error: SampleError)

  /** The shortest decimal that rounds to the double `np.sqrt(2) - 1` (it is within 1e-17 of
      that double and slightly above the exact `sqrt(2) - 1`): the cap on gamma. */
  const ChurnCap: real := 0.41421356237309515

  function Max(a: real, b: real): real { if a >= b then a else b }

  function Min(a: real, b: real): real { if a <= b then a else b }

  /** The noise levels the network supports (modeling/generate.py:40-41). */
  function NoiseRange(net: Net, s: Settings): (r: (real, real))
    ensures r.0 >= s.sigmaMin && r.0 >= net.sigmaMin && (r.0 == s.sigmaMin || r.0 == net.sigmaMin)
    ensures r.1 <= s.sigmaMax && r.1 <= net.sigmaMax && (r.1 == s.sigmaMax || r.1 == net.sigmaMax)
  {
    (Max(s.sigmaMin, net.sigmaMin), Min(s.sigmaMax, net.sigmaMax))
  }

  /** `(hi ** (1 / rho) + i / (n - 1) * (lo ** (1 / rho) - hi ** (1 / rho))) ** rho` for
      `i = 0 .. n - 1`. */
  function Levels(m: Maths, n: nat, lo: real, hi: real, rho: real): (r: seq<real>)
    requires n != 1 && rho != 0.0
    ensures |r| == n
  {
    if n == 0 then []
    else
      var a, b := m.pow(hi, 1.0 / rho), m.pow(lo, 1.0 / rho);
      seq(n, (i: int) => m.pow(Lerp(a, b, i, n - 1), rho))
  }

  /** `a + i / d * (b - a)`. */
  function Lerp(a: real, b: real, i: int, d: int): real
    requires d > 0
  {
    a + (i as real) / (d as real) * (b - a)
  }

  /** `t_steps`: the rounded levels followed by the final level 0 (modeling/generate.py:44-49).
      The 0 is `zeros_like(t_steps[:1])`, which is empty when there are no levels.
      `num_steps == 1` divides 0 by 0 and is excluded. */
  function TSteps(net: Net, m: Maths, s: Settings): Result<seq<real>>
    requires s.numSteps != 1
  {
    if s.numSteps < 0 then Err(NegativeStepCount)
    else if s.rho == 0.0 then Err(ZeroRho)
    else
      var range := NoiseRange(net, s);
      var lv := Levels(m, s.numSteps, range.0, range.1, s.rho);
      Ok(seq(s.numSteps, (i: int) requires 0 <= i < s.numSteps => net.roundSigma(lv[i])) +
         (if s.numSteps > 0 then [0.0] else []))
  }

  /** `t_steps` fails exactly for a negative step count or `rho == 0`; otherwise it is empty
      for `num_steps == 0`, and has `num_steps + 1` entries, the last exactly 0, for
      `num_steps >= 2`; entry `i < num_steps` is the rounded level `i`. */
  lemma TStepsShape(net: Net, m: Maths, s: Settings)
    requires s.numSteps != 1
    ensures TSteps(net, m, s).Err? <==> s.numSteps < 0 || s.rho == 0.0
    ensures TSteps(net, m, s).Ok? ==>
      var t := TSteps(net, m, s).value;
      var range := NoiseRange(net, s);
      && (s.numSteps == 0 ==> t == [])
      && (s.numSteps > 0 ==> |t| == s.numSteps + 1 && t[s.numSteps] == 0.0)
      && forall i :: 0 <= i < s.numSteps ==>
           t[i] == net.roundSigma(Levels(m, s.numSteps, range.0, range.1, s.rho)[i])
  {
  }

  /** With positive noise bounds, a power of a positive base that is positive and a rounding
      that keeps levels positive, every level before the final 0 is positive: the correction
      step never divides by zero. */
  lemma TStepsPositive(net: Net, m: Maths, s: Settings)
    requires s.numSteps != 1 && s.numSteps >= 0 && s.rho != 0.0
    requires s.sigmaMin > 0.0 || net.sigmaMin > 0.0
    requires s.sigmaMax > 0.0 && net.sigmaMax > 0.0
    requires forall b: real, e: real :: b > 0.0 ==> m.pow(b, e) > 0.0
    requires forall v: real :: v > 0.0 ==> net.roundSigma(v) > 0.0
    ensures forall i :: 0 <= i < s.numSteps ==> TSteps(net, m, s).value[i] > 0.0
  {
    var n := s.numSteps;
    var range := NoiseRange(net, s);
    var lv := Levels(m, n, range.0, range.1, s.rho);
    forall i | 0 <= i < n ensures lv[i] > 0.0 {
      LevelPositive(m, n, range.0, range.1, s.rho, i);
    }
  }

  /** Under the same laws, and with `S_churn >= 0`, no step divides by zero: `t_hat` is a
      rounded positive level, and every `t_next` a correction divides by is a level before
      the final 0. */
  lemma TStepsSafe(net: Net, m: Maths, s: Settings)
    requires s.numSteps >= 2 && s.rho != 0.0 && s.sChurn >= 0.0
    requires s.sigmaMin > 0.0 || net.sigmaMin > 0.0
    requires s.sigmaMax > 0.0 && net.sigmaMax > 0.0
    requires forall b: real, e: real :: b > 0.0 ==> m.pow(b, e) > 0.0
    requires forall v: real :: v > 0.0 ==> net.roundSigma(v) > 0.0
    ensures TSteps(net, m, s).Ok? && Safe(net, s, TSteps(net, m, s).value, s.numSteps)
  {
    var n := s.numSteps;
    var t := TSteps(net, m, s).value;
    TStepsPositive(net, m, s);
    forall i | 0 <= i < n ensures SafeStep(net, s, t, n, i) {
      GammaBounds(s, n, t[i]);
      var g := Gamma(s, n, t[i]);
      assert g * t[i] >= 0.0;
      assert THat(net, s, n, t[i]) > 0.0;
    }
  }

  lemma LevelPositive(m: Maths, n: nat, lo: real, hi: real, rho: real, i: nat)
    requires n != 1 && rho != 0.0 && i < n && lo > 0.0 && hi > 0.0
    requires forall b: real, e: real :: b > 0.0 ==> m.pow(b, e) > 0.0
    ensures Levels(m, n, lo, hi, rho)[i] > 0.0
  {
    var a, b := m.pow(hi, 1.0 / rho), m.pow(lo, 1.0 / rho);
    assert n >= 2;
    LerpPositive(a, b, i, n - 1);
    assert Levels(m, n, lo, hi, rho)[i] == m.pow(Lerp(a, b, i, n - 1), rho);
  }

  lemma LerpPositive(a: real, b: real, i: nat, d: nat)
    requires a > 0.0 && b > 0.0 && i <= d && d > 0
    ensures Lerp(a, b, i, d) > 0.0
  {
    UnitFraction(i, d);
    Between(a, b, (i as real) / (d as real));
  }

  lemma UnitFraction(i: nat, d: nat)
    requires i <= d && d > 0
    ensures 0.0 <= (i as real) / (d as real) <= 1.0
  {
  }

  /** A point between two positive reals is positive. */
  lemma Between(a: real, b: real, f: real)
    requires a > 0.0 && b > 0.0 && 0.0 <= f <= 1.0
    ensures a + f * (b - a) > 0.0
  {
    assert a + f * (b - a) == (1.0 - f) * a + f * b;
    if f < 1.0 {
      assert (1.0 - f) * a > 0.0;
      assert f * b >= 0.0;
    } else {
      assert f * b == b;
    }
  }

  /** The churn factor `gamma` at level `tCur` (modeling/generate.py:59). */
  function Gamma(s: Settings, n: nat, tCur: real): real
    requires n > 0
  {
    if s.sMin <= tCur <= s.sMax then Min(s.sChurn / (n as real), ChurnCap) else 0.0
  }

  /** `gamma` never exceeds `np.sqrt(2) - 1`; it is 0 outside `[S_min, S_max]` and on every step when
      `S_churn == 0`, and it is never negative when `S_churn` is not. */
  lemma GammaBounds(s: Settings, n: nat, tCur: real)
    requires n > 0
    ensures Gamma(s, n, tCur) <= ChurnCap
    ensures !(s.sMin <= tCur <= s.sMax) ==> Gamma(s, n, tCur) == 0.0
    ensures s.sChurn == 0.0 ==> Gamma(s, n, tCur) == 0.0
    ensures s.sChurn >= 0.0 ==> Gamma(s, n, tCur) >= 0.0
  {
  }

  /** `t_hat`: the level raised by the churn. */
  function THat(net: Net, s: Settings, n: nat, tCur: real): real
    requires n > 0
  {
    net.roundSigma(tCur + Gamma(s, n, tCur) * tCur)
  }

  /** `x_hat = x + sqrt(t_hat^2 - t_cur^2) * S_noise * eps_i`. */
  function Churned(net: Net, m: Maths, s: Settings, d: Draws, n: nat, i: nat, tCur: real, x: seq<real>): (r: seq<real>)
    requires n > 0
    ensures |r| == |x|
  {
    Perturbed(x, Spread(m, THat(net, s, n, tCur), tCur) * s.sNoise, d, i)
  }

  /** `sqrt(t_hat ** 2 - t_cur ** 2)`: the standard deviation of the added noise. */
  function Spread(m: Maths, tHat: real, tCur: real): real
  {
    m.sqrt(tHat * tHat - tCur * tCur)
  }

  /** `x + k * eps_i`. */
  function Perturbed(x: seq<real>, k: real, d: Draws, i: nat): (r: seq<real>)
    ensures |r| == |x|
  {
    seq(|x|, (j: int) requires 0 <= j < |x| => x[j] + k * d.churn(i, j))
  }

  /** `(x - denoised) / t`. */
  function Slope(x: seq<real>, den: seq<real>, t: real): (r: seq<real>)
    requires |den| == |x| && t != 0.0
    ensures |r| == |x|
  {
    seq(|x|, (j: int) requires 0 <= j < |x| => (x[j] - den[j]) / t)
  }

  /** `x + h * v`. */
  function Advance(x: seq<real>, h: real, v: seq<real>): (r: seq<real>)
    requires |v| == |x|
    ensures |r| == |x|
  {
    seq(|x|, (j: int) requires 0 <= j < |x| => x[j] + h * v[j])
  }

  /** `0.5 * u + 0.5 * v`. */
  function Average(u: seq<real>, v: seq<real>): (r: seq<real>)
    requires |v| == |u|
    ensures |r| == |u|
  {
    seq(|u|, (j: int) requires 0 <= j < |u| => 0.5 * u[j] + 0.5 * v[j])
  }

  /** Step `i` divides only by non-zero levels: `t_hat`, and `t_next` when it is corrected. */
  predicate SafeStep(net: Net, s: Settings, t: seq<real>, n: nat, i: nat)
    requires i < n && |t| == n + 1
  {
    THat(net, s, n, t[i]) != 0.0 && (i < n - 1 ==> t[i + 1] != 0.0)
  }

  predicate Safe(net: Net, s: Settings, t: seq<real>, n: nat)
  {
    |t| == n + 1 && forall i :: 0 <= i < n ==> SafeStep(net, s, t, n, i)
  }

  /** Sampling step `i` from `x` (modeling/generate.py:56-72). */
  function StepSpec(net: Net, m: Maths, s: Settings, d: Draws, t: seq<real>, n: nat, i: nat, x: seq<real>): (r: seq<real>)
    requires i < n && |t| == n + 1 && SafeStep(net, s, t, n, i)
    ensures |r| == |x|
  {
    var tCur, tNext := t[i], t[i + 1];
    var th := THat(net, s, n, tCur);
    var xh := Churned(net, m, s, d, n, i, tCur, x);
    var dCur := Slope(xh, net.denoise(xh, th), th);
    var xNext := Advance(xh, tNext - th, dCur);
    if i < n - 1 then
      var dPrime := Slope(xNext, net.denoise(xNext, tNext), tNext);
      Advance(xh, tNext - th, Average(dCur, dPrime))
    else xNext
  }

  /** The noise levels step `i` evaluates the network at: `t_hat`, then `t_next` for the
      correction. */
  function StepSigmas(net: Net, s: Settings, t: seq<real>, n: nat, i: nat): seq<real>
    requires i < n && |t| == n + 1
  {
    [THat(net, s, n, t[i])] + (if i < n - 1 then [t[i + 1]] else [])
  }

  /** The images after the first `k` steps from `x0`. */
  function Trajectory(net: Net, m: Maths, s: Settings, d: Draws, t: seq<real>, n: nat, x0: seq<real>, k: nat): (r: seq<real>)
    requires k <= n && Safe(net, s, t, n)
    ensures |r| == |x0|
  {
    if k == 0 then x0 else StepSpec(net, m, s, d, t, n, k - 1, Trajectory(net, m, s, d, t, n, x0, k - 1))
  }

  /** The noise levels of all network evaluations of the first `k` steps, in order. */
  function NetSigmas(net: Net, s: Settings, t: seq<real>, n: nat, k: nat): seq<real>
    requires k <= n && |t| == n + 1
  {
    if k == 0 then [] else NetSigmas(net, s, t, n, k - 1) + StepSigmas(net, s, t, n, k - 1)
  }

  /** Steps before the last evaluate the network twice and the last once: `2 n - 1`
      evaluations in all; evaluation `2 i` is at `t_hat` of step `i` and evaluation `2 i + 1`
      at the next level `t[i + 1]`, never at the final 0. */
  lemma {:induction false} NetSigmasOrder(net: Net, s: Settings, t: seq<real>, n: nat, k: nat)
    requires k <= n && |t| == n + 1
    ensures |NetSigmas(net, s, t, n, k)| == if k == n && n > 0 then 2 * k - 1 else 2 * k
    ensures forall i :: 0 <= i < k ==> NetSigmas(net, s, t, n, k)[2 * i] == THat(net, s, n, t[i])
    ensures forall i :: 0 <= i < k && i < n - 1 ==> NetSigmas(net, s, t, n, k)[2 * i + 1] == t[i + 1]
  {
    if k > 0 {
      NetSigmasOrder(net, s, t, n, k - 1);
      var a := NetSigmas(net, s, t, n, k - 1);
      var b := StepSigmas(net, s, t, n, k - 1);
      assert |a| == 2 * (k - 1);
      forall i | 0 <= i < k - 1 ensures (a + b)[2 * i] == a[2 * i] && (a + b)[2 * i + 1] == a[2 * i + 1] {
      }
      assert (a + b)[2 * (k - 1)] == b[0];
      if k - 1 < n - 1 {
        assert (a + b)[2 * (k - 1) + 1] == b[1];
      }
    }
  }

  /** On the last step `t_next` is 0, so in exact arithmetic the Euler step lands on the
      denoiser's output: `x_hat - t_hat * (x_hat - D) / t_hat == D`. */
  lemma LastStepIsDenoised(net: Net, m: Maths, s: Settings, d: Draws, t: seq<real>, n: nat, x0: seq<real>)
    requires n > 0 && Safe(net, s, t, n) && t[n] == 0.0
    ensures var x := Trajectory(net, m, s, d, t, n, x0, n - 1);
      var th := THat(net, s, n, t[n - 1]);
      var xh := Churned(net, m, s, d, n, n - 1, t[n - 1], x);
      Trajectory(net, m, s, d, t, n, x0, n) == net.denoise(xh, th)
  {
    var x := Trajectory(net, m, s, d, t, n, x0, n - 1);
    var th := THat(net, s, n, t[n - 1]);
    assert SafeStep(net, s, t, n, n - 1);
    var xh := Churned(net, m, s, d, n, n - 1, t[n - 1], x);
    var den := net.denoise(xh, th);
    var r := Trajectory(net, m, s, d, t, n, x0, n);
    assert r == Advance(xh, 0.0 - th, Slope(xh, den, th));
    forall j | 0 <= j < |xh| ensures r[j] == den[j] {
      assert r[j] == xh[j] + (0.0 - th) * ((xh[j] - den[j]) / th);
    }
  }

  /** Without churn, and with levels that `round_sigma` leaves unchanged, `t_hat == t_cur`, so
      the added noise is scaled by `sqrt(0) == 0`: the result does not depend on the churn
      draws. */
  lemma {:induction false} NoChurnIgnoresDraws(net: Net, m: Maths, s: Settings, d1: Draws, d2: Draws,
                                               t: seq<real>, n: nat, x0: seq<real>, k: nat)
    requires k <= n && Safe(net, s, t, n) && s.sChurn == 0.0 && m.sqrt(0.0) == 0.0
    requires forall i :: 0 <= i < n ==> net.roundSigma(t[i]) == t[i]
    ensures Trajectory(net, m, s, d1, t, n, x0, k) == Trajectory(net, m, s, d2, t, n, x0, k)
  {
    if k > 0 {
      NoChurnIgnoresDraws(net, m, s, d1, d2, t, n, x0, k - 1);
      var x := Trajectory(net, m, s, d1, t, n, x0, k - 1);
      ChurnVanishes(net, m, s, d1, n, k - 1, t[k - 1], x);
      ChurnVanishes(net, m, s, d2, n, k - 1, t[k - 1], x);
      StepSpecOfChurned(net, m, s, d1, d2, t, n, k - 1, x);
    }
  }

  /** With `S_churn == 0` and a level `round_sigma` leaves unchanged, the churn adds nothing. */
  lemma ChurnVanishes(net: Net, m: Maths, s: Settings, d: Draws, n: nat, i: nat, tCur: real, x: seq<real>)
    requires n > 0 && s.sChurn == 0.0 && m.sqrt(0.0) == 0.0 && net.roundSigma(tCur) == tCur
    ensures Churned(net, m, s, d, n, i, tCur, x) == x
  {
    GammaBounds(s, n, tCur);
    assert tCur + Gamma(s, n, tCur) * tCur == tCur;
    assert THat(net, s, n, tCur) == tCur;
    assert tCur * tCur - tCur * tCur == 0.0;
    assert Spread(m, tCur, tCur) == 0.0;
    var r := Perturbed(x, 0.0, d, i);
    forall j | 0 <= j < |x| ensures r[j] == x[j] {
      assert r[j] == x[j] + 0.0 * d.churn(i, j);
    }
  }

  /** A step sees the churn draws only through `x_hat`. */
  lemma StepSpecOfChurned(net: Net, m: Maths, s: Settings, d1: Draws, d2: Draws, t: seq<real>, n: nat, i: nat, x: seq<real>)
    requires i < n && |t| == n + 1 && SafeStep(net, s, t, n, i)
    requires Churned(net, m, s, d1, n, i, t[i], x) == Churned(net, m, s, d2, n, i, t[i], x)
    ensures StepSpec(net, m, s, d1, t, n, i, x) == StepSpec(net, m, s, d2, t, n, i, x)
  {
  }

  /** The sampling loop (modeling/generate.py:52-72), from `x0 = latents * t[0]`; `sigmas` lists
      the noise levels of the network evaluations in order. */
  method SampleLoop(net: Net, m: Maths, s: Settings, d: Draws, t: seq<real>, n: nat, x0: seq<real>)
    returns (x: seq<real>, sigmas: seq<real>)
    requires Safe(net, s, t, n)
    ensures x == Trajectory(net, m, s, d, t, n, x0, n)
    ensures sigmas == NetSigmas(net, s, t, n, n)
  {
    var xNext := x0;
    sigmas := [];
    var i := 0;
    while i < n
      invariant 0 <= i <= n
      invariant xNext == Trajectory(net, m, s, d, t, n, x0, i)
      invariant sigmas == NetSigmas(net, s, t, n, i)
    {
      var evals;
      xNext, evals := SampleStep(net, m, s, d, t, n, i, xNext);
      sigmas := sigmas + evals;
      i := i + 1;
    }
    x := xNext;
  }

  /** One pass of the loop body (modeling/generate.py:56-72): the network is evaluated at
      `t_hat`, and at `t_next` for the correction; `evals` lists those levels. */
  method SampleStep(net: Net, m: Maths, s: Settings, d: Draws, t: seq<real>, n: nat, i: nat, xCur: seq<real>)
    returns (xNext: seq<real>, evals: seq<real>)
    requires i < n && |t| == n + 1 && SafeStep(net, s, t, n, i)
    ensures xNext == StepSpec(net, m, s, d, t, n, i, xCur)
    ensures evals == StepSigmas(net, s, t, n, i)
  {
    var tCur, tNext := t[i], t[i + 1];
    var tHat := THat(net, s, n, tCur);
    var xHat := Churned(net, m, s, d, n, i, tCur, xCur);
    var denoised := net.denoise(xHat, tHat);
    evals := [tHat];
    var dCur := Slope(xHat, denoised, tHat);
    xNext := Advance(xHat, tNext - tHat, dCur);
    if i < n - 1 {
      denoised := net.denoise(xNext, tNext);
      evals := evals + [tNext];
      var dPrime := Slope(xNext, denoised, tNext);
      xNext := Advance(xHat, tNext - tHat, Average(dCur, dPrime));
    }
  }

  /** The first `size` latent draws. */
  function Latents(d: Draws, size: nat): (r: seq<real>)
    ensures |r| == size && forall j :: 0 <= j < size ==> r[j] == d.latent(j)
  {
    seq(size, (j: int) requires 0 <= j < size => d.latent(j))
  }

  /** `c * v`. */
  function Scaled(v: seq<real>, c: real): (r: seq<real>)
    ensures |r| == |v| && forall j :: 0 <= j < |v| ==> r[j] == v[j] * c
  {
    seq(|v|, (j: int) requires 0 <= j < |v| => v[j] * c)
  }

  /** The bytes of a sample batch. */
  function Quantized(x: seq<real>): (q: seq<int>)
    ensures |q| == |x| && forall j :: 0 <= j < |x| ==> 0 <= q[j] <= 255
    ensures forall j :: 0 <= j < |x| ==> q[j] == Grid.Quantize(x[j])
  {
    seq(|x|, (j: int) requires 0 <= j < |x| => Grid.Quantize(x[j]))
  }

  /** `generate_image_grid`: `gridw * gridh` latents scaled by the first level, the sampling
      loop, then the byte grid. Returns the grid rows and the noise levels the network was
      evaluated at. */
  method GenerateImageGrid(net: Net, m: Maths, s: Settings, d: Draws)
    returns (r: Result<seq<seq<seq<int>>>>, sigmas: seq<real>)
    requires s.numSteps != 1
    requires TSteps(net, m, s).Ok? && s.numSteps > 0 ==> Safe(net, s, TSteps(net, m, s).value, s.numSteps)
    ensures TSteps(net, m, s).Err? ==> r == Err(TSteps(net, m, s).error) && sigmas == []
    ensures TSteps(net, m, s).Ok? && s.numSteps == 0 ==> r == Err(EmptySchedule) && sigmas == []
    ensures TSteps(net, m, s).Ok? && s.numSteps > 0 ==>
      var t := TSteps(net, m, s).value;
      var n := s.numSteps;
      var size := s.gridh * s.gridw * net.imgChannels * net.imgResolution * net.imgResolution;
      var x0 := Scaled(Latents(d, size), t[0]);
      && r == Ok(Grid.TileGrid(Quantized(Trajectory(net, m, s, d, t, n, x0, n)),
                               s.gridw, s.gridh, net.imgChannels, net.imgResolution))
      && sigmas == NetSigmas(net, s, t, n, n)
  {
    var batchSize := s.gridw * s.gridh;
    var C, R := net.imgChannels, net.imgResolution;
    var size := batchSize * C * R * R;
    assert size == s.gridh * s.gridw * C * R * R;
    var latents := Latents(d, size);
    var ts := TSteps(net, m, s);
    if ts.Err? {
      return Err(ts.error), [];
    }
    var t := ts.value;
    var n := s.numSteps;
    if |t| == 0 {
      return Err(EmptySchedule), [];
    }
    var x0 := Scaled(latents, t[0]);
    var x;
    x, sigmas := SampleLoop(net, m, s, d, t, n, x0);
    var image := Quantized(x);
    r := Ok(Grid.TileGrid(image, s.gridw, s.gridh, C, R));
  }
}
