/** The token-driven learning-rate schedule of one training step: linear warmup
    followed by cosine decay, both scaled by `learning_rate`. */
module LrSchedule {
  import opened Errors
  import opened Config

  /** The learning-rate multiplier and the progress value computed with it. */
  datatype Multiplier = Multiplier(mult: real, progress: real)

  /** The rate a step writes into the optimizer and the progress it reports. */
  datatype StepRate = StepRate(lr: real, progress: real)

  /** `cosPi(p)` stands for `math.cos(math.pi * p)`. These are the values and bounds
      of the cosine that the proofs rely on. */
  ghost predicate CosineLaw(cosPi: real -> real)
  {
    cosPi(0.0) == 1.0 && cosPi(0.5) == 0.0 && cosPi(1.0) == -1.0 &&
    forall p :: -1.0 <= cosPi(p) <= 1.0
  }

  /** The cosine does not increase on the half turn [0, pi]. */
  ghost predicate FallsOnHalfTurn(cosPi: real -> real)
  {
    forall p, q :: 0.0 <= p <= q <= 1.0 ==> cosPi(q) <= cosPi(p)
  }

  /** `x` lies between `a` and `b`, in whichever order they come. */
  predicate Between(x: real, a: real, b: real)
  {
    a <= x <= b || b <= x <= a
  }

  function MaxInt(a: int, b: int): int
  {
    if a < b then b else a
  }

  /** `lr_final / learning_rate`: the multiplier at the start of warmup and at the end of decay. */
  function FinalFactor(cfg: TrainerConfig): real
    requires cfg.learningRate != 0.0
  {
    cfg.lrFinal / cfg.learningRate
  }

  /** The linear warmup ramp from `f` up to 1. The schedule uses it for
      `tokens < warmupTokens`; the end point is admitted to state continuity. */
  function WarmupMult(f: real, tokens: nat, warmupTokens: int): (m: real)
    requires tokens <= warmupTokens && warmupTokens > 0
    ensures Between(m, f, 1.0)
    ensures tokens == 0 ==> m == f
    ensures tokens == warmupTokens ==> m == 1.0
  {
    var r := tokens as real / warmupTokens as real;
    Interpolate(f, r);
    assert (1.0 - f) * (tokens as real) / (warmupTokens as real) == (1.0 - f) * r;
    f + (1.0 - f) * (tokens as real) / (warmupTokens as real)
  }

  /** Decay progress: tokens past warmup over a span guarded to be at least one token. */
  function DecayProgress(tokens: nat, warmupTokens: int, finalTokens: int): (p: real)
    requires tokens >= warmupTokens
    ensures p >= 0.0
    ensures tokens == warmupTokens ==> p == 0.0
    ensures tokens <= finalTokens ==> p <= 1.0
    ensures tokens == finalTokens > warmupTokens ==> p == 1.0
  {
    (tokens - warmupTokens) as real / MaxInt(1, finalTokens - warmupTokens) as real
  }

  /** The cosine multiplier: 1 at progress 0 and `f` at progress 1. */
  function CosineMult(f: real, progress: real, cosPi: real -> real): real
  {
    (0.5 + f / 2.0) + (0.5 - f / 2.0) * cosPi(progress)
  }

  /** The multiplier and progress of the `lr_decay` branch. */
  function LrMult(cfg: TrainerConfig, tokens: nat, cosPi: real -> real): (r: Multiplier)
    requires cfg.learningRate != 0.0
    ensures tokens < cfg.warmupTokens ==> r.progress == 0.0 && Between(r.mult, FinalFactor(cfg), 1.0)
    ensures r.progress >= 0.0
    ensures tokens <= cfg.finalTokens ==> r.progress <= 1.0
  {
    var f := FinalFactor(cfg);
    if tokens < cfg.warmupTokens then
      Multiplier(WarmupMult(f, tokens, cfg.warmupTokens), 0.0)
    else
      var p := DecayProgress(tokens, cfg.warmupTokens, cfg.finalTokens);
      Multiplier(CosineMult(f, p, cosPi), p)
  }

  /** With decay on and a zero learning rate, `lr_final / learning_rate` raises. */
  predicate RaisesOnDecay(cfg: TrainerConfig)
  {
    cfg.lrDecay && cfg.learningRate == 0.0
  }

  /** The rate of a training step after its tokens were counted, and the progress it
      reports. With decay off the rate is `learning_rate` and the progress 0. */
  function ScheduledRate(cfg: TrainerConfig, tokens: nat, cosPi: real -> real): (r: Result<StepRate>)
    ensures r.Err? <==> RaisesOnDecay(cfg)
    ensures r.Err? ==> r.error == ZeroDivisionError
    ensures !cfg.lrDecay ==> r == Ok(StepRate(cfg.learningRate, 0.0))
    ensures r.Ok? ==> r.value.progress >= 0.0
    ensures r.Ok? && tokens <= cfg.finalTokens ==> r.value.progress <= 1.0
  {
    if !cfg.lrDecay then Ok(StepRate(cfg.learningRate, 0.0))
    else if cfg.learningRate == 0.0 then Err(ZeroDivisionError)
    else
      var m := LrMult(cfg, tokens, cosPi);
      Ok(StepRate(cfg.learningRate * m.mult, m.progress))
  }

  /** The progress value the progress-bar text reads, as the source is written: `progress`
      is assigned only inside the `lr_decay` branch, so with decay off it is unbound. */
  function ReportedProgressAsWritten(cfg: TrainerConfig, tokens: nat, cosPi: real -> real): (r: Result<real>)
    ensures r.Err? <==> !cfg.lrDecay || RaisesOnDecay(cfg)
    ensures r.Ok? ==> ScheduledRate(cfg, tokens, cosPi).Ok? && r.value == ScheduledRate(cfg, tokens, cosPi).value.progress
  {
    if !cfg.lrDecay then Err(UnboundLocalError)
    else
      match ScheduledRate(cfg, tokens, cosPi)
      case Ok(s) => Ok(s.progress)
      case Err(e) => Err(e)
  }

  /** With decay off the source fails on reporting every training step, where the
      corrected schedule reports progress 0. */
  lemma NoDecayReportFails(cfg: TrainerConfig, tokens: nat, cosPi: real -> real)
    requires !cfg.lrDecay
    ensures ReportedProgressAsWritten(cfg, tokens, cosPi) == Err(UnboundLocalError)
    ensures ScheduledRate(cfg, tokens, cosPi) == Ok(StepRate(cfg.learningRate, 0.0))
  {
  }

  // ----- arithmetic helpers -----

  lemma Interpolate(f: real, r: real)
    requires 0.0 <= r <= 1.0
    ensures Between(f + (1.0 - f) * r, f, 1.0)
  {
    var a, b := 1.0 - f, 1.0 - r;
    assert a * b == a - a * r;
    if f <= 1.0 {
      assert 0.0 <= a * r;
      assert 0.0 <= a * b;
    } else {
      assert a * r <= 0.0;
      assert a * b <= 0.0;
    }
  }

  lemma NonNegativeProduct(a: real, b: real)
    requires a >= 0.0 && b >= 0.0
    ensures a * b >= 0.0
  {
  }

  lemma ScaleBetween(k: real, x: real, a: real, b: real)
    requires Between(x, a, b)
    ensures Between(k * x, k * a, k * b)
  {
    if k >= 0.0 {
      if a <= x <= b {
        assert k * (x - a) >= 0.0 && k * (b - x) >= 0.0;
      } else {
        assert k * (x - b) >= 0.0 && k * (a - x) >= 0.0;
      }
    } else {
      if a <= x <= b {
        assert k * (x - a) <= 0.0 && k * (b - x) <= 0.0;
      } else {
        assert k * (x - b) <= 0.0 && k * (a - x) <= 0.0;
      }
    }
  }

  // ----- properties of the schedule -----

  /** The cosine multiplier stays between `f` and 1 whatever the progress, even past 1. */
  lemma CosineMultBetween(f: real, p: real, cosPi: real -> real)
    requires CosineLaw(cosPi)
    ensures Between(CosineMult(f, p, cosPi), f, 1.0)
  {
    var c := cosPi(p);
    assert -1.0 <= c <= 1.0;
    Interpolate(f, (1.0 + c) / 2.0);
    assert CosineMult(f, p, cosPi) == f + (1.0 - f) * ((1.0 + c) / 2.0);
  }

  /** The cosine factor runs from 1 where the cosine is 1 (progress 0) to `f` where it
      is -1 (progress 1), through the mean of the two where it is 0. */
  lemma CosineMultEnds(f: real, p: real, cosPi: real -> real)
    ensures cosPi(p) == 1.0 ==> CosineMult(f, p, cosPi) == 1.0
    ensures cosPi(p) == -1.0 ==> CosineMult(f, p, cosPi) == f
    ensures cosPi(p) == 0.0 ==> CosineMult(f, p, cosPi) == (1.0 + f) / 2.0
  {
  }

  /** The warmup ramp, carried to its end, meets the cosine at its start: both give
      the multiplier 1 when `tokens == warmupTokens`. */
  lemma WarmupMeetsCosine(cfg: TrainerConfig, cosPi: real -> real)
    requires CosineLaw(cosPi)
    requires cfg.learningRate != 0.0 && cfg.warmupTokens > 0
    ensures WarmupMult(FinalFactor(cfg), cfg.warmupTokens, cfg.warmupTokens) == 1.0
    ensures LrMult(cfg, cfg.warmupTokens, cosPi) == Multiplier(1.0, 0.0)
  {
    assert DecayProgress(cfg.warmupTokens, cfg.warmupTokens, cfg.finalTokens) == 0.0;
  }

  /** The first step of a run with warmup uses `lr_final`. */
  lemma WarmupStartsAtFinalRate(cfg: TrainerConfig, cosPi: real -> real)
    requires cfg.lrDecay && cfg.learningRate != 0.0 && cfg.warmupTokens > 0
    ensures ScheduledRate(cfg, 0, cosPi) == Ok(StepRate(cfg.lrFinal, 0.0))
  {
    var m := LrMult(cfg, 0, cosPi);
    assert m == Multiplier(FinalFactor(cfg), 0.0);
    assert cfg.learningRate * FinalFactor(cfg) == cfg.lrFinal;
    var r := ScheduledRate(cfg, 0, cosPi);
    assert r.Ok?;
    assert r.value.lr == cfg.learningRate * m.mult;
    assert r.value.progress == m.progress;
    assert r.value.lr == cfg.lrFinal;
    assert r.value == StepRate(cfg.lrFinal, 0.0);
  }

  /** Once warmup is over the rate is `learning_rate` again. */
  lemma DecayStartsAtInitialRate(cfg: TrainerConfig, cosPi: real -> real)
    requires CosineLaw(cosPi)
    requires cfg.lrDecay && cfg.learningRate != 0.0 && cfg.warmupTokens >= 0
    ensures ScheduledRate(cfg, cfg.warmupTokens, cosPi) == Ok(StepRate(cfg.learningRate, 0.0))
  {
    assert DecayProgress(cfg.warmupTokens, cfg.warmupTokens, cfg.finalTokens) == 0.0;
  }

  /** At `final_tokens` the progress is 1 and the rate has come down to `lr_final`. */
  lemma DecayEndsAtFinalRate(cfg: TrainerConfig, cosPi: real -> real)
    requires CosineLaw(cosPi)
    requires cfg.lrDecay && cfg.learningRate != 0.0
    requires cfg.finalTokens > cfg.warmupTokens && cfg.finalTokens >= 0
    ensures ScheduledRate(cfg, cfg.finalTokens, cosPi) == Ok(StepRate(cfg.lrFinal, 1.0))
  {
    var p := DecayProgress(cfg.finalTokens, cfg.warmupTokens, cfg.finalTokens);
    assert p == 1.0;
    var m := LrMult(cfg, cfg.finalTokens, cosPi);
    assert m == Multiplier(CosineMult(FinalFactor(cfg), p, cosPi), p);
    assert CosineMult(FinalFactor(cfg), p, cosPi) == FinalFactor(cfg);
    assert cfg.learningRate * FinalFactor(cfg) == cfg.lrFinal;
    var r := ScheduledRate(cfg, cfg.finalTokens, cosPi);
    assert r.Ok? && r.value.lr == cfg.learningRate * m.mult && r.value.progress == m.progress;
    assert r.value == StepRate(cfg.lrFinal, 1.0);
  }

  lemma HalfWay(done: real, span: real)
    requires done > 0.0 && span == 2.0 * done
    ensures done / span == 0.5
  {
    assert 0.5 * span == done;
  }

  lemma ScaleFinalFactor(cfg: TrainerConfig)
    requires cfg.learningRate != 0.0
    ensures cfg.learningRate * FinalFactor(cfg) == cfg.lrFinal
  {
  }

  /** Halfway through decay the rate is the mean of `learning_rate` and `lr_final`. */
  lemma DecayMidpoint(cfg: TrainerConfig, tokens: nat, cosPi: real -> real)
    requires CosineLaw(cosPi)
    requires cfg.lrDecay && cfg.learningRate != 0.0
    requires cfg.finalTokens > cfg.warmupTokens && 2 * (tokens - cfg.warmupTokens) == cfg.finalTokens - cfg.warmupTokens
    ensures ScheduledRate(cfg, tokens, cosPi).value.lr == (cfg.learningRate + cfg.lrFinal) / 2.0
  {
    var span := (cfg.finalTokens - cfg.warmupTokens) as real;
    var done := (tokens - cfg.warmupTokens) as real;
    HalfWay(done, span);
    var p := DecayProgress(tokens, cfg.warmupTokens, cfg.finalTokens);
    assert p == done / span;
    var f := FinalFactor(cfg);
    assert LrMult(cfg, tokens, cosPi) == Multiplier(0.5 + f / 2.0, 0.5);
    ScaleFinalFactor(cfg);
    assert cfg.learningRate * (0.5 + f / 2.0) == (cfg.learningRate + cfg.lrFinal) / 2.0;
  }

  /** The multiplier of the decay branch lies between `lr_final / learning_rate` and 1. */
  lemma MultBetween(cfg: TrainerConfig, tokens: nat, cosPi: real -> real)
    requires CosineLaw(cosPi)
    requires cfg.learningRate != 0.0
    ensures Between(LrMult(cfg, tokens, cosPi).mult, FinalFactor(cfg), 1.0)
  {
    if tokens >= cfg.warmupTokens {
      CosineMultBetween(FinalFactor(cfg), DecayProgress(tokens, cfg.warmupTokens, cfg.finalTokens), cosPi);
    }
  }

  /** Progress is not clamped: past `final_tokens` it exceeds 1 (and the cosine turns
      back up; the multiplier still stays between `f` and 1 by `CosineMultBetween`). */
  lemma ProgressNotClamped(cfg: TrainerConfig, tokens: nat, cosPi: real -> real)
    requires cfg.lrDecay && cfg.learningRate != 0.0
    requires cfg.warmupTokens < cfg.finalTokens < tokens
    ensures ScheduledRate(cfg, tokens, cosPi).value.progress > 1.0
  {
    var done := (tokens - cfg.warmupTokens) as real;
    var span := (cfg.finalTokens - cfg.warmupTokens) as real;
    var p := DecayProgress(tokens, cfg.warmupTokens, cfg.finalTokens);
    assert p == done / span;
    assert p * span == done > span > 0.0;
    if p <= 1.0 {
      NonNegativeProduct(1.0 - p, span);
      assert false;
    }
    var r := ScheduledRate(cfg, tokens, cosPi);
    assert r.Ok? && r.value.progress == p;
  }

  /** When `final_tokens <= warmup_tokens` (both default to 0) the span guard gives 1, so
      progress is the raw count of tokens past warmup and the cosine keeps turning. */
  lemma DegenerateSpanProgress(cfg: TrainerConfig, tokens: nat, cosPi: real -> real)
    requires cfg.lrDecay && cfg.learningRate != 0.0
    requires cfg.finalTokens <= cfg.warmupTokens <= tokens
    ensures ScheduledRate(cfg, tokens, cosPi).value.progress == (tokens - cfg.warmupTokens) as real
    ensures ScheduledRate(cfg, tokens, cosPi).value.lr
         == cfg.learningRate * CosineMult(FinalFactor(cfg), (tokens - cfg.warmupTokens) as real, cosPi)
  {
    var p := DecayProgress(tokens, cfg.warmupTokens, cfg.finalTokens);
    assert MaxInt(1, cfg.finalTokens - cfg.warmupTokens) == 1;
    assert p == (tokens - cfg.warmupTokens) as real;
    var r := ScheduledRate(cfg, tokens, cosPi);
    assert r.Ok? && r.value.progress == p;
  }

  /** With decay on, every step's rate lies between `lr_final` and `learning_rate`. */
  lemma RateBetweenBounds(cfg: TrainerConfig, tokens: nat, cosPi: real -> real)
    requires CosineLaw(cosPi)
    requires cfg.lrDecay && cfg.learningRate != 0.0
    ensures ScheduledRate(cfg, tokens, cosPi).Ok?
    ensures Between(ScheduledRate(cfg, tokens, cosPi).value.lr, cfg.lrFinal, cfg.learningRate)
  {
    MultBetween(cfg, tokens, cosPi);
    ScaleFinalFactor(cfg);
    ScaleToRate(cfg.learningRate, LrMult(cfg, tokens, cosPi).mult, FinalFactor(cfg), cfg.lrFinal);
    DecayRate(cfg, tokens, cosPi);
  }

  /** With decay on, the rate is `learning_rate` times the multiplier. */
  lemma DecayRate(cfg: TrainerConfig, tokens: nat, cosPi: real -> real)
    requires cfg.lrDecay && cfg.learningRate != 0.0
    ensures ScheduledRate(cfg, tokens, cosPi).Ok?
    ensures ScheduledRate(cfg, tokens, cosPi).value.lr == cfg.learningRate * LrMult(cfg, tokens, cosPi).mult
  {
  }

  /** A multiplier between `f` and 1, scaled by `k`, lies between `k * f` and `k`. */
  lemma ScaleToRate(k: real, m: real, f: real, lrFinal: real)
    requires Between(m, f, 1.0) && k * f == lrFinal
    ensures Between(k * m, lrFinal, k)
  {
    ScaleBetween(k, m, f, 1.0);
    assert k * 1.0 == k;
  }

  /** During warmup the rate does not fall as tokens accumulate, when `lr_final <= learning_rate`. */
  lemma WarmupNonDecreasing(cfg: TrainerConfig, t1: nat, t2: nat, cosPi: real -> real)
    requires cfg.lrDecay && 0.0 < cfg.learningRate && cfg.lrFinal <= cfg.learningRate
    requires t1 <= t2 < cfg.warmupTokens
    ensures ScheduledRate(cfg, t1, cosPi).value.lr <= ScheduledRate(cfg, t2, cosPi).value.lr
  {
    var f := FinalFactor(cfg);
    var w := cfg.warmupTokens as real;
    assert f <= 1.0 by {
      assert f * cfg.learningRate == cfg.lrFinal;
    }
    var r1, r2 := t1 as real / w, t2 as real / w;
    assert r1 <= r2 by {
      assert r2 - r1 == (t2 - t1) as real / w;
    }
    NonNegativeProduct(1.0 - f, r2 - r1);
    var m1, m2 := f + (1.0 - f) * r1, f + (1.0 - f) * r2;
    assert LrMult(cfg, t1, cosPi).mult == m1;
    assert LrMult(cfg, t2, cosPi).mult == m2;
    NonNegativeProduct(cfg.learningRate, m2 - m1);
  }

  /** During decay, up to `final_tokens`, the rate does not rise as tokens accumulate,
      when `lr_final <= learning_rate`. */
  lemma DecayNonIncreasing(cfg: TrainerConfig, t1: nat, t2: nat, cosPi: real -> real)
    requires FallsOnHalfTurn(cosPi)
    requires cfg.lrDecay && 0.0 < cfg.learningRate && cfg.lrFinal <= cfg.learningRate
    requires cfg.warmupTokens <= t1 <= t2 <= cfg.finalTokens
    ensures ScheduledRate(cfg, t2, cosPi).value.lr <= ScheduledRate(cfg, t1, cosPi).value.lr
  {
    var f := FinalFactor(cfg);
    assert f <= 1.0 by {
      assert f * cfg.learningRate == cfg.lrFinal;
    }
    var span := MaxInt(1, cfg.finalTokens - cfg.warmupTokens) as real;
    var p1 := DecayProgress(t1, cfg.warmupTokens, cfg.finalTokens);
    var p2 := DecayProgress(t2, cfg.warmupTokens, cfg.finalTokens);
    assert p1 <= p2 by {
      assert p2 - p1 == (t2 - t1) as real / span;
    }
    var c1, c2 := cosPi(p1), cosPi(p2);
    assert c2 <= c1;
    NonNegativeProduct(0.5 - f / 2.0, c1 - c2);
    var m1, m2 := CosineMult(f, p1, cosPi), CosineMult(f, p2, cosPi);
    assert m2 <= m1;
    NonNegativeProduct(cfg.learningRate, m1 - m2);
  }
}
