/**
 * Progress arithmetic of the launch pipeline (src-tauri/src/minecraft/progress.rs; the
 * older tree's src/minecraft/progress.rs has the same definitions and is modelled by the
 * same functions). Percent-style progress uses 100 units per step; the progress bar
 * shown by the front end uses 1024 units per step over five steps.
 */
module Progress {
  import opened Wrappers

  const U64_LIMIT: nat := 0x1_0000_0000_0000_0000

  /** `u64` inputs; the arithmetic on them is done on unbounded naturals. */
  type u64 = x: nat | x < U64_LIMIT

  datatype ProgressUpdateSteps =
    | DownloadLiquidBounceMods
    | DownloadJRE
    | DownloadClientJar
    | DownloadLibraries
    | DownloadAssets

  datatype ProgressUpdate = SetMax(max: nat) | SetProgress(progress: nat) | SetLabel(text: string)

  const PER_STEP: nat := 1024

  /** Overall progress in hundredths of a step: step `idx` done, plus `curr` of `max` of the next. */
  function GetProgress(idx: nat, curr: u64, max: u64): (r: nat)
    ensures max == 0 ==> r == idx * 100 + curr * 100
    ensures r >= idx * 100
  {
    idx * 100 + curr * 100 / (if max < 1 then 1 else max)
  }

  /** The overall maximum for `len` steps. */
  function GetMax(len: nat): (r: nat)
    ensures r / 100 == len && r % 100 == 0
  {
    len * 100
  }

  /** `ProgressUpdateSteps::len()`. */
  function Len(): nat {
    5
  }

  /** `step_idx`: the position of a step in the pipeline. */
  function StepIdx(step: ProgressUpdateSteps): (r: nat)
    ensures r < Len()
  {
    match step
    case DownloadLiquidBounceMods => 0
    case DownloadJRE => 1
    case DownloadClientJar => 2
    case DownloadLibraries => 3
    case DownloadAssets => 4
  }

  /**
   * `set_for_step` as written: the source divides by `max` itself, so a `max` of 0
   * panics; None stands for that panic.
   */
  function SetForStepAsWritten(step: ProgressUpdateSteps, progress: u64, max: u64): (r: Option<ProgressUpdate>)
    ensures r.None? <==> max == 0
    ensures r.Some? ==> r.value.SetProgress? && r.value.progress >= StepIdx(step) * PER_STEP
  {
    if max == 0 then None
    else
      var done: nat := StepIdx(step) * PER_STEP;
      var part: nat := (progress * PER_STEP) / max;
      Some(SetProgress(done + part))
  }

  /**
   * `set_for_step` as evidently intended: a `max` of 0 is treated as 1, as `get_progress`
   * does, so an empty step reports the start of its band instead of panicking.
   */
  function SetForStep(step: ProgressUpdateSteps, progress: u64, max: u64): (r: ProgressUpdate)
    ensures r.SetProgress? && r.progress >= StepIdx(step) * PER_STEP
    ensures max != 0 ==> SetForStepAsWritten(step, progress, max) == Some(r)
    ensures max == 0 && progress == 0 ==> r.progress == StepIdx(step) * PER_STEP
  {
    var done: nat := StepIdx(step) * PER_STEP;
    var divisor: nat := if max < 1 then 1 else max;
    var part: nat := (progress * PER_STEP) / divisor;
    SetProgress(done + part)
  }

  /**
   * The first update of the library and asset steps is `set_for_step(step, 0, n)` with
   * `n` the number of items; for an empty list it has no value as written.
   */
  lemma EmptyStepPanics(step: ProgressUpdateSteps)
    ensures SetForStepAsWritten(step, 0, 0).None?
    ensures SetForStep(step, 0, 0) == SetProgress(StepIdx(step) * PER_STEP)
    ensures forall n: u64 :: n > 0 ==> SetForStepAsWritten(step, 0, n) == Some(SetForStep(step, 0, n))
  {
  }

  /** `set_to_max`: the bar at its end. */
  function SetToMax(): (r: ProgressUpdate)
    ensures r.SetProgress? && r.progress == Len() * PER_STEP
  {
    SetProgress(Len() * PER_STEP)
  }

  /** `set_max`: the bar's maximum. */
  function SetMaxUpdate(): (r: ProgressUpdate)
    ensures r.SetMax? && r.max == Len() * PER_STEP
  {
    SetMax(Len() * PER_STEP)
  }

  /** `a <= b * k` with `b > 0` implies `a / b <= k`. */
  lemma DivAtMost(a: nat, b: nat, k: nat)
    requires b > 0 && a <= b * k
    ensures a / b <= k
  {
  }

  /** While the current step is not overrun, overall progress stays within that step's 100 units. */
  lemma GetProgressInBand(idx: nat, curr: u64, max: u64)
    requires curr <= max
    ensures idx * 100 <= GetProgress(idx, curr, max) <= idx * 100 + 100
  {
    if max == 0 {
      assert curr == 0;
    } else {
      DivAtMost(curr * 100, max, 100);
    }
  }

  /** Progress grows with the amount done in the current step. */
  lemma GetProgressMonotone(idx: nat, c1: u64, c2: u64, max: u64)
    requires c1 <= c2
    ensures GetProgress(idx, c1, max) <= GetProgress(idx, c2, max)
  {
    var m := if max < 1 then 1 else max;
    assert c1 * 100 <= c2 * 100;
    DivMonotone(c1 * 100, c2 * 100, m);
  }

  lemma DivMonotone(a: nat, b: nat, d: nat)
    requires a <= b && d > 0
    ensures a / d <= b / d
  {
    var q, m := a / d, b / d;
    assert q * d <= a;
    assert b < (m + 1) * d;
    MulStrictCancel(q, m + 1, d);
  }

  /** `q * d < m * d` with `d > 0` implies `q < m`. */
  lemma {:induction false} MulStrictCancel(q: nat, m: nat, d: nat)
    requires d > 0 && q * d < m * d
    ensures q < m
    decreases m
  {
    if m > 0 && q > 0 {
      assert (q - 1) * d < (m - 1) * d;
      MulStrictCancel(q - 1, m - 1, d);
    }
  }

  /** The last step completed gives exactly the maximum over all steps. */
  lemma LastStepReachesMax(max: u64)
    requires max != 0
    ensures GetProgress(Len() - 1, max, max) == GetMax(Len())
  {
    assert max * 100 / max == 100;
  }

  /** `step_idx` numbers the five steps 0..4 without repetition. */
  lemma StepIdxBijective()
    ensures forall a, b :: StepIdx(a) == StepIdx(b) ==> a == b
    ensures forall k: nat :: k < Len() ==> StepIdx(StepAt(k)) == k
    ensures forall s :: StepAt(StepIdx(s)) == s
  {
  }

  /** The step at a position of the pipeline; the inverse of `StepIdx`. */
  function StepAt(k: nat): ProgressUpdateSteps
    requires k < Len()
  {
    if k == 0 then DownloadLiquidBounceMods
    else if k == 1 then DownloadJRE
    else if k == 2 then DownloadClientJar
    else if k == 3 then DownloadLibraries
    else DownloadAssets
  }

  /** While a step is not overrun, its bar value stays within that step's 1024-wide band. */
  lemma SetForStepInBand(step: ProgressUpdateSteps, progress: u64, max: u64)
    requires progress <= max
    ensures StepIdx(step) * PER_STEP <= SetForStep(step, progress, max).progress
                                     <= StepIdx(step) * PER_STEP + PER_STEP
  {
    if max != 0 {
      DivAtMost(progress * PER_STEP, max, PER_STEP);
    }
  }

  /** Every in-band step value lies below the bar's maximum, which `set_to_max` reaches. */
  lemma SetForStepBelowMax(step: ProgressUpdateSteps, progress: u64, max: u64)
    requires progress <= max
    ensures SetForStep(step, progress, max).progress <= SetMaxUpdate().max
    ensures SetToMax().progress == SetMaxUpdate().max
  {
    SetForStepInBand(step, progress, max);
  }

  /** Earlier steps always show less progress than later ones. */
  lemma StepsOrdered(a: ProgressUpdateSteps, pa: u64, ma: u64, b: ProgressUpdateSteps, pb: u64, mb: u64)
    requires pa <= ma
    requires StepIdx(a) < StepIdx(b)
    ensures SetForStep(a, pa, ma).progress <= SetForStep(b, pb, mb).progress
  {
    SetForStepInBand(a, pa, ma);
  }
}
