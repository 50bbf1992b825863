/**
 * The exposure controller of a capture worker: a proportional feedback loop that
 * applies a gain, reads a frame, measures its brightness and either stops or
 * corrects the gain by a quarter of the brightness error.
 *
 * Gain, brightness, their difference and the tolerance are counted in whole tenths,
 * so gain 60.0 is 600. The camera code rounds brightness and its difference to a
 * tenth and the gain steps it adds too; its tolerance is a whole number, ten tenths
 * per unit. Only the gain it starts from, read from a file, may be finer.
 */
module Exposure {
  import opened Wrappers

  /** The gain range, 0.0 to 100.0. */
  const MinGain: int := 0
  const MaxGain: int := 1000

  /** The gain used when the device has no gain file: 60.0. */
  const DefaultGain: int := 600

  /** How one controller run ended: converged, or saturated at either gain limit. */
  datatype Status = Ok | GainMax | GainMin

  /** The status strings the camera code reports. */
  function StatusText(s: Status): string
  {
    match s
    case Ok => "ok"
    case GainMax => "cam_gain max"
    case GainMin => "cam_gain min"
  }

  /** The three status strings are distinct, so a caller can tell the outcomes apart. */
  lemma StatusTextDistinct(a: Status, b: Status)
    requires StatusText(a) == StatusText(b)
    ensures a == b
  {
  }

  /** The status record of one controller run: the brightness of the returned frame,
      its difference from the target, the attempt counter and the gain the frame was
      taken with. (Read latency and frame rate are wall-clock readings, not modelled.) */
  datatype TakeStatus = TakeStatus(status: Status, br: int, brDiff: int, attempt: nat, gain: int)

  /** One read from the device: the frame's brightness, or None when no frame came back. */
  type Reading = Option<int>

  function Abs(x: int): nat
  {
    if x < 0 then -x else x
  }

  /** The gain stored in the device's gain file, or the default when there is none. */
  function LastGainRead(file: Option<int>): int
  {
    match file
    case None => DefaultGain
    case Some(g) => g
  }

  /** round(d / 4, 1) for a brightness error of d tenths: the nearest whole number
      of tenths to a quarter of the error, halves rounded up. */
  function QuarterStep(d: nat): (r: nat)
    ensures Abs(4 * r - d) <= 2
    ensures r == 0 <==> d <= 1
  {
    (d + 2) / 4
  }

  /** The clamp at the end of the loop body: gain forced back into [0.0, 100.0]. */
  function Clamp(g: int): (c: int)
    ensures MinGain <= c <= MaxGain
    ensures MinGain <= g <= MaxGain ==> c == g
    ensures g < MinGain ==> c == MinGain
    ensures MaxGain < g ==> c == MaxGain
  {
    if g < MinGain then MinGain else if g > MaxGain then MaxGain else g
  }

  /** What one pass of the loop body decides: stop with a status, or go round again
      with a new gain. */
  datatype Decision = Stop(status: Status) | Continue(gain: int)

  /** One pass of the loop body, for a frame taken at `gain` whose brightness is
      `diff` tenths off target, with tolerance `tol`. */
  function Step(gain: int, diff: int, tol: int): (d: Decision)
    ensures d == Stop(Ok) <==> Abs(diff) < tol
    ensures d == Stop(GainMax) <==> tol <= Abs(diff) && diff < 0 && MaxGain <= gain
    ensures d == Stop(GainMin) <==> tol <= Abs(diff) && diff > 0 && gain <= MinGain
    ensures d.Continue? ==> MinGain <= d.gain <= MaxGain
    ensures d.Continue? && diff < 0 ==> gain <= d.gain
    ensures d.Continue? && diff > 0 ==> d.gain <= gain
    ensures d.Continue? && diff == 0 ==> d.gain == Clamp(gain)
    ensures d.Continue? && MinGain <= gain <= MaxGain ==> Abs(d.gain - gain) <= QuarterStep(Abs(diff))
  {
    if Abs(diff) < tol then Stop(Ok)
    else if diff < 0 then
      if gain < MaxGain then Continue(Clamp(gain + QuarterStep(-diff))) else Stop(GainMax)
    else if diff > 0 then
      if gain > MinGain then Continue(Clamp(gain - QuarterStep(diff))) else Stop(GainMin)
    else
      Continue(Clamp(gain))
  }

  /** How a controller run over a finite stream of readings ends: with a frame and
      its status, with a read that returned no frame (the grayscale conversion then
      raises), or with the readings used up while the loop would still go on. */
  datatype RunEnd = Taken(status: TakeStatus) | ReadFailed | Starved

  /** The end of a run, the index of the reading it ended at, and the gain then. */
  datatype RunResult = RunResult(end: RunEnd, at: nat, gain: int)

  /** The controller started at `gain` on readings[k..]. */
  function Run(gain: int, readings: seq<Reading>, k: nat, target: int, tol: int): (r: RunResult)
    requires k <= |readings|
    ensures k <= r.at <= |readings|
    decreases |readings| - k
  {
    if k == |readings| then RunResult(Starved, k, gain)
    else
      match readings[k]
      case None => RunResult(ReadFailed, k, gain)
      case Some(br) =>
        match Step(gain, br - target, tol)
        case Stop(s) => RunResult(Taken(TakeStatus(s, br, br - target, 0, gain)), k, gain)
        case Continue(g) => Run(g, readings, k + 1, target, tol)
  }

  /** The gain the controller applies at reading j of a run started at `gain` on
      reading k, following the loop body's decisions on the readings in between. */
  function GainAt(gain: int, readings: seq<Reading>, k: nat, j: nat, target: int, tol: int): int
    requires k <= j <= |readings|
    decreases j - k
  {
    if j == k then gain
    else
      match readings[k]
      case None => gain
      case Some(br) =>
        match Step(gain, br - target, tol)
        case Stop(_) => gain
        case Continue(g) => GainAt(g, readings, k + 1, j, target, tol)
  }

  /** What a run means: it ends at the first reading that is missing or that the loop
      body stops on: every reading before that was a frame on which the loop body,
      at the gain it had reached, went on. The gain it ends with is the gain reached
      at the reading it ended at: the one it started with or one inside the range.
      A frame it stops on carries the status the loop body decided, its brightness
      error and the gain it was taken with. Readings used up without a stop leave it
      starved. */
  lemma {:induction false} RunMeaning(gain: int, readings: seq<Reading>, k: nat, target: int, tol: int)
    requires k <= |readings|
    ensures var r := Run(gain, readings, k, target, tol);
      (r.end.Starved? <==> r.at == |readings|) &&
      (forall j :: k <= j < r.at ==>
        readings[j].Some? && Step(GainAt(gain, readings, k, j, target, tol), readings[j].value - target, tol).Continue?) &&
      r.gain == GainAt(gain, readings, k, r.at, target, tol) &&
      (r.end.ReadFailed? ==> readings[r.at].None?) &&
      (r.at == k ==> r.gain == gain) &&
      (k < r.at ==> MinGain <= r.gain <= MaxGain) &&
      (r.end.Taken? ==>
        var st := r.end.status;
        readings[r.at] == Some(st.br) && st.brDiff == st.br - target &&
        st.gain == r.gain && st.attempt == 0 &&
        Step(st.gain, st.brDiff, tol) == Stop(st.status))
    decreases |readings| - k
  {
    if k < |readings| && readings[k].Some? {
      var d := Step(gain, readings[k].value - target, tol);
      if d.Continue? {
        RunMeaning(d.gain, readings, k + 1, target, tol);
        var r := Run(d.gain, readings, k + 1, target, tol);
        forall j | k < j <= r.at
          ensures GainAt(gain, readings, k, j, target, tol) == GainAt(d.gain, readings, k + 1, j, target, tol)
        {
        }
      }
    }
  }

  /** The gain a converged run leaves behind, once saved to the gain file, is read back
      on the next start as exactly the gain the returned frame was taken with, and that
      frame was within the tolerance. */
  lemma ConvergedGainRestored(gain: int, readings: seq<Reading>, target: int, tol: int)
    requires var r := Run(gain, readings, 0, target, tol); r.end.Taken? && r.end.status.status == Ok
    ensures var r := Run(gain, readings, 0, target, tol);
      LastGainRead(Some(r.gain)) == r.end.status.gain && Abs(r.end.status.brDiff) < tol
  {
    RunMeaning(gain, readings, 0, target, tol);
  }

  /** Unfolding a run by one reading that the loop body decides to go on from. */
  lemma RunContinues(gain: int, readings: seq<Reading>, k: nat, target: int, tol: int, next: int)
    requires k < |readings| && readings[k].Some?
    requires Step(gain, readings[k].value - target, tol) == Continue(next)
    ensures Run(gain, readings, k, target, tol) == Run(next, readings, k + 1, target, tol)
  {
  }

  /** A reading of a frame that is too dark by at least the tolerance. */
  predicate TooDark(reading: Reading, target: int, tol: int)
  {
    reading.Some? && reading.value < target && tol <= target - reading.value
  }

  /** A reading of a frame that is too bright by at least the tolerance. */
  predicate TooBright(reading: Reading, target: int, tol: int)
  {
    reading.Some? && reading.value > target && tol <= reading.value - target
  }

  /** While the scene stays too dark the controller never lowers the gain and can only
      stop by saturating at the top. */
  lemma {:induction false} DarkSceneOnlyRaisesGain(gain: int, readings: seq<Reading>, k: nat, target: int, tol: int)
    requires k <= |readings|
    requires forall j :: k <= j < |readings| ==> readings[j].None? || TooDark(readings[j], target, tol)
    ensures var r := Run(gain, readings, k, target, tol);
      gain <= r.gain && (r.end.Taken? ==> r.end.status.status == GainMax)
    decreases |readings| - k
  {
    if k < |readings| && readings[k].Some? {
      var d := Step(gain, readings[k].value - target, tol);
      if d.Continue? {
        DarkSceneOnlyRaisesGain(d.gain, readings, k + 1, target, tol);
      }
    }
  }

  /** While the scene stays too bright the controller never raises the gain and can
      only stop by saturating at the bottom. */
  lemma {:induction false} BrightSceneOnlyLowersGain(gain: int, readings: seq<Reading>, k: nat, target: int, tol: int)
    requires k <= |readings|
    requires forall j :: k <= j < |readings| ==> readings[j].None? || TooBright(readings[j], target, tol)
    ensures var r := Run(gain, readings, k, target, tol);
      r.gain <= gain && (r.end.Taken? ==> r.end.status.status == GainMin)
    decreases |readings| - k
  {
    if k < |readings| && readings[k].Some? {
      var d := Step(gain, readings[k].value - target, tol);
      if d.Continue? {
        BrightSceneOnlyLowersGain(d.gain, readings, k + 1, target, tol);
      }
    }
  }

  /** Saturation bounds the loop: on a scene too dark by at least 0.2 (so every
      correction is at least 0.1), a run started inside the gain range stops with
      "cam_gain max" within MaxGain - gain + 1 reads. */
  lemma {:induction false} DarkSceneSaturates(gain: int, readings: seq<Reading>, k: nat, target: int, tol: int)
    requires k <= |readings|
    requires MinGain <= gain <= MaxGain
    requires forall j :: k <= j < |readings| ==> TooDark(readings[j], target, tol) && readings[j].value <= target - 2
    requires MaxGain - gain < |readings| - k
    ensures var r := Run(gain, readings, k, target, tol);
      r.end.Taken? && r.end.status.status == GainMax && r.at <= k + (MaxGain - gain)
    decreases |readings| - k
  {
    var diff := readings[k].value - target;
    if gain < MaxGain {
      assert QuarterStep(-diff) >= 1;
      var g := Clamp(gain + QuarterStep(-diff));
      assert Step(gain, diff, tol) == Continue(g);
      assert g >= gain + 1;
      DarkSceneSaturates(g, readings, k + 1, target, tol);
    }
  }

  /** The mirror image: on a scene too bright by at least 0.2 the run stops with
      "cam_gain min" within gain - MinGain + 1 reads. */
  lemma {:induction false} BrightSceneSaturates(gain: int, readings: seq<Reading>, k: nat, target: int, tol: int)
    requires k <= |readings|
    requires MinGain <= gain <= MaxGain
    requires forall j :: k <= j < |readings| ==> TooBright(readings[j], target, tol) && readings[j].value >= target + 2
    requires gain - MinGain < |readings| - k
    ensures var r := Run(gain, readings, k, target, tol);
      r.end.Taken? && r.end.status.status == GainMin && r.at <= k + (gain - MinGain)
    decreases |readings| - k
  {
    var diff := readings[k].value - target;
    if gain > MinGain {
      assert QuarterStep(diff) >= 1;
      var g := Clamp(gain - QuarterStep(diff));
      assert Step(gain, diff, tol) == Continue(g);
      assert g <= gain - 1;
      BrightSceneSaturates(g, readings, k + 1, target, tol);
    }
  }
}
