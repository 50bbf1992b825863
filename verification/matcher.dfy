/**
 * The template matcher: given the correlation map of a template over a captured
 * frame, it counts the positions whose score exceeds a threshold and summarises
 * the peak and the mean score among them.
 */
module Matcher {
  import opened Wrappers
  import opened Imaging

  /** The per-template summary: number of detections, highest and mean detection
      score, both rounded to 3 decimals. (The wall-clock duration is not modelled.) */
  datatype Summary = Summary(detections: nat, highest: real, avg: real)

  /** The scores strictly above the threshold, in the order they occur in the map. */
  function Above(s: seq<real>, t: real): (a: seq<real>)
    ensures |a| <= |s|
    ensures forall i :: 0 <= i < |a| ==> a[i] > t
    ensures forall x :: x in a <==> x in s && x > t
  {
    if s == [] then []
    else
      var p := s[..|s| - 1];
      assert s == p + [s[|s| - 1]];
      Above(p, t) + (if s[|s| - 1] > t then [s[|s| - 1]] else [])
  }

  /** Every score above the threshold is kept as often as it occurs in the map, and
      no other score is kept. */
  lemma {:induction false} AboveMultiplicity(s: seq<real>, t: real)
    ensures forall x :: multiset(Above(s, t))[x] == if x > t then multiset(s)[x] else 0
  {
    if s != [] {
      var p := s[..|s| - 1];
      AboveMultiplicity(p, t);
      assert s == p + [s[|s| - 1]];
    }
  }

  /** The positions of the map whose score exceeds the threshold. */
  function Positions(s: seq<real>, t: real): set<nat>
  {
    set i: nat | i < |s| && s[i] > t
  }

  function Sum(s: seq<real>): real
  {
    if s == [] then 0.0 else Sum(s[..|s| - 1]) + s[|s| - 1]
  }

  function Max(a: real, b: real): real
  {
    if a < b then b else a
  }

  /** The running maximum of the matcher's loop, which starts from 0.0. */
  function Peak(s: seq<real>): (h: real)
    ensures 0.0 <= h
    ensures forall i :: 0 <= i < |s| ==> s[i] <= h
    ensures h == 0.0 || h in s
  {
    if s == [] then 0.0
    else
      var p := s[..|s| - 1];
      assert s == p + [s[|s| - 1]];
      Max(Peak(p), s[|s| - 1])
  }

  /** round(x, 3), halves rounded up. */
  function Round3(x: real): (r: real)
    ensures x - 0.0005 < r <= x + 0.0005
    ensures (r * 1000.0).Floor as real == r * 1000.0
  {
    var n := (x * 1000.0 + 0.5).Floor;
    assert (n as real / 1000.0) * 1000.0 == n as real;
    n as real / 1000.0
  }

  lemma Round3Monotone(x: real, y: real)
    requires x <= y
    ensures Round3(x) <= Round3(y)
  {
    var a, b := x * 1000.0 + 0.5, y * 1000.0 + 0.5;
    assert a <= b;
    assert a.Floor as real <= a && b < b.Floor as real + 1.0;
    assert a.Floor <= b.Floor;
  }

  /** The summary the matcher returns for a correlation map and a threshold: all zero
      without a detection, and never a negative highest score. */
  function SummaryOf(scores: seq<real>, threshold: real): (r: Summary)
    ensures r.detections == 0 ==> r == Summary(0, 0.0, 0.0)
    ensures 0.0 <= r.highest
  {
    var m := Above(scores, threshold);
    Round3Monotone(0.0, Peak(m));
    assert Round3(0.0) == 0.0;
    Summary(|m|, Round3(Peak(m)), if |m| != 0 then Round3(Sum(m) / |m| as real) else 0.0)
  }

  /** The number of scores kept by the filter is the number of positions above the
      threshold. */
  lemma {:induction false} AboveCountsPositions(s: seq<real>, t: real)
    ensures |Above(s, t)| == |Positions(s, t)|
  {
    if s == [] {
      assert Positions(s, t) == {};
    } else {
      var n := |s| - 1;
      var p := s[..n];
      AboveCountsPositions(p, t);
      var extra: set<nat> := if s[n] > t then {n} else {};
      assert Positions(s, t) == Positions(p, t) + extra;
      assert n !in Positions(p, t);
    }
  }

  /** k copies of x added up: k * x, kept linear for the solver. */
  function Times(k: nat, x: real): real
  {
    if k == 0 then 0.0 else Times(k - 1, x) + x
  }

  lemma {:induction false} TimesIsProduct(k: nat, x: real)
    ensures Times(k, x) == (k as real) * x
  {
    if k > 0 {
      TimesIsProduct(k - 1, x);
      MulSucc((k - 1) as real, x);
    }
  }

  lemma {:induction false} TimesMonotone(k: nat, x: real, y: real)
    requires x <= y
    ensures Times(k, x) <= Times(k, y)
  {
    if k > 0 {
      TimesMonotone(k - 1, x, y);
    }
  }

  /** The sum of scores all above t lies strictly above |m| * t. */
  lemma {:induction false} SumAbove(m: seq<real>, t: real)
    requires m != []
    requires forall i :: 0 <= i < |m| ==> m[i] > t
    ensures Times(|m|, t) < Sum(m)
  {
    var n := |m| - 1;
    var p := m[..n];
    assert Sum(m) == Sum(p) + m[n];
    if p == [] {
      assert Sum(p) == 0.0;
    } else {
      SumAbove(p, t);
    }
  }

  /** The sum of scores is at most their count times their peak. */
  lemma {:induction false} SumBelowPeak(m: seq<real>)
    ensures Sum(m) <= Times(|m|, Peak(m))
  {
    if m != [] {
      var n := |m| - 1;
      var p := m[..n];
      SumBelowPeak(p);
      PeakStep(m);
      TimesMonotone(n, Peak(p), Peak(m));
    }
  }

  lemma PeakStep(m: seq<real>)
    requires m != []
    ensures Peak(m[..|m| - 1]) <= Peak(m) && m[|m| - 1] <= Peak(m)
    ensures Sum(m) == Sum(m[..|m| - 1]) + m[|m| - 1]
  {
  }

  lemma MulSucc(n: real, x: real)
    ensures (n + 1.0) * x == n * x + x
  {
  }

  /** Dividing a sum that lies between k * lo and k * hi by k. */
  lemma DivisionBounds(a: real, k: nat, lo: real, hi: real)
    requires 0 < k && Times(k, lo) < a <= Times(k, hi)
    ensures lo < a / (k as real) <= hi
  {
    TimesIsProduct(k, lo);
    TimesIsProduct(k, hi);
    var n := k as real;
    assert a / n * n == a;
  }

  /** The rounded mean of scores above t lies between t and their peak, rounded. */
  lemma MeanBounds(m: seq<real>, t: real)
    requires m != []
    requires forall i :: 0 <= i < |m| ==> m[i] > t
    ensures Round3(t) <= Round3(Sum(m) / |m| as real) <= Round3(Peak(m))
  {
    SumAbove(m, t);
    SumBelowPeak(m);
    DivisionBounds(Sum(m), |m|, t, Peak(m));
    Round3Monotone(t, Sum(m) / |m| as real);
    Round3Monotone(Sum(m) / |m| as real, Peak(m));
  }

  /** What the summary states about the map: the detection count is the number of
      positions above the threshold; with no detection everything is 0; otherwise the
      mean lies between the threshold and the highest score, and the highest score is
      at least every detection. */
  lemma SummaryMeaning(scores: seq<real>, t: real)
    ensures var s := SummaryOf(scores, t);
      s.detections == |Positions(scores, t)| &&
      (s.detections == 0 ==> s.highest == 0.0 && s.avg == 0.0) &&
      (s.detections > 0 ==> Round3(t) <= s.avg <= s.highest) &&
      0.0 <= s.highest &&
      (forall i :: 0 <= i < |scores| && scores[i] > t ==> Round3(scores[i]) <= s.highest)
  {
    var m := Above(scores, t);
    AboveCountsPositions(scores, t);
    Round3Monotone(0.0, Peak(m));
    assert Round3(0.0) == 0.0;
    if m != [] {
      MeanBounds(m, t);
    }
    forall i | 0 <= i < |scores| && scores[i] > t
      ensures Round3(scores[i]) <= Round3(Peak(m))
    {
      assert scores[i] in m;
      Round3Monotone(scores[i], Peak(m));
    }
  }

  /** A threshold at or above every score yields no detection at all. */
  lemma NothingAboveMaximum(scores: seq<real>, t: real)
    requires forall i :: 0 <= i < |scores| ==> scores[i] <= t
    ensures SummaryOf(scores, t) == Summary(0, 0.0, 0.0)
  {
    assert Positions(scores, t) == {};
    AboveCountsPositions(scores, t);
    assert Round3(0.0) == 0.0;
  }

  /** With a non-negative threshold and at least one detection, the highest score is
      the true peak of the whole map, rounded. */
  lemma HighestIsPeak(scores: seq<real>, t: real, k: nat)
    requires 0.0 <= t
    requires k < |scores| && scores[k] > t
    ensures var h := Peak(Above(scores, t));
      h in scores && (forall i :: 0 <= i < |scores| ==> scores[i] <= h) &&
      SummaryOf(scores, t).highest == Round3(h)
  {
    var m := Above(scores, t);
    assert scores[k] in m;
    var i :| 0 <= i < |m| && m[i] == scores[k];
    assert Peak(m) > 0.0;
    forall j | 0 <= j < |scores|
      ensures scores[j] <= Peak(m)
    {
      if scores[j] > t {
        assert scores[j] in m;
      }
    }
  }

  /** The filter over one more score of the map. */
  lemma AboveStep(s: seq<real>, i: nat, t: real)
    requires i < |s|
    ensures Above(s[..i + 1], t) == Above(s[..i], t) + (if s[i] > t then [s[i]] else [])
  {
    assert s[..i + 1][..i] == s[..i];
  }

  /** The count, sum and running maximum over one more kept score. */
  lemma FoldStep(m: seq<real>, x: real)
    ensures |m + [x]| == |m| + 1 && Sum(m + [x]) == Sum(m) + x && Peak(m + [x]) == Max(Peak(m), x)
  {
    assert (m + [x])[..|m|] == m;
  }

  /** The matcher as the worker should call it: rotate the frame it is given unless
      the angle is 0, correlate the template over it and fold the scores above the
      threshold into a count, a running sum and a running maximum from 0.0. */
  method MatchTemplate(tpl: Template, detect: Frame, threshold: real, angle: real, correlate: Correlator)
    returns (result: Summary)
    ensures result == SummaryOf(correlate(Rotate(detect, angle), tpl), threshold)
  {
    var image := detect;
    if angle != 0.0 {
      image := Rotate(image, angle);
    }
    var scores := correlate(image, tpl);
    var count: nat := 0;
    var buff := 0.0;
    var highest := 0.0;
    ghost var matched: seq<real> := [];
    for i := 0 to |scores|
      invariant matched == Above(scores[..i], threshold)
      invariant count == |matched| && buff == Sum(matched) && highest == Peak(matched)
    {
      AboveStep(scores, i, threshold);
      if scores[i] > threshold {
        FoldStep(matched, scores[i]);
        count := count + 1;
        buff := buff + scores[i];
        highest := Max(highest, scores[i]);
        matched := matched + [scores[i]];
      }
    }
    assert scores[..|scores|] == scores;
    result := Summary(count, Round3(highest), if count != 0 then Round3(buff / count as real) else 0.0);
  }

  /** Why cv2.imread can fail: it was handed an image array instead of a file name,
      or no image file exists under the name. */
  datatype MatchError = ImreadNeedsPath | NoImageFile

  /** What cv2.imread can be handed: a file name, or an image already in memory. */
  datatype ImageSource = FilePath(path: string) | Pixels(frame: Frame)

  /** cv2.imread: loads the image stored under a file name (`disk` maps names to the
      images stored there); an image array is not a file name and raises. */
  function ImRead(src: ImageSource, disk: map<string, Frame>): (r: Result<Frame, MatchError>)
    ensures r.Success? <==> src.FilePath? && src.path in disk
    ensures r.Success? ==> r.value == disk[src.path]
    ensures src.Pixels? ==> r == Failure(ImreadNeedsPath)
  {
    match src
    case Pixels(_) => Failure(ImreadNeedsPath)
    case FilePath(p) => if p in disk then Success(disk[p]) else Failure(NoImageFile)
  }

  /** The matcher as written: it first passes the picture it is given to cv2.imread,
      so it works only on a file name, while the worker hands it the in-memory frame. */
  function MatchTemplateAsWritten(tpl: Template, detect: ImageSource, threshold: real, angle: real,
                                  correlate: Correlator, disk: map<string, Frame>): (r: Result<Summary, MatchError>)
    ensures detect.Pixels? ==> r == Failure(ImreadNeedsPath)
    ensures detect.FilePath? && detect.path in disk ==>
      r == Success(SummaryOf(correlate(Rotate(disk[detect.path], angle), tpl), threshold))
  {
    match ImRead(detect, disk)
    case Failure(e) => Failure(e)
    case Success(img) => Success(SummaryOf(correlate(Rotate(img, angle), tpl), threshold))
  }

  /** The discrepancy: on the frame the worker passes, the matcher as written raises
      instead of returning the summary of that frame's correlation map. */
  lemma MatchOnWorkerFrameRaises(tpl: Template, picture: Frame, threshold: real, angle: real,
                                 correlate: Correlator, disk: map<string, Frame>)
    ensures MatchTemplateAsWritten(tpl, Pixels(picture), threshold, angle, correlate, disk)
         != Success(SummaryOf(correlate(Rotate(picture, angle), tpl), threshold))
  {
  }
}
