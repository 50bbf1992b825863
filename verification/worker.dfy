/**
 * The capture worker of one camera: its state, the calls other code makes to post
 * requests, the exposure controller as the worker runs it, and one iteration of
 * the worker's loop, which checks for exit, takes a picture and services the
 * pending picture and match requests. Event flags are plain booleans, and the
 * worker's loop is a sequence of calls to RunOnce.
 */
module Worker {
  import opened Wrappers
  import opened Imaging
  import opened Exposure
  import opened Matcher

  /** The result a match request publishes: camera id, status and, per template,
      the angle it was last matched at and the summary for that angle. */
  datatype MatchResult = MatchResult(id: int, status: string, matches: map<Template, (real, Summary)>)

  /** The queue.Queue a caller hands over with a match request. It is unbounded, so
      put_nowait always succeeds. */
  class ResultQueue {
    var items: seq<MatchResult>

    constructor ()
      ensures items == []
    {
      items := [];
    }

    method PutNowait(r: MatchResult)
      modifies this
      ensures items == old(items) + [r]
    {
      items := items + [r];
    }
  }

  /** The entry stored for a template matched on a picture at an angle. */
  function Entry(tpl: Template, angle: real, picture: Frame, threshold: real, correlate: Correlator): (real, Summary)
  {
    (angle, SummaryOf(correlate(Rotate(picture, angle), tpl), threshold))
  }

  /** The map the matching loop builds: each template in turn gets the entry of every
      angle, each overwriting the last, so it ends with the entry of the last angle;
      without any angle no entry is stored. */
  function MatchMap(tpls: seq<Template>, angles: seq<real>, picture: Frame, threshold: real,
                    correlate: Correlator): map<Template, (real, Summary)>
  {
    if tpls == [] || angles == [] then map[]
    else
      var t := tpls[|tpls| - 1];
      MatchMap(tpls[..|tpls| - 1], angles, picture, threshold, correlate)
        [t := Entry(t, angles[|angles| - 1], picture, threshold, correlate)]
  }

  /** The published map has one key per distinct template (none when there is no
      angle), each holding the last angle and the summary at that angle. */
  lemma {:induction false} MatchMapContents(tpls: seq<Template>, angles: seq<real>, picture: Frame,
                                            threshold: real, correlate: Correlator)
    ensures var m := MatchMap(tpls, angles, picture, threshold, correlate);
      (angles == [] ==> m == map[]) &&
      (angles != [] ==> m.Keys == set t | t in tpls) &&
      (forall t :: t in m ==> m[t] == Entry(t, angles[|angles| - 1], picture, threshold, correlate))
  {
    if tpls != [] && angles != [] {
      var p := tpls[..|tpls| - 1];
      MatchMapContents(p, angles, picture, threshold, correlate);
      assert tpls == p + [tpls[|tpls| - 1]];
      assert (set t | t in tpls) == (set t | t in p) + {tpls[|tpls| - 1]};
    }
  }

  /** Lines 120-124: match every template at every angle, in order, storing each
      result under its template. */
  method CollectMatches(tpls: seq<Template>, angles: seq<real>, picture: Frame, threshold: real,
                        correlate: Correlator) returns (m: map<Template, (real, Summary)>)
    ensures m == MatchMap(tpls, angles, picture, threshold, correlate)
  {
    m := map[];
    for i := 0 to |tpls|
      invariant m == MatchMap(tpls[..i], angles, picture, threshold, correlate)
    {
      ghost var before := m;
      for j := 0 to |angles|
        invariant j == 0 ==> m == before
        invariant 0 < j ==> m == before[tpls[i] := Entry(tpls[i], angles[j - 1], picture, threshold, correlate)]
      {
        var s := MatchTemplate(tpls[i], picture, threshold, angles[j], correlate);
        m := m[tpls[i] := (angles[j], s)];
      }
      assert tpls[..i + 1][..i] == tpls[..i];
    }
    assert tpls[..|tpls|] == tpls;
  }

  /** The matching loop as written: the matcher loads the picture it is handed with
      cv2.imread, so the first template at the first angle raises when the picture is
      not a file name stored on `disk`; without a template or an angle nothing is
      loaded and the map stays empty. */
  function MatchMapAsWritten(tpls: seq<Template>, angles: seq<real>, detect: ImageSource, threshold: real,
                             correlate: Correlator, disk: map<string, Frame>): Result<map<Template, (real, Summary)>, MatchError>
  {
    if tpls == [] || angles == [] then Success(map[])
    else
      match ImRead(detect, disk)
      case Failure(e) => Failure(e)
      case Success(img) => Success(MatchMap(tpls, angles, img, threshold, correlate))
  }

  /** Lines 120-124 as written: handed the worker's in-memory picture, the loop raises
      exactly when there is a template and an angle to match; otherwise it returns
      the empty map. */
  lemma WorkerMatchRaises(tpls: seq<Template>, angles: seq<real>, picture: Frame, threshold: real,
                          correlate: Correlator, disk: map<string, Frame>)
    ensures var r := MatchMapAsWritten(tpls, angles, Pixels(picture), threshold, correlate, disk);
      (r.Failure? <==> tpls != [] && angles != []) &&
      (r.Failure? ==> r.error == ImreadNeedsPath) &&
      (r.Success? ==> r.value == map[])
  {
    if tpls != [] && angles != [] {
      assert ImRead(Pixels(picture), disk) == Failure(ImreadNeedsPath);
    }
  }

  /** Lines 120-124 as written, with the matcher as written: the first exception
      leaves the loop. */
  method CollectMatchesAsWritten(tpls: seq<Template>, angles: seq<real>, detect: ImageSource, threshold: real,
                                 correlate: Correlator, disk: map<string, Frame>)
    returns (r: Result<map<Template, (real, Summary)>, MatchError>)
    ensures r == MatchMapAsWritten(tpls, angles, detect, threshold, correlate, disk)
  {
    ghost var loaded := ImRead(detect, disk);
    var m := map[];
    for i := 0 to |tpls|
      invariant loaded.Failure? ==> m == map[] && (0 < i ==> angles == [])
      invariant loaded.Success? ==> m == MatchMap(tpls[..i], angles, loaded.value, threshold, correlate)
    {
      var step := MatchAnglesAsWritten(tpls[i], angles, detect, threshold, correlate, disk, m);
      match step
      case Failure(e) =>
        return Failure(e);
      case Success(next) =>
        m := next;
      assert tpls[..i + 1][..i] == tpls[..i];
    }
    assert tpls[..|tpls|] == tpls;
    r := Success(m);
  }

  /** Lines 121-124 as written, for one template: the first angle loads the picture,
      which raises unless it is a stored file; each angle then overwrites the
      template's entry in `m`. */
  method MatchAnglesAsWritten(tpl: Template, angles: seq<real>, detect: ImageSource, threshold: real,
                              correlate: Correlator, disk: map<string, Frame>, m: map<Template, (real, Summary)>)
    returns (r: Result<map<Template, (real, Summary)>, MatchError>)
    ensures angles == [] ==> r == Success(m)
    ensures angles != [] && ImRead(detect, disk).Failure? ==> r == Failure(ImRead(detect, disk).error)
    ensures angles != [] && ImRead(detect, disk).Success? ==>
      r == Success(m[tpl := Entry(tpl, angles[|angles| - 1], ImRead(detect, disk).value, threshold, correlate)])
  {
    ghost var loaded := ImRead(detect, disk);
    var acc := m;
    for j := 0 to |angles|
      invariant loaded.Failure? ==> j == 0
      invariant j == 0 ==> acc == m
      invariant 0 < j ==> loaded.Success?
      invariant 0 < j ==> acc == m[tpl := Entry(tpl, angles[j - 1], loaded.value, threshold, correlate)]
    {
      var s := MatchTemplateAsWritten(tpl, detect, threshold, angles[j], correlate, disk);
      match s
      case Failure(e) =>
        return Failure(e);
      case Success(summary) =>
        acc := acc[tpl := (angles[j], summary)];
    }
    r := Success(acc);
  }

  /** How one iteration of the worker's loop ends: the worker stopped; the requests
      were serviced; an exception was raised and swallowed; or the exposure
      controller was still running when the readings ran out. */
  datatype IterEnd = Exited | Serviced | Failed(fault: Fault) | InController

  /** The exceptions the model represents: a read that returned no frame, a match
      request serviced without a result queue, and cv2.imread failing in the matcher
      as written. */
  datatype Fault = ReadFailure | NoResultQueue | MatchFailed(error: MatchError)

  /** The parameters of a match request (and the picture angle, which both kinds of
      request use). */
  datatype MatchParams = MatchParams(angles: seq<real>, tpls: seq<Template>, threshold: real,
                                     requestAngle: real, save: bool, queue: ResultQueue?)

  /** The parameters when no match request is pending: the constructor's values, and
      the ones a serviced match request resets to. */
  function IdleParams(): MatchParams
  {
    MatchParams([], [], 0.0, 0.0, false, null)
  }

  /** The request-side state of the worker. */
  datatype RequestState = RequestState(pictureRequest: bool, pictureDone: bool,
                                       lastTakeStatus: Option<TakeStatus>, capture: Option<Frame>,
                                       matchRequest: bool, samples: seq<Frame>, params: MatchParams)

  class CamCam {
    const id: int
    /** Target brightness and tolerance, in tenths. */
    const targetBr: int
    const targetBrDiff: int
    /** The current gain, in tenths. */
    var camGain: int
    /** The device's gain file: the gain last saved, if any. */
    var gainFile: Option<int>
    var lastTakeStatus: Option<TakeStatus>
    var requestAngle: real
    var requestSave: bool
    var resultQueue: ResultQueue?
    var matchAngles: seq<real>
    var matchThreshold: real
    var matchTpls: seq<Template>
    /** The event flags. */
    var exitRequest: bool
    var exitDone: bool
    var pictureRequest: bool
    var pictureDone: bool
    var matchRequest: bool
    /** Whether the device is open, and whether the worker's loop is still running. */
    var camOpened: bool
    var running: bool
    /** The fixed-name capture file, and the sample files written so far, in order. */
    var capture: Option<Frame>
    var samples: seq<Frame>

    ghost predicate Valid()
      reads this
    {
      (matchRequest ==> matchAngles != []) &&
      (pictureDone ==> lastTakeStatus.Some?) &&
      (exitDone <==> !running) &&
      (!running ==> !camOpened)
    }

    function Params(): MatchParams
      reads this
    {
      MatchParams(matchAngles, matchTpls, matchThreshold, requestAngle, requestSave, resultQueue)
    }

    function Requests(): RequestState
      reads this
    {
      RequestState(pictureRequest, pictureDone, lastTakeStatus, capture, matchRequest, samples, Params())
    }

    /** A worker for a device that opens (or fails to open) as `opens`, with the target
        brightness and tolerance in whole units and the gain file as found on disk. */
    constructor (id: int, targetBrUnits: int, targetBrDiffUnits: int, gainFile: Option<int>, opens: bool)
      ensures Valid()
      ensures this.id == id && targetBr == 10 * targetBrUnits && targetBrDiff == 10 * targetBrDiffUnits
      ensures this.gainFile == gainFile && camGain == LastGainRead(gainFile)
      ensures Params() == IdleParams() && lastTakeStatus == None
      ensures !exitRequest && !exitDone && !pictureRequest && !pictureDone && !matchRequest
      ensures camOpened == opens && running
      ensures capture == None && samples == []
    {
      this.id := id;
      targetBr := 10 * targetBrUnits;
      targetBrDiff := 10 * targetBrDiffUnits;
      this.gainFile := gainFile;
      camGain := LastGainRead(gainFile);
      lastTakeStatus := None;
      requestAngle := 0.0;
      requestSave := false;
      resultQueue := null;
      matchAngles := [];
      matchThreshold := 0.0;
      matchTpls := [];
      exitRequest, exitDone := false, false;
      pictureRequest, pictureDone := false, false;
      matchRequest := false;
      camOpened := opens;
      running := true;
      capture := None;
      samples := [];
    }

    /** exit(), up to its wait: ask the worker to stop. */
    method Exit()
      modifies this`exitRequest
      ensures exitRequest
    {
      exitRequest := true;
    }

    /** What exit() returns once its wait is over: whether the worker confirmed,
        which it has done exactly when its loop has ended. */
    function ExitConfirmed(): (confirmed: bool)
      reads this
      ensures Valid() ==> (confirmed <==> !running)
    {
      exitDone
    }

    /** picture_take(), up to its wait: post a picture request at an angle. */
    method PictureTake(angle: real := 0.0)
      modifies this`requestAngle, this`pictureDone, this`pictureRequest
      ensures requestAngle == angle && !pictureDone && pictureRequest
    {
      requestAngle := angle;
      pictureDone := false;
      pictureRequest := true;
    }

    /** What picture_take() returns once its wait is over: the status of the picture
        taken for it, or nothing (an empty status) when none was taken yet. */
    function TakeResult(): (r: Option<TakeStatus>)
      reads this
      ensures Valid() ==> (r.Some? <==> pictureDone)
      ensures r.Some? ==> r == lastTakeStatus
    {
      if pictureDone then lastTakeStatus else None
    }

    /** picture_match_asynq(): post a match request; an empty angle list means 0 only. */
    method PictureMatchAsynq(queue: ResultQueue?, threshold: real := 0.0, save: bool := false,
                             tpls: seq<Template> := [], angles: seq<real> := [])
      requires Valid()
      modifies this`matchAngles, this`matchThreshold, this`matchTpls, this`requestSave,
               this`resultQueue, this`matchRequest
      ensures Valid()
      ensures matchAngles == if angles == [] then [0.0] else angles
      ensures matchThreshold == threshold && matchTpls == tpls && requestSave == save
      ensures resultQueue == queue && matchRequest
    {
      if |angles| == 0 {
        matchAngles := [0.0];
      } else {
        matchAngles := angles;
      }
      matchThreshold := threshold;
      matchTpls := tpls;
      requestSave := save;
      resultQueue := queue;
      matchRequest := true;
    }

    /** The exposure controller as the worker runs it on the device's next readings:
        apply the gain, read, measure, and stop or correct the gain and go round
        again. Only a converged run writes the gain file. */
    method ExposeAndCapture(readings: seq<Reading>) returns (r: RunResult)
      modifies this`camGain, this`gainFile
      ensures r == Run(old(camGain), readings, 0, targetBr, targetBrDiff)
      ensures camGain == r.gain
      ensures gainFile == if r.end.Taken? && r.end.status.status == Ok then Some(r.gain) else old(gainFile)
    {
      var takeTry: nat := 0;
      var i := 0;
      ghost var goal := Run(camGain, readings, 0, targetBr, targetBrDiff);
      while true
        invariant 0 <= i <= |readings|
        invariant goal == Run(camGain, readings, i, targetBr, targetBrDiff)
        invariant gainFile == old(gainFile)
        decreases |readings| - i
      {
        if i == |readings| {
          return RunResult(Starved, i, camGain);
        }
        if readings[i].None? {
          return RunResult(ReadFailed, i, camGain);
        }
        var br := readings[i].value;
        var diff := br - targetBr;
        ghost var applied := camGain;
        var stop := CorrectGain(diff);
        if stop.Some? {
          if stop.value == Ok {
            gainFile := Some(camGain);
          }
          return RunResult(Taken(TakeStatus(stop.value, br, diff, takeTry, camGain)), i, camGain);
        }
        RunContinues(applied, readings, i, targetBr, targetBrDiff, camGain);
        i := i + 1;
      }
    }

    /** The decision of one pass of the controller loop on a frame `diff` tenths off
        target: stop with a status, keeping the gain, or correct the gain by a quarter
        of the error towards the target and clamp it into range. */
    method CorrectGain(diff: int) returns (stop: Option<Status>)
      modifies this`camGain
      ensures Step(old(camGain), diff, targetBrDiff) == if stop.Some? then Stop(stop.value) else Continue(camGain)
      ensures stop.Some? ==> camGain == old(camGain)
    {
      if Abs(diff) < targetBrDiff {
        return Some(Ok);
      } else if diff < 0 {
        if camGain < MaxGain {
          camGain := camGain + QuarterStep(-diff);
        } else {
          return Some(GainMax);
        }
      } else if diff > 0 {
        if camGain > MinGain {
          camGain := camGain - QuarterStep(diff);
        } else {
          return Some(GainMin);
        }
      }
      if camGain < MinGain {
        camGain := MinGain;
      } else if camGain > MaxGain {
        camGain := MaxGain;
      }
      stop := None;
    }

    /** Lines 99-105: service a pending picture request with the picture just taken
        and its status; returns the picture, rotated if the request was serviced. */
    method ServicePicture(shot: Frame, status: TakeStatus) returns (picture: Frame)
      modifies this`pictureRequest, this`lastTakeStatus, this`capture, this`pictureDone
      ensures !pictureRequest
      ensures old(pictureRequest) ==>
        picture == Rotate(shot, requestAngle) && pictureDone &&
        lastTakeStatus == Some(status) && capture == Some(picture)
      ensures !old(pictureRequest) ==>
        picture == shot && pictureDone == old(pictureDone) &&
        lastTakeStatus == old(lastTakeStatus) && capture == old(capture)
    {
      picture := shot;
      if pictureRequest {
        pictureRequest := false;
        lastTakeStatus := Some(status);
        picture := Rotate(picture, requestAngle);
        capture := Some(picture);
        pictureDone := true;
      }
    }

    /** Lines 107-132: service a pending match request on the picture: rotate it,
        save it as a sample if asked, match it, publish the result and reset the
        request's parameters. Without a queue the publication raises, which leaves
        the parameters as they were. */
    method ServiceMatch(shot: Frame, correlate: Correlator) returns (fault: Option<Fault>)
      modifies this`matchRequest, this`samples, this`matchAngles, this`matchTpls, this`matchThreshold,
               this`requestAngle, this`requestSave, this`resultQueue, resultQueue
      ensures !matchRequest
      ensures !old(matchRequest) ==>
        fault == None && samples == old(samples) && Params() == old(Params()) &&
        (old(resultQueue) != null ==> old(resultQueue).items == old(resultQueue.items))
      ensures old(matchRequest) ==>
        var picture := Rotate(shot, old(requestAngle));
        samples == old(samples) + (if old(requestSave) then [picture] else []) &&
        (old(resultQueue) == null ==> fault == Some(NoResultQueue) && Params() == old(Params())) &&
        (old(resultQueue) != null ==>
          fault == None && Params() == IdleParams() &&
          old(resultQueue).items == old(resultQueue.items) +
            [MatchResult(id, "ok", MatchMap(old(matchTpls), old(matchAngles), picture, old(matchThreshold), correlate))])
    {
      fault := None;
      if matchRequest {
        matchRequest := false;
        var picture := Rotate(shot, requestAngle);
        if requestSave {
          samples := samples + [picture];
        }
        var matches := CollectMatches(matchTpls, matchAngles, picture, matchThreshold, correlate);
        fault := Publish(MatchResult(id, "ok", matches));
      }
    }

    /** Lines 107-132 as written: the matcher is handed the in-memory picture, so with
        a template and an angle to match, cv2.imread raises after the sample was saved.
        The result is never put on the queue and the parameters are not reset. */
    method ServiceMatchAsWritten(shot: Frame, correlate: Correlator) returns (fault: Option<Fault>)
      modifies this`matchRequest, this`samples, this`matchAngles, this`matchTpls, this`matchThreshold,
               this`requestAngle, this`requestSave, this`resultQueue, resultQueue
      ensures !matchRequest
      ensures !old(matchRequest) ==>
        fault == None && samples == old(samples) && Params() == old(Params()) &&
        (old(resultQueue) != null ==> old(resultQueue).items == old(resultQueue.items))
      ensures old(matchRequest) ==>
        samples == old(samples) + (if old(requestSave) then [Rotate(shot, old(requestAngle))] else [])
      ensures old(matchRequest) && old(matchTpls) != [] && old(matchAngles) != [] ==>
        fault == Some(MatchFailed(ImreadNeedsPath)) && Params() == old(Params()) &&
        (old(resultQueue) != null ==> old(resultQueue).items == old(resultQueue.items))
      ensures old(matchRequest) && (old(matchTpls) == [] || old(matchAngles) == []) ==>
        (old(resultQueue) == null ==> fault == Some(NoResultQueue) && Params() == old(Params())) &&
        (old(resultQueue) != null ==>
          fault == None && Params() == IdleParams() &&
          old(resultQueue).items == old(resultQueue.items) + [MatchResult(id, "ok", map[])])
    {
      fault := None;
      if matchRequest {
        matchRequest := false;
        var picture := Rotate(shot, requestAngle);
        if requestSave {
          samples := samples + [picture];
        }
        // The file system plays no part: an image array is never a file name.
        var matches := CollectMatchesAsWritten(matchTpls, matchAngles, Pixels(picture), matchThreshold,
                                               correlate, map[]);
        WorkerMatchRaises(matchTpls, matchAngles, picture, matchThreshold, correlate, map[]);
        match matches
        case Failure(e) =>
          fault := Some(MatchFailed(e));
        case Success(m) =>
          fault := Publish(MatchResult(id, "ok", m));
      }
    }

    /** Lines 125-132: put the result on the request's queue and reset the request's
        parameters; without a queue the put raises before the reset. */
    method Publish(result: MatchResult) returns (fault: Option<Fault>)
      modifies this`matchAngles, this`matchTpls, this`matchThreshold, this`requestAngle,
               this`requestSave, this`resultQueue, resultQueue
      ensures old(resultQueue) == null ==> fault == Some(NoResultQueue) && Params() == old(Params())
      ensures old(resultQueue) != null ==>
        fault == None && Params() == IdleParams() &&
        old(resultQueue).items == old(resultQueue.items) + [result]
    {
      if resultQueue == null {
        return Some(NoResultQueue);
      }
      resultQueue.PutNowait(result);
      matchAngles := [];
      matchTpls := [];
      matchThreshold := 0.0;
      requestAngle := 0.0;
      requestSave := false;
      resultQueue := null;
      fault := None;
    }

    /** One iteration of the worker's loop on the device's next readings. */
    method RunOnce(readings: seq<Reading>, correlate: Correlator) returns (end: IterEnd)
      requires Valid() && running
      modifies this, resultQueue
      ensures Valid() && exitRequest == old(exitRequest)
      // Exit is checked first; the device is released and the loop ends.
      ensures old(exitRequest) ==>
        end == Exited && !running && exitDone && !camOpened &&
        camGain == old(camGain) && gainFile == old(gainFile) && Requests() == old(Requests())
      ensures !old(exitRequest) ==> running && camOpened == old(camOpened)
      // Otherwise the controller runs from the current gain.
      ensures !old(exitRequest) ==>
        var r := Run(old(camGain), readings, 0, targetBr, targetBrDiff);
        camGain == r.gain &&
        gainFile == (if r.end.Taken? && r.end.status.status == Ok then Some(r.gain) else old(gainFile)) &&
        (!r.end.Taken? ==> Requests() == old(Requests()) &&
                           end == if r.end.Starved? then InController else Failed(ReadFailure)) &&
        (r.end.Taken? ==> !pictureRequest && !matchRequest)
      // A pending picture request gets the status and the rotated picture.
      ensures !old(exitRequest) ==>
        var r := Run(old(camGain), readings, 0, targetBr, targetBrDiff);
        r.end.Taken? ==>
          if old(pictureRequest) then
            pictureDone && lastTakeStatus == Some(r.end.status) &&
            capture == Some(Rotate(Frame(r.at, []), old(requestAngle)))
          else
            pictureDone == old(pictureDone) && lastTakeStatus == old(lastTakeStatus) && capture == old(capture)
      // Without a match request nothing else changes.
      ensures !old(exitRequest) && !old(matchRequest) ==>
        var r := Run(old(camGain), readings, 0, targetBr, targetBrDiff);
        r.end.Taken? ==> end == Serviced && samples == old(samples) && Params() == old(Params())
      // A pending match request: the picture (rotated once more) is saved if asked,
      // and the result is published and the parameters reset, unless there is no queue.
      ensures !old(exitRequest) && old(matchRequest) ==>
        var r := Run(old(camGain), readings, 0, targetBr, targetBrDiff);
        var shot := Frame(r.at, []);
        var picture := Rotate(if old(pictureRequest) then Rotate(shot, old(requestAngle)) else shot,
                              old(requestAngle));
        r.end.Taken? ==>
          samples == old(samples) + (if old(requestSave) then [picture] else []) &&
          (old(resultQueue) == null ==> end == Failed(NoResultQueue) && Params() == old(Params())) &&
          (old(resultQueue) != null ==>
            end == Serviced && Params() == IdleParams() &&
            old(resultQueue).items == old(resultQueue.items) +
              [MatchResult(id, "ok", MatchMap(old(matchTpls), old(matchAngles), picture, old(matchThreshold), correlate))])
      // The queue receives nothing otherwise.
      ensures old(resultQueue) != null && end != Serviced ==> old(resultQueue).items == old(resultQueue.items)
      ensures old(resultQueue) != null && !old(matchRequest) ==> old(resultQueue).items == old(resultQueue.items)
    {
      if exitRequest {
        if camOpened {
          camOpened := false;
        }
        running := false;
        exitDone := true;
        return Exited;
      }
      var r := ExposeAndCapture(readings);
      if r.end.Starved? {
        return InController;
      }
      if r.end.ReadFailed? {
        return Failed(ReadFailure);
      }
      assert Requests() == old(Requests());
      end := ServiceRequests(Frame(r.at, []), r.end.status, correlate);
    }

    /** Lines 99-132: service the pending requests with the picture just taken and its
        status. */
    method ServiceRequests(shot: Frame, status: TakeStatus, correlate: Correlator) returns (end: IterEnd)
      requires Valid()
      modifies this, resultQueue
      ensures Valid() && !pictureRequest && !matchRequest
      ensures exitRequest == old(exitRequest) && running == old(running) && camOpened == old(camOpened)
      ensures camGain == old(camGain) && gainFile == old(gainFile)
      ensures old(pictureRequest) ==>
        pictureDone && lastTakeStatus == Some(status) && capture == Some(Rotate(shot, old(requestAngle)))
      ensures !old(pictureRequest) ==>
        pictureDone == old(pictureDone) && lastTakeStatus == old(lastTakeStatus) && capture == old(capture)
      ensures !old(matchRequest) ==> end == Serviced && samples == old(samples) && Params() == old(Params())
      ensures old(matchRequest) ==>
        var picture := Rotate(if old(pictureRequest) then Rotate(shot, old(requestAngle)) else shot,
                              old(requestAngle));
        samples == old(samples) + (if old(requestSave) then [picture] else []) &&
        (old(resultQueue) == null ==> end == Failed(NoResultQueue) && Params() == old(Params())) &&
        (old(resultQueue) != null ==>
          end == Serviced && Params() == IdleParams() &&
          old(resultQueue).items == old(resultQueue.items) +
            [MatchResult(id, "ok", MatchMap(old(matchTpls), old(matchAngles), picture, old(matchThreshold), correlate))])
      ensures old(resultQueue) != null && (end != Serviced || !old(matchRequest)) ==>
        old(resultQueue).items == old(resultQueue.items)
    {
      var picture := ServicePicture(shot, status);
      var fault := ServiceMatch(picture, correlate);
      if fault.Some? {
        return Failed(fault.value);
      }
      return Serviced;
    }
  }

  /** A request for a saved sample matched against two templates at angle 0, serviced
      by one iteration on a frame at the target brightness, with the corrected
      matcher: one sample file, one published result with one key per template, each
      at angle 0, and the request's parameters reset. */
  method SaveAndMatchTwoTemplates(correlate: Correlator)
    returns (end: IterEnd, saved: nat, published: seq<MatchResult>, params: MatchParams)
    ensures end == Serviced && saved == 1 && |published| == 1 && params == IdleParams()
    ensures published[0].matches.Keys == {"a.png", "b.png"}
    ensures published[0].matches["a.png"].0 == 0.0 && published[0].matches["b.png"].0 == 0.0
  {
    var cam := new CamCam(0, 160, 2, None, true);
    var q := new ResultQueue();
    cam.PictureMatchAsynq(q, 0.0, true, ["a.png", "b.png"], [0.0]);
    end := cam.RunOnce([Some(1600)], correlate);
    saved, published, params := |cam.samples|, q.items, cam.Params();
  }

  /** The same request serviced as written: the sample file is written, then the
      matcher raises, so nothing is published and the parameters stay as requested. */
  method SaveAndMatchTwoTemplatesAsWritten(correlate: Correlator)
    returns (fault: Option<Fault>, saved: nat, published: seq<MatchResult>, params: MatchParams)
    ensures fault == Some(MatchFailed(ImreadNeedsPath)) && saved == 1 && published == []
    ensures params.tpls == ["a.png", "b.png"] && params.angles == [0.0] && params.save
  {
    var cam := new CamCam(0, 160, 2, None, true);
    var q := new ResultQueue();
    cam.PictureMatchAsynq(q, 0.0, true, ["a.png", "b.png"], [0.0]);
    fault := cam.ServiceMatchAsWritten(Frame(0, []), correlate);
    saved, published, params := |cam.samples|, q.items, cam.Params();
  }

  /** A picture request at 90 degrees serviced by one iteration whose first frame is
      too dark and second on target: the caller gets the second frame's status, taken
      at the corrected gain, the gain file now holds that gain, and the capture is
      the second frame rotated by 90 degrees. */
  method PictureAfterOneCorrection(correlate: Correlator)
    returns (end: IterEnd, status: Option<TakeStatus>, gainFile: Option<int>, capture: Option<Frame>)
    ensures end == Serviced && status == Some(TakeStatus(Ok, 1600, 0, 0, 700))
    ensures gainFile == Some(700) && capture == Some(Frame(1, [90.0]))
  {
    var cam := new CamCam(0, 160, 2, None, true);
    cam.PictureTake(90.0);
    end := cam.RunOnce([Some(1200), Some(1600)], correlate);
    assert [] + [90.0] == [90.0];
    status, gainFile, capture := cam.TakeResult(), cam.gainFile, cam.capture;
  }
}
