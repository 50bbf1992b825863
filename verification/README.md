# cam_cam in Dafny

A model of the capture side of cam_cam, a small camera application. It has two parts.

The capture worker, `CamCam` in `cam_cam/camcam.py`, owns a camera and runs a loop on a thread. Each pass of the loop:

- checks for an exit request;
- takes a picture through an exposure controller, a proportional feedback loop on the camera gain;
- services a pending picture request: rotates the picture, keeps it as the capture and publishes its status;
- services a pending match request: rotates the picture, optionally saves it as a sample, matches it against every template at every angle, puts the result on the caller's queue and resets the request.

The command line front end, `cam_cam/camapp.py`, reads lines. It strips each one, splits it into a command and parameters, and turns `exit`, `cam <angle>` and `save` into calls on the worker.

Modules:

- `Wrappers`: `Option` and `Result`.
- `Imaging`: the part of OpenCV that the worker's logic depends on:
  - a frame records its position in the device's stream and the rotations applied to it;
  - a template is a file name;
  - the correlation map of a template over a frame is a parameter of type `Correlator`.
- `Exposure`: the controller. It has one pure step, `Step`, and a run over a finite stream of brightness readings, `Run`. Gain, brightness, brightness error and tolerance are integers counting tenths. The code rounds brightness and the brightness error to a tenth (camcam.py:159, 203). Its tolerance is a whole number, held as ten times that many tenths. Its gain is a float that it never rounds. It is changed only by steps rounded to a tenth (lines 174, 182), so it stays a whole number of tenths when it starts as one; see "Left out". A reading is `None` when the device returned no frame.
- `Matcher`: the summary fold of the template matcher, `SummaryOf` and the method `MatchTemplate`, over a correlation map given as a sequence of scores.
- `Worker`: the class `CamCam` with the worker's fields, the caller-side request methods, and the controller loop as the worker runs it (`ExposeAndCapture`, proved equal to `Run`). One loop iteration is `RunOnce`; the event flags are booleans. The caller's queue is the class `ResultQueue`.
- `Text`: Python's `str.strip()`, `str.split(" ", 1)` and `str.split()` on strings, with the whitespace set Python uses.
- `CamApp`: tokenizing a line, dispatching a command, and the read-dispatch loop `Repl`. The loop's result is a `Session`: how it ended and the requests it posted to the worker, in order. A request is a picture request at an angle, or a match request with its threshold, save flag, templates and angles; `save` posts a match request with threshold 0, the save flag set and no template or angle.
- `SeqFacts`: generic lemmas about slicing and concatenating sequences.

Two failure paths of the code:

- A read that returns no frame. The code passes the missing image to `cv2.cvtColor` (camcam.py:157), which raises, and the worker's `except` at camcam.py:134 swallows the exception. The model ends such a run with `ReadFailed`, and the iteration with `Failed(ReadFailure)`.
- A gain file whose content is not a number. `float()` raises in the constructor (camcam.py:211). See "Left out".

Two defects of the code are listed under "Findings". For each, the model has a member that follows the code as written and a corrected member. The loop-level members `CollectMatches`, `ServiceMatch`, `ServiceRequests`, `RunOnce`, `HandleLine` and `Repl` run the corrected behaviour; `CollectMatchesAsWritten`, `ServiceMatchAsWritten`, `HandleLineAsWritten` and `ReplAsWritten` run the code as written.

## Model

| member | source | states |
|---|---|---|
| Exposure.LastGainRead | cam_cam/camcam.py:206-213 | the gain file's number, or the default 60.0 when there is no file. It carries no contract of its own; the gain a converged run saves reads back as the gain of its frame (Exposure.ConvergedGainRestored) |
| Exposure.StatusTextDistinct | cam_cam/camcam.py:170-187 | the status strings "ok", "cam_gain max" and "cam_gain min" are distinct, so the status a caller reads identifies the outcome |
| Exposure.QuarterStep | cam_cam/camcam.py:174 | the gain step for an error of d tenths is within half a tenth of d/4, and it is zero exactly when d is at most 0.1 |
| Exposure.Clamp | cam_cam/camcam.py:189-192 | the result lies in [0.0, 100.0]; a gain already inside is unchanged; a gain below or above is forced to the nearer limit |
| Exposure.Step | cam_cam/camcam.py:168-192 | one loop pass stops with "ok" exactly when abs(diff) < tolerance. It stops with "cam_gain max" exactly when the frame is too dark and the gain is already at least 100.0, and with "cam_gain min" exactly when the frame is too bright and the gain is at most 0.0. A pass that goes on leaves the gain in range. It never lowers the gain on a dark frame and never raises it on a bright one. With diff 0 the gain is only clamped. Inside the range the gain moves by at most the quarter step |
| Exposure.Run | cam_cam/camcam.py:151-193 | a run ends at a reading inside the stream; its meaning is stated by Exposure.RunMeaning |
| Exposure.RunMeaning | cam_cam/camcam.py:141-193 | A run ends at the first reading that is missing or that a loop pass stops on. Every reading before that was a frame on which the loop pass, at the gain reached there (GainAt), went on. The run is starved exactly when the readings ran out. The final gain is the gain reached at the reading the run ended at: the starting gain, or one inside the range. A returned status carries the frame's brightness, its error from the target, "try" 0, the gain the frame was taken with, and the status the loop pass decided on that frame |
| Exposure.RunContinues | cam_cam/camcam.py:151-192 | a loop pass that goes on with a new gain hands the rest of the run to that gain on the next reading |
| Exposure.ConvergedGainRestored | cam_cam/camcam.py:168-171 | after an "ok" run, the gain saved and read back on the next start (lines 206-219) is the gain the returned frame was taken with, and that frame's error is within the tolerance |
| Exposure.DarkSceneOnlyRaisesGain | cam_cam/camcam.py:172-179 | while every frame is too dark, the gain never decreases and the only status a run can return is "cam_gain max" |
| Exposure.BrightSceneOnlyLowersGain | cam_cam/camcam.py:180-187 | while every frame is too bright, the gain never increases and the only status a run can return is "cam_gain min" |
| Exposure.DarkSceneSaturates | cam_cam/camcam.py:172-192 | on a scene too dark by at least 0.2, a run started in range returns "cam_gain max" within MaxGain - gain + 1 reads |
| Exposure.BrightSceneSaturates | cam_cam/camcam.py:180-192 | on a scene too bright by at least 0.2, a run started in range returns "cam_gain min" within gain - MinGain + 1 reads |
| Imaging.Rotate | cam_cam/camcam.py:103 | rotating a picture (also lines 110 and 238) keeps which frame it is and only adds to its rotations, with a non-zero angle recorded last; a rotation by 0 leaves the picture unchanged (line 237) |
| Matcher.Above | cam_cam/camcam.py:250-251 | the kept scores are all strictly above the threshold, and a score is kept exactly when it occurs in the map above the threshold; how often it is kept is stated by Matcher.AboveMultiplicity |
| Matcher.AboveMultiplicity | cam_cam/camcam.py:250-264 | each score above the threshold is kept, and added to `buff`, exactly as many times as it occurs in the map; no other score is kept |
| Matcher.Peak | cam_cam/camcam.py:259-265 | the running maximum from 0.0 is non-negative, is at least every score, and is 0.0 or one of the scores |
| Matcher.Round3 | cam_cam/camcam.py:279-281 | round(x, 3) lies within half a thousandth of x and has at most three decimals |
| Matcher.Round3Monotone | cam_cam/camcam.py:279-281 | rounding to 3 decimals preserves order |
| Matcher.AboveCountsPositions | cam_cam/camcam.py:250-251 | the number of kept scores is the number of map positions whose score exceeds the threshold |
| Matcher.MeanBounds | cam_cam/camcam.py:280-281 | the rounded mean of the kept scores lies between the rounded threshold and the rounded highest score |
| Matcher.SummaryOf | cam_cam/camcam.py:277-283 | without a detection the summary is (0, 0, 0), and the highest score is never negative; its full meaning is stated by Matcher.SummaryMeaning |
| Matcher.SummaryMeaning | cam_cam/camcam.py:250-283 | the detection count is the number of positions above the threshold. With no detection, the highest score and the mean are 0. Otherwise the mean lies between the threshold and the highest score. The highest score is at least every detection, rounded |
| Matcher.NothingAboveMaximum | cam_cam/camcam.py:250-283 | a threshold at or above every score gives the summary (0, 0, 0) |
| Matcher.HighestIsPeak | cam_cam/camcam.py:259-279 | with a non-negative threshold and one detection, the highest score is the maximum of the whole map, rounded |
| Matcher.MatchTemplate | cam_cam/camcam.py:237-283 | the loop's count, sum and running maximum over the rotated frame's map give exactly the summary SummaryOf defines |
| Matcher.ImRead | cam_cam/camcam.py:236 | cv2.imread succeeds exactly on a file name under which an image is stored, and returns that image; an image array fails with ImreadNeedsPath |
| Matcher.MatchTemplateAsWritten | cam_cam/camcam.py:234-283 | handed an in-memory frame, the matcher raises at cv2.imread; handed a file name it summarises the stored image's map |
| Matcher.MatchOnWorkerFrameRaises | cam_cam/camcam.py:236 | on the frame the worker passes, the matcher as written does not return that frame's summary |
| Worker.ResultQueue.constructor | cam_cam/camapp.py:51 | a new queue is empty |
| Worker.ResultQueue.PutNowait | cam_cam/camcam.py:125 | put_nowait appends the result at the end of the queue |
| Worker.MatchMapContents | cam_cam/camcam.py:109-124 | the result map has exactly one key per distinct template, none when there is no angle, and each key holds the last angle and the summary at that angle |
| Worker.CollectMatches | cam_cam/camcam.py:120-124 | with the corrected matcher (see Findings), the nested loop over templates and angles builds exactly the map MatchMap defines |
| Worker.WorkerMatchRaises | cam_cam/camcam.py:120-124 | as written, the loop over the worker's in-memory picture raises ImreadNeedsPath exactly when there is a template and an angle; otherwise the map is empty |
| Worker.CollectMatchesAsWritten | cam_cam/camcam.py:120-124 | the loop as written leaves at the first exception of the matcher as written, and returns what MatchMapAsWritten defines: an empty map without a template or an angle, the first cv2.imread failure, or the full map of a stored image |
| Worker.MatchAnglesAsWritten | cam_cam/camcam.py:121-124 | the inner loop as written, for one template: no angle leaves the map as it was; otherwise it fails as cv2.imread does, or stores the last angle's entry for the stored image |
| Worker.CamCam.constructor | cam_cam/camcam.py:17-57 | A new worker stores its id and the target and tolerance, in tenths. Its gain is the gain file's value, or 60.0 without a file. No request is pending, the request parameters have their defaults, and the worker is running |
| Worker.CamCam.Exit | cam_cam/camcam.py:59-61 | exit() raises the exit request flag |
| Worker.CamCam.ExitConfirmed | cam_cam/camcam.py:62-65 | after its wait, exit() reports True exactly when the worker's loop has ended |
| Worker.CamCam.PictureTake | cam_cam/camcam.py:79-83 | picture_take() stores the angle, clears picture_done and raises the picture request flag |
| Worker.CamCam.TakeResult | cam_cam/camcam.py:84-87 | after its wait, picture_take() returns a status exactly when the requested picture was done, and that status is the last one the worker kept |
| Worker.CamCam.PictureMatchAsynq | cam_cam/camcam.py:67-77 | picture_match_asynq() stores the request. An empty angle list becomes [0]. The match request flag is raised |
| Worker.CamCam.ExposeAndCapture | cam_cam/camcam.py:141-193 | the controller loop returns exactly Run's result and leaves the gain Run ends with; the gain file is written exactly when the run converged, with that gain (lines 169, 215-219) |
| Worker.CamCam.CorrectGain | cam_cam/camcam.py:168-192 | one pass of the loop body changes the gain exactly as Step decides, and keeps it when it stops |
| Worker.CamCam.ServicePicture | cam_cam/camcam.py:99-105 | A pending picture request is cleared. The status is published, the picture rotated by the request angle becomes the capture, and picture_done is set. Without a request nothing changes |
| Worker.CamCam.ServiceMatch | cam_cam/camcam.py:107-132 | With the corrected matcher (see Findings): a pending match request is cleared. The picture is rotated again, and saved as a sample if asked. The map of every template at every angle is put on the queue, and the parameters are reset to their defaults. Without a queue the put raises and the parameters stay |
| Worker.CamCam.ServiceMatchAsWritten | cam_cam/camcam.py:107-134 | As written: a pending match request is cleared and the sample saved if asked. With a template and an angle the matcher raises ImreadNeedsPath, nothing is put on the queue and the parameters stay as requested. Without either, the empty map is published and the parameters reset, or the put raises without a queue. Without a request nothing changes |
| Worker.CamCam.Publish | cam_cam/camcam.py:125-132 | the result is appended to the caller's queue and every request parameter is reset; without a queue it raises before the reset |
| Worker.CamCam.ServiceRequests | cam_cam/camcam.py:98-132 | with the corrected matcher (see Findings), the picture request is serviced before the match request, on the same picture; both flags end cleared and nothing else about the worker changes |
| Worker.CamCam.RunOnce | cam_cam/camcam.py:89-139 | With the corrected matcher (see Findings). Exit is checked before any capture: it releases the device, ends the loop and sets exit_done. Otherwise the controller runs from the current gain. A missing frame fails the iteration before any request is serviced. A frame that is taken services the picture and then the match request, and the queue receives a result only then |
| Worker.SaveAndMatchTwoTemplates | cam_cam/camcam.py:89-132 | with the corrected matcher, one iteration on a frame on target services a saving match request for templates a.png and b.png at angle 0: one sample is kept, one result is published with an entry at angle 0 for each template, and the parameters are reset |
| Worker.SaveAndMatchTwoTemplatesAsWritten | cam_cam/camcam.py:107-134 | the same request serviced as written: the sample is kept, the matcher raises ImreadNeedsPath, nothing is published and the parameters stay as requested |
| Worker.PictureAfterOneCorrection | cam_cam/camcam.py:89-105 | a picture request at 90 degrees, with a first frame too dark and a second on target: the iteration is serviced, the caller gets the second frame's status at the corrected gain 70.0, the gain file holds 70.0, and the capture is the second frame rotated by 90 degrees |
| Text.Strip | cam_cam/camapp.py:33 | str.strip() is empty exactly on an all-whitespace line; otherwise it starts and ends with non-whitespace and is the line without its leading and trailing whitespace |
| Text.StripTrimmed | cam_cam/camapp.py:33 | a string that starts and ends with non-whitespace is its own str.strip() |
| Text.StripWord | cam_cam/camapp.py:33 | a word is its own str.strip() |
| Text.SplitFirstSpace | cam_cam/camapp.py:37-38 | the first part has no space; without a space it is the whole string, otherwise the string is the first part, one space and the rest |
| Text.SplitAfterWord | cam_cam/camapp.py:37-38 | a word, one space and any text split into that word and that text |
| Text.SplitWord | cam_cam/camapp.py:37-38 | a word has no space to split at |
| Text.SplitWs | cam_cam/camapp.py:40 | every token of str.split() is non-empty and free of whitespace, and there are none exactly when the string is all whitespace |
| Text.SplitWsSkipsLeading | cam_cam/camapp.py:40 | leading whitespace does not change str.split() |
| Text.SplitWsDropsTrailing | cam_cam/camapp.py:40 | trailing whitespace does not change str.split() |
| Text.SplitWsIgnoresStrip | cam_cam/camapp.py:40 | str.split() after str.strip() gives the same tokens as str.split() alone |
| Text.SplitJoinRoundTrip | cam_cam/camapp.py:40 | splitting words joined with single spaces gives back the words |
| Text.SplitWsWord | cam_cam/camapp.py:40 | str.split() of a word is that word alone |
| Text.SplitKeepsNonSpace | cam_cam/camapp.py:40 | the tokens put back together are exactly the string's non-whitespace characters, in order |
| CamApp.Tokenize | cam_cam/camapp.py:33-42 | strip, split at the first space, split the rest on whitespace. It carries no contract of its own; its meaning is stated by CamApp.TokenizeMeaning and CamApp.TokenizeJoin |
| CamApp.TokenizeMeaning | cam_cam/camapp.py:33-42 | A line yields nothing exactly when it is all whitespace. Otherwise the command is a non-empty, space-free prefix of the stripped line. There are no parameters when the line has no space; otherwise the parameters are the tokens after the first space, each non-empty and free of whitespace |
| CamApp.TokenizeJoin | cam_cam/camapp.py:33-42 | a line of words joined by single spaces tokenizes back into its first word as the command and the others, in order, as parameters |
| CamApp.TokenizeSpaced | cam_cam/camapp.py:33-42 | a word, one space and text that starts and ends with non-whitespace tokenize into that word and the text's whitespace-separated tokens |
| CamApp.WordLine | cam_cam/camapp.py:33-42 | a line that is a single word is that command with no parameters |
| CamApp.Dispatch | cam_cam/camapp.py:44-52 | choose the action of a command. It carries no contract of its own; its meaning is stated by CamApp.DispatchMeaning and, from a whole line, CamApp.CamLine |
| CamApp.DispatchMeaning | cam_cam/camapp.py:44-52 | "exit" quits. "cam" takes a picture at float(param[0]), and fails when there is no parameter or float() rejects it. "save" asks for a saved sample. Every other command does nothing |
| CamApp.CamLine | cam_cam/camapp.py:46-48 | the line `cam <word>` takes a picture at the angle float() reads from the word, and fails with ValueError when float() rejects it |
| CamApp.TaskDone | cam_cam/camapp.py:58 | task_done() succeeds exactly when a task is unfinished, and leaves one fewer |
| CamApp.AfterSaveAsWritten | cam_cam/camapp.py:53-58 | as written, a save whose result did not arrive raises ValueError, and only then |
| CamApp.AfterSave | cam_cam/camapp.py:53-58 | as intended, a save never raises and leaves no unfinished task |
| CamApp.LineActions | cam_cam/camapp.py:31-52 | each input line, in order, gets the action of its command |
| CamApp.HandleLine | cam_cam/camapp.py:33-58 | with task_done() as corrected (see Findings), one loop body stops exactly on exit or an error, and posts exactly the request of a cam or save command |
| CamApp.Repl | cam_cam/camapp.py:31-60 | with task_done() as corrected (see Findings), the loop's session (how it ends and the requests it posts, in order) is the one the lines' actions define |
| CamApp.HandleLineAsWritten | cam_cam/camapp.py:33-58 | one loop body as written stops exactly on exit, an error, or a save whose result did not arrive, and posts exactly the request of a cam or save command |
| CamApp.ReplAsWritten | cam_cam/camapp.py:31-60 | the loop as written makes the session SessionAsWritten defines: a save whose result did not arrive ends it with ValueError, after its request was posted |
| CamApp.AsWrittenAgreesWhenAnswered | cam_cam/camapp.py:53-58 | when every save gets its result in time, the loop as written and as corrected make the same session |
| CamApp.SaveTimeoutCrashes | cam_cam/camapp.py:44-58 | on the lines `save` and `exit`, with no answer to the save, the corrected loop posts the save request and ends on exit, while the loop as written posts it and stops with ValueError |
| CamApp.StopIgnoresLaterInput | cam_cam/camapp.py:44-45 | once the loop has stopped on exit or an error, further input changes nothing |
| CamApp.BlankLineIgnored | cam_cam/camapp.py:33-35 | an all-whitespace line does nothing |
| CamApp.BlankInputPostsNothing | cam_cam/camapp.py:31-35 | input made only of blank lines posts no request and ends when the input runs out |

## Left out

- OpenCV and imutils. Opening, configuring and releasing the device, reading frames, grayscale conversion, writing image files, rotation and `cv2.matchTemplate` are foreign calls:
  - the device is a sequence of brightness readings;
  - a rotation is recorded on the frame;
  - the correlation map is a parameter.
- Brightness computation (`__br_compute`, camcam.py:195-204): numpy floats. The brightness of each reading is an input.
- Threads, event waits and their 4-second timeouts. The model is sequential: the event flags are booleans, the caller-side methods stop before their wait, and `Exit`/`ExitConfirmed` and `PictureTake`/`TakeResult` split each call at its wait. The two-second `get()` timeout in camapp.py is the `answered` parameter.
- The worker's endless loop. `RunOnce` is one iteration; exceptions it swallows are returned as `Failed`.
- Exposure.Run: a stream of readings that runs out while the controller is still adjusting ends the run as `Starved`. The code keeps reading forever, and no iteration cap is added.
- Exposure.QuarterStep: halves are rounded up. Python's `round()` on binary floats can round a tie down; this is not reproduced.
- Matcher.Round3: halves are rounded up, on exact reals; the float arithmetic of `buff` and `round` is not modelled.
- Wall-clock readings: `read_takes`, `fps` and `duration` are left out of the status and the summary, and sample file names from `datetime.now()` are not modelled. Samples are kept as a list of frames.
- The bounding boxes and log lines of each detection (camcam.py:266-275) are not modelled; only the count, sum and maximum they feed are.
- Exposure.Step, Exposure.Run, Worker.CamCam.constructor: a gain that is not a whole number of tenths, such as 55.55 read from the gain file, is not represented. Float drift in the gain is not modelled either: a gain of 99.99999999999999 passes `cam_gain < 100` (camcam.py:173) one pass later than the model's 1000 does.
- Worker.CamCam.constructor: the gain file is a number or nothing. A file whose content `float()` rejects makes the code raise; this is not modelled. Creating the sample directory and the gain file's text format are file I/O and are left out.
- Logging and `print` in both files, and the final `cam_a.exit()` and farewell prints of camapp.py.
- CamApp.Repl: `KeyboardInterrupt` (camapp.py:59-60) is not modelled. `float()` on the angle parameter is the `parseFloat` parameter. The calls on the worker are recorded as requests, and their answers are not modelled. The loop calls task_done() as corrected; the loop as written is CamApp.ReplAsWritten.
- CamApp.HandleLine: calls task_done() as corrected; the body as written is CamApp.HandleLineAsWritten.
- Worker.CollectMatches: uses the corrected matcher; the loop as written is Worker.CollectMatchesAsWritten.
- Worker.CamCam.ServiceMatch: uses the corrected matcher; the servicing as written is Worker.CamCam.ServiceMatchAsWritten. The corrected matcher abstracts two more failures, so with a queue the corrected ServiceMatch always publishes:
  - camcam.py:236 alone fixed would still raise at line 240, where `cvtColor(BGR2GRAY)` rejects the single-channel frame produced at line 157;
  - a missing template file: `cv2.imread(_img_tpl, 0)` returns None at line 241 and `matchTemplate` raises at line 247.
- Matcher.MatchTemplate: correlates the template over the frame it is given. The grayscale conversion at camcam.py:240 and the template file read at line 241 are abstracted into the `Correlator` parameter, so neither can fail here.
- Worker.CamCam.ServiceRequests: services the match request with Worker.CamCam.ServiceMatch, the corrected matcher. No as-written variant of this method is given; Worker.CamCam.ServiceMatchAsWritten states the as-written effect of its match step.
- Worker.CamCam.RunOnce: services the match request with Worker.CamCam.ServiceMatch, the corrected matcher. No as-written variant of the whole iteration is given; Worker.CamCam.ServiceMatchAsWritten states the as-written effect of its match step.
- Exposure.LastGainRead, CamApp.Tokenize, CamApp.Dispatch: carry no contract of their own; the lemmas named in their rows state what they mean.

## Findings

| source | as written | input that shows it | evidently intended | confidence | as-written member | corrected member |
|---|---|---|---|---|---|---|
| cam_cam/camcam.py:236 | the matcher passes the picture it is given to `cv2.imread`, which wants a file name, while the worker (line 122) passes the in-memory picture | any match request with at least one template: `imread` raises, line 134 swallows it, and no result is ever put on the caller's queue (Worker.SaveAndMatchTwoTemplatesAsWritten, Matcher.MatchOnWorkerFrameRaises) | correlate the template over the picture it is given | high; not executed | Worker.CamCam.ServiceMatchAsWritten | Worker.CamCam.ServiceMatch |
| cam_cam/camapp.py:58 | `task_done()` is called even when `get()` timed out with `queue.Empty` | a `save` whose result is not on the queue after 2 seconds: `task_done()` on a queue with no unfinished task raises `ValueError`, which the loop does not catch, and the application stops (CamApp.SaveTimeoutCrashes on the lines `save`, `exit`) | call `task_done()` only after a result was got | high; not executed | CamApp.ReplAsWritten | CamApp.Repl |
