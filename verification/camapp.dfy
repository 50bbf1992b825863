/**
 * The command-line front end of the camera application: it reads lines, strips
 * them, splits each into a command and its parameters, and dispatches `exit`,
 * `cam <angle>` and `save` to the capture worker. Blocking calls to the worker are
 * represented by the list of requests the loop posts, in order; what the worker
 * answers is a parameter.
 */
module CamApp {
  import opened Wrappers
  import opened SeqFacts
  import opened Text

  /** A line split into a command and its parameters. */
  datatype Tokens = Tokens(cmd: string, params: seq<string>)

  /** Lines 33-42: strip the line; a blank line yields nothing; otherwise split it
      at its first space into the command and the whitespace-separated parameters. */
  function Tokenize(line: string): Option<Tokens>
  {
    var l := Strip(line);
    if |l| == 0 then None
    else
      var (cmd, rest) := SplitFirstSpace(l);
      Some(Tokens(cmd, if rest.Some? then SplitWs(Strip(rest.value)) else []))
  }

  /** What tokenizing a line yields: nothing exactly when the line is all whitespace;
      otherwise a non-empty command free of spaces that starts the stripped line,
      no parameters when the stripped line has no space, and else the
      whitespace-separated tokens of what follows the first space, each a word. */
  lemma TokenizeMeaning(line: string)
    ensures var r := Tokenize(line);
      (r.None? <==> forall i :: 0 <= i < |line| ==> IsSpace(line[i])) &&
      (r.Some? ==>
        var l := Strip(line);
        var tk := r.value;
        tk.cmd != [] && ' ' !in tk.cmd && tk.cmd <= l &&
        (|tk.cmd| == |l| ==> tk.params == []) &&
        (|tk.cmd| < |l| ==> l[|tk.cmd|] == ' ' && tk.params == SplitWs(l[|tk.cmd| + 1..])) &&
        forall i :: 0 <= i < |tk.params| ==> IsWord(tk.params[i]))
  {
    var l := Strip(line);
    if |l| != 0 {
      var (cmd, rest) := SplitFirstSpace(l);
      assert IsSpace(' ');
      if rest.Some? {
        assert l[|cmd| + 1..] == rest.value;
        SplitWsIgnoresStrip(rest.value);
      }
    }
  }

  /** Tokenizing undoes writing a command and its parameters with single spaces: a
      line made of words gives back the first word as the command and the others,
      in order, as its parameters. */
  lemma TokenizeJoin(cmd: string, params: seq<string>)
    requires IsWord(cmd)
    requires forall i :: 0 <= i < |params| ==> IsWord(params[i])
    ensures Tokenize(JoinSpaced([cmd] + params)) == Some(Tokens(cmd, params))
  {
    assert ([cmd] + params)[1..] == params;
    if params == [] {
      StripWord(cmd);
      SplitWord(cmd);
    } else {
      JoinSpacedTrimmed(params);
      TokenizeSpaced(cmd, JoinSpaced(params));
      SplitJoinRoundTrip(params);
    }
  }

  /** A word, one space and text that starts and ends with non-whitespace tokenize
      into that word and the text's whitespace-separated tokens. */
  lemma TokenizeSpaced(cmd: string, rest: string)
    requires IsWord(cmd)
    requires rest != [] && !IsSpace(rest[0]) && !IsSpace(rest[|rest| - 1])
    ensures Tokenize(cmd + " " + rest) == Some(Tokens(cmd, SplitWs(rest)))
  {
    var line := cmd + " " + rest;
    assert line[0] == cmd[0] && line[|line| - 1] == rest[|rest| - 1];
    StripTrimmed(line);
    StripTrimmed(rest);
    SplitAfterWord(cmd, rest);
  }

  /** Why the application can stop on an exception: `cam` without an angle
      (IndexError), an angle float() rejects (ValueError), task_done() called once
      too often (ValueError), or the end of the input (EOFError). */
  datatype AppError = MissingAngle | BadAngle | TaskDoneTooManyTimes | EndOfInput

  /** What a command line asks for. */
  datatype Action = Quit | TakePicture(angle: real) | SaveSample | Ignore | Abort(error: AppError)

  /** Lines 44-52: dispatch on the command. `parseFloat` is Python's float() on a
      token: the number it denotes, or None when float() raises. */
  function Dispatch(tk: Tokens, parseFloat: string -> Option<real>): Action
  {
    if tk.cmd == "exit" then Quit
    else if tk.cmd == "cam" then
      if |tk.params| == 0 then Abort(MissingAngle)
      else
        match parseFloat(tk.params[0])
        case None => Abort(BadAngle)
        case Some(angle) => TakePicture(angle)
    else if tk.cmd == "save" then SaveSample
    else Ignore
  }

  /** How each command is dispatched: `exit` quits; `cam` takes a picture at the angle
      its first parameter denotes, and fails without a parameter or on one float()
      rejects; `save` asks for a saved sample; every other command does nothing. */
  lemma DispatchMeaning(tk: Tokens, parseFloat: string -> Option<real>)
    ensures var a := Dispatch(tk, parseFloat);
      (a == Quit <==> tk.cmd == "exit") &&
      (a.TakePicture? <==> tk.cmd == "cam" && tk.params != [] && parseFloat(tk.params[0]).Some?) &&
      (a.TakePicture? ==> parseFloat(tk.params[0]) == Some(a.angle)) &&
      (a == Abort(MissingAngle) <==> tk.cmd == "cam" && tk.params == []) &&
      (a == Abort(BadAngle) <==> tk.cmd == "cam" && tk.params != [] && parseFloat(tk.params[0]).None?) &&
      (a == SaveSample <==> tk.cmd == "save") &&
      (a == Ignore <==> tk.cmd != "exit" && tk.cmd != "cam" && tk.cmd != "save")
  {
  }

  /** queue.Queue.task_done() on a queue with `unfinished` tasks: one fewer, or
      ValueError when none is left. */
  function TaskDone(unfinished: nat): (r: Result<nat, AppError>)
    ensures r.Success? <==> unfinished > 0
    ensures r.Success? ==> r.value + 1 == unfinished
  {
    if unfinished == 0 then Failure(TaskDoneTooManyTimes) else Success(unfinished - 1)
  }

  /** Lines 53-58 as written: task_done() is called whether or not get() returned a
      result, so a save whose result did not arrive in time raises. */
  function AfterSaveAsWritten(answered: bool): (r: Result<nat, AppError>)
    ensures r.Failure? <==> !answered
    ensures r.Failure? ==> r.error == TaskDoneTooManyTimes
  {
    TaskDone(if answered then 1 else 0)
  }

  /** Lines 53-58 as intended: task_done() only for a result that was got, so a save
      never raises and leaves no unfinished task. */
  function AfterSave(answered: bool): (r: Result<nat, AppError>)
    ensures r == Success(0)
  {
    if answered then TaskDone(1) else Success(0)
  }

  /** The request a command posts to the capture worker: picture_take at an angle, or
      picture_match_asynq with its threshold, save flag, templates and angles. */
  datatype CamCall = PictureTakeCall(angle: real)
                   | MatchCall(threshold: real, save: bool, tpls: seq<string>, angles: seq<real>)

  /** The match request `save` posts: picture_match_asynq(work_queue, _save=True), so
      threshold 0, a saved sample, no template and no angle. */
  const SaveRequest: CamCall := MatchCall(0.0, true, [], [])

  /** How the session ends: on `exit`, after which the worker is asked to stop, or
      on an exception that ends the program. */
  datatype Ending = ExitCommand | Crashed(error: AppError)

  /** A session: how it ended and the requests it posted, in order. */
  datatype Session = Session(ending: Ending, calls: seq<CamCall>)

  function Prepend(calls: seq<CamCall>, s: Session): Session
  {
    Session(s.ending, calls + s.calls)
  }

  /** What one input line asks for: nothing for a blank line, else its command's
      action. */
  function LineAction(line: string, parseFloat: string -> Option<real>): Action
  {
    match Tokenize(line)
    case None => Ignore
    case Some(tk) => Dispatch(tk, parseFloat)
  }

  /** The action of every input line, in order. */
  function LineActions(lines: seq<string>, parseFloat: string -> Option<real>): (acts: seq<Action>)
    ensures |acts| == |lines|
    ensures forall i :: 0 <= i < |lines| ==> acts[i] == LineAction(lines[i], parseFloat)
  {
    if lines == [] then []
    else LineActions(lines[..|lines| - 1], parseFloat) + [LineAction(lines[|lines| - 1], parseFloat)]
  }

  /** A `cam` line with one parameter takes a picture at the angle float() reads from
      it, and fails with ValueError when float() rejects it. */
  lemma CamLine(w: string, parseFloat: string -> Option<real>)
    requires IsWord(w)
    ensures var a := LineAction("cam" + " " + w, parseFloat);
      (parseFloat(w).Some? ==> a == TakePicture(parseFloat(w).value)) &&
      (parseFloat(w).None? ==> a == Abort(BadAngle))
  {
    assert IsWord("cam");
    TokenizeSpaced("cam", w);
    SplitWsWord(w);
  }

  /** How an action ends the session, if it does. */
  function StopOf(a: Action): Option<Ending>
  {
    match a
    case Quit => Some(ExitCommand)
    case Abort(e) => Some(Crashed(e))
    case _ => None
  }

  /** The request an action posts to the worker, if any. */
  function CallsOf(a: Action): seq<CamCall>
  {
    match a
    case TakePicture(angle) => [PictureTakeCall(angle)]
    case SaveSample => [SaveRequest]
    case _ => []
  }

  /** The session that a sequence of line actions makes, with the save handling that
      always continues: stop on `exit` or on an error, post a request for `cam` and
      `save`, go on otherwise, and fail when the input runs out. */
  function SessionOf(acts: seq<Action>): Session
  {
    if acts == [] then Session(Crashed(EndOfInput), [])
    else if StopOf(acts[0]).Some? then Session(StopOf(acts[0]).value, [])
    else Prepend(CallsOf(acts[0]), SessionOf(acts[1..]))
  }

  lemma PrependTwice(a: seq<CamCall>, b: seq<CamCall>, s: Session)
    ensures Prepend(a, Prepend(b, s)) == Prepend(a + b, s)
  {
    assert a + (b + s.calls) == a + b + s.calls;
  }

  /** Lines 33-58, with task_done() as intended: the body of the loop for one input
      line. A blank line is skipped, `exit` and the errors stop the loop, `cam` and
      `save` post their request, and `save` then waits for the answer and marks the
      task done, which never raises. */
  method HandleLine(line: string, parseFloat: string -> Option<real>, answered: bool)
    returns (stop: Option<Ending>, posted: seq<CamCall>)
    ensures stop == StopOf(LineAction(line, parseFloat))
    ensures posted == CallsOf(LineAction(line, parseFloat))
  {
    stop, posted := None, [];
    var tokens := Tokenize(line);
    if tokens.None? {
      return;
    }
    var action := Dispatch(tokens.value, parseFloat);
    assert action == LineAction(line, parseFloat);
    if action == Quit {
      stop := Some(ExitCommand);
    } else if action.Abort? {
      stop := Some(Crashed(action.error));
    } else if action.TakePicture? {
      posted := [PictureTakeCall(action.angle)];
    } else if action == SaveSample {
      posted := [SaveRequest];
      match AfterSave(answered)
      case Failure(e) =>
        stop := Some(Crashed(e));
      case Success(_) =>
    }
  }

  /** Lines 31-58, with task_done() as intended: the read-dispatch loop over the input
      lines. `answered(k)` says whether the worker's result for a save on line k
      arrived within the timeout; with the intended handling it makes no difference. */
  method Repl(lines: seq<string>, parseFloat: string -> Option<real>, answered: nat -> bool)
    returns (s: Session)
    ensures s == SessionOf(LineActions(lines, parseFloat))
  {
    ghost var acts := LineActions(lines, parseFloat);
    var calls: seq<CamCall> := [];
    var ending: Ending;
    var k := 0;
    assert acts[0..] == acts;
    while true
      invariant k <= |lines|
      invariant SessionOf(acts) == Prepend(calls, SessionOf(acts[k..]))
      decreases |lines| - k
    {
      if k == |lines| {
        ending := Crashed(EndOfInput);
        assert calls + [] == calls;
        break;
      }
      assert acts[k..][1..] == acts[k + 1..];
      var stop, posted := HandleLine(lines[k], parseFloat, answered(k));
      if stop.Some? {
        ending := stop.value;
        assert calls + [] == calls;
        break;
      }
      PrependTwice(calls, posted, SessionOf(acts[k + 1..]));
      calls := calls + posted;
      k := k + 1;
    }
    s := Session(ending, calls);
  }

  /** How an action ends the session as written: a save whose result did not arrive
      makes task_done() raise, which nothing catches. */
  function StopOfAsWritten(a: Action, answered: bool): Option<Ending>
  {
    match a
    case SaveSample =>
      (match AfterSaveAsWritten(answered)
       case Failure(e) => Some(Crashed(e))
       case Success(_) => None)
    case _ => StopOf(a)
  }

  /** The session as written, over the actions of lines k, k + 1, ...: a save that
      raises has already posted its request. */
  function SessionAsWritten(acts: seq<Action>, answered: nat -> bool, k: nat): Session
    decreases |acts|
  {
    if acts == [] then Session(Crashed(EndOfInput), [])
    else
      var stop := StopOfAsWritten(acts[0], answered(k));
      if stop.Some? then Session(stop.value, CallsOf(acts[0]))
      else Prepend(CallsOf(acts[0]), SessionAsWritten(acts[1..], answered, k + 1))
  }

  /** Lines 33-58 as written: the body of the loop for one input line, which differs
      from the intended one only in that task_done() also runs after a save whose
      result did not arrive, and then raises. */
  method HandleLineAsWritten(line: string, parseFloat: string -> Option<real>, answered: bool)
    returns (stop: Option<Ending>, posted: seq<CamCall>)
    ensures stop == StopOfAsWritten(LineAction(line, parseFloat), answered)
    ensures posted == CallsOf(LineAction(line, parseFloat))
  {
    stop, posted := HandleLine(line, parseFloat, answered);
    if posted == [SaveRequest] {
      match AfterSaveAsWritten(answered)
      case Failure(e) =>
        stop := Some(Crashed(e));
      case Success(_) =>
    }
  }

  /** Lines 31-58 as written: the read-dispatch loop over the input lines. */
  method ReplAsWritten(lines: seq<string>, parseFloat: string -> Option<real>, answered: nat -> bool)
    returns (s: Session)
    ensures s == SessionAsWritten(LineActions(lines, parseFloat), answered, 0)
  {
    ghost var acts := LineActions(lines, parseFloat);
    ghost var goal := SessionAsWritten(acts, answered, 0);
    ghost var rest := acts;
    var calls: seq<CamCall> := [];
    var ending: Ending;
    var k := 0;
    while true
      invariant k <= |lines| && rest == acts[k..]
      invariant goal == Prepend(calls, SessionAsWritten(rest, answered, k))
      decreases |lines| - k
    {
      if k == |lines| {
        ending := Crashed(EndOfInput);
        assert calls + [] == calls;
        break;
      }
      assert rest[0] == LineAction(lines[k], parseFloat);
      var stop, posted := HandleLineAsWritten(lines[k], parseFloat, answered(k));
      if stop.Some? {
        ending := stop.value;
        calls := calls + posted;
        break;
      }
      PrependTwice(calls, posted, SessionAsWritten(rest[1..], answered, k + 1));
      calls := calls + posted;
      rest := rest[1..];
      k := k + 1;
    }
    s := Session(ending, calls);
  }

  /** When every save gets its result in time, the loop as written and the loop as
      intended make the same session. */
  lemma {:induction false} AsWrittenAgreesWhenAnswered(acts: seq<Action>, answered: nat -> bool, k: nat)
    requires forall j :: 0 <= j < |acts| && acts[j] == SaveSample ==> answered(k + j)
    ensures SessionAsWritten(acts, answered, k) == SessionOf(acts)
    decreases |acts|
  {
    if acts != [] && StopOf(acts[0]).None? {
      assert acts[0] == SaveSample ==> answered(k + 0);
      forall j | 0 <= j < |acts[1..]| && acts[1..][j] == SaveSample
        ensures answered(k + 1 + j)
      {
        assert acts[1 + j] == SaveSample;
      }
      AsWrittenAgreesWhenAnswered(acts[1..], answered, k + 1);
    }
  }

  /** The discrepancy: `save` then `exit`, with the save's result not arriving in
      time. As intended the session ends on `exit` after posting the save's request;
      as written it ends on the ValueError task_done() raises. */
  lemma SaveTimeoutCrashes(parseFloat: string -> Option<real>, answered: nat -> bool)
    requires !answered(0)
    ensures SessionOf(LineActions(["save", "exit"], parseFloat)) == Session(ExitCommand, [SaveRequest])
    ensures SessionAsWritten(LineActions(["save", "exit"], parseFloat), answered, 0)
         == Session(Crashed(TaskDoneTooManyTimes), [SaveRequest])
  {
    TwoLineActions("save", "exit", parseFloat);
    SaveLine(parseFloat);
    ExitLine(parseFloat);
    SaveThenQuit(answered);
  }

  /** The actions of a `save` line followed by an `exit` line, corrected and as written. */
  lemma SaveThenQuit(answered: nat -> bool)
    requires !answered(0)
    ensures SessionOf([SaveSample, Quit]) == Session(ExitCommand, [SaveRequest])
    ensures SessionAsWritten([SaveSample, Quit], answered, 0) == Session(Crashed(TaskDoneTooManyTimes), [SaveRequest])
  {
    var acts: seq<Action> := [SaveSample, Quit];
    assert acts[1..] == [Quit];
  }

  lemma TwoLineActions(a: string, b: string, parseFloat: string -> Option<real>)
    ensures LineActions([a, b], parseFloat) == [LineAction(a, parseFloat), LineAction(b, parseFloat)]
  {
    assert [a, b][..1] == [a];
    assert [a][..0] == [];
  }

  lemma SaveLine(parseFloat: string -> Option<real>)
    ensures LineAction("save", parseFloat) == SaveSample
  {
    assert IsWord("save");
    WordLine("save", parseFloat);
  }

  lemma ExitLine(parseFloat: string -> Option<real>)
    ensures LineAction("exit", parseFloat) == Quit
  {
    assert IsWord("exit");
    WordLine("exit", parseFloat);
  }

  /** A line that is a single word is that command without parameters. */
  lemma WordLine(w: string, parseFloat: string -> Option<real>)
    requires IsWord(w)
    ensures LineAction(w, parseFloat) == Dispatch(Tokens(w, []), parseFloat)
  {
    StripWord(w);
    assert IsSpace(' ');
    assert SpaceIndex(w) == |w|;
  }

  /** Once the session has stopped, on `exit` or on an exception, the lines after it
      are never read: more input changes nothing. */
  lemma {:induction false} StopIgnoresLaterInput(acts: seq<Action>, extra: seq<Action>)
    requires SessionOf(acts).ending != Crashed(EndOfInput)
    ensures SessionOf(acts + extra) == SessionOf(acts)
  {
    assert (acts + extra)[0] == acts[0];
    assert (acts + extra)[1..] == acts[1..] + extra;
    if StopOf(acts[0]).None? {
      StopIgnoresLaterInput(acts[1..], extra);
    }
  }

  /** A line that is all whitespace asks for nothing. */
  lemma BlankLineIgnored(line: string, parseFloat: string -> Option<real>)
    requires forall i :: 0 <= i < |line| ==> IsSpace(line[i])
    ensures LineAction(line, parseFloat) == Ignore
  {
    TokenizeMeaning(line);
  }

  /** Blank lines are skipped without any request: on input made of blank lines only,
      the session posts nothing and ends when the input runs out. */
  lemma {:induction false} BlankInputPostsNothing(lines: seq<string>, parseFloat: string -> Option<real>)
    requires forall j, i :: 0 <= j < |lines| && 0 <= i < |lines[j]| ==> IsSpace(lines[j][i])
    ensures SessionOf(LineActions(lines, parseFloat)) == Session(Crashed(EndOfInput), [])
  {
    var acts := LineActions(lines, parseFloat);
    forall j | 0 <= j < |lines|
      ensures acts[j] == Ignore
    {
      BlankLineIgnored(lines[j], parseFloat);
    }
    AllIgnoredPostsNothing(acts);
  }

  lemma {:induction false} AllIgnoredPostsNothing(acts: seq<Action>)
    requires forall j :: 0 <= j < |acts| ==> acts[j] == Ignore
    ensures SessionOf(acts) == Session(Crashed(EndOfInput), [])
  {
    if acts != [] {
      AllIgnoredPostsNothing(acts[1..]);
    }
  }
}
