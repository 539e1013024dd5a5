/** The list logic of `external_process_run`: how the lines the process
    printed are sorted into output and errors, how benign error lines are
    dropped, and how the failed command is named when the run raises.

    Starting the process, feeding its standard input and waiting for it are
    not part of this model: the lines it printed on each stream and its exit
    code are parameters. */
module ExternalProcess {
  import opened Wrappers
  import opened Seqs
  import opened Strings

  /** A shell command string, or an argument list run without a shell. */
  datatype Command = Shell(line: string) | Argv(args: seq<string>)

  /** The command as it is logged: an argument list joined by spaces. */
  function CmdStr(c: Command): string {
    match c
    case Shell(line) => line
    case Argv(args) => Join(args, " ")
  }

  // ---------------------------------------------------------------------
  // Sorting the lines

  /** `[line.strip() for line in lines]`. */
  function StripAll(lines: seq<string>): (r: seq<string>)
    ensures |r| == |lines|
    ensures forall k :: 0 <= k < |lines| ==> r[k] == Strip(lines[k])
  {
    seq(|lines|, k requires 0 <= k < |lines| => Strip(lines[k]))
  }

  /** A line that reports an error: its upper-cased text contains `ERROR` or
      `EXCEPTION`. */
  predicate IsErrorLine(line: string) {
    Contains(Upper(line), "ERROR") || Contains(Upper(line), "EXCEPTION")
  }

  predicate IsOutputLine(line: string) {
    !IsErrorLine(line)
  }

  datatype Streams = Streams(stdOut: seq<string>, stdErr: seq<string>)

  /** The stripped standard-output lines, followed by the standard-error
      lines that report no error; the error lines on their own. */
  function SplitStreams(rawOut: seq<string>, rawErr: seq<string>): Streams {
    var init := StripAll(rawErr);
    Streams(StripAll(rawOut) + Filter(IsOutputLine, init), Filter(IsErrorLine, init))
  }

  /** Each standard-error line lands in exactly one of the two lists: in
      `stdErr` when it reports an error, after the standard output otherwise;
      nothing is lost or duplicated. */
  lemma StreamsPartition(rawOut: seq<string>, rawErr: seq<string>)
    ensures SplitStreams(rawOut, rawErr).stdOut[..|rawOut|] == StripAll(rawOut)
    ensures multiset(SplitStreams(rawOut, rawErr).stdOut) + multiset(SplitStreams(rawOut, rawErr).stdErr)
         == multiset(StripAll(rawOut)) + multiset(StripAll(rawErr))
    ensures forall l :: l in StripAll(rawErr) ==>
      (l in SplitStreams(rawOut, rawErr).stdErr <==> IsErrorLine(l))
    ensures forall l :: l in SplitStreams(rawOut, rawErr).stdErr ==> IsErrorLine(l)
  {
    var init := StripAll(rawErr);
    FilterPartition(IsOutputLine, IsErrorLine, init);
    FilterMembers(IsErrorLine, init);
    assert SplitStreams(rawOut, rawErr).stdOut[..|rawOut|] == StripAll(rawOut);
  }

  // ---------------------------------------------------------------------
  // Benign messages

  /** A line that contains one of the messages to ignore. */
  predicate Ignored(line: string, msgs: seq<string>) {
    exists m :: m in msgs && Contains(line, m)
  }

  function NotIgnoredBy(msgs: seq<string>): string -> bool {
    line => !Ignored(line, msgs)
  }

  /** `list.remove(x)`: the first occurrence of `x` is dropped. */
  function RemoveFirst<T(==)>(s: seq<T>, x: T): seq<T> {
    if s == [] then []
    else if s[0] == x then s[1..]
    else [s[0]] + RemoveFirst(s[1..], x)
  }

  lemma RemoveFirstCons<T>(h: T, t: seq<T>, x: T)
    ensures RemoveFirst([h] + t, x) == if h == x then t else [h] + RemoveFirst(t, x)
  {
    assert ([h] + t)[1..] == t;
  }

  /** Removing `x` from a list whose prefix does not hold it drops the `x`
      right after that prefix. */
  lemma {:induction false} RemoveFirstAfter<T>(f: seq<T>, x: T, rest: seq<T>)
    requires x !in f
    ensures RemoveFirst(f + ([x] + rest), x) == f + rest
  {
    var m := [x] + rest;
    if f == [] {
      assert f + m == m;
      RemoveFirstCons(x, rest, x);
      assert f + rest == rest;
    } else {
      var h, t := f[0], f[1..];
      assert f == [h] + t;
      assert h in f;
      calc {
        RemoveFirst(f + m, x);
        { assert f + m == [h] + (t + m); }
        RemoveFirst([h] + (t + m), x);
        { RemoveFirstCons(h, t + m, x); }
        [h] + RemoveFirst(t + m, x);
        { RemoveFirstAfter(t, x, rest); }
        [h] + (t + rest);
        { assert f + rest == [h] + (t + rest); }
        f + rest;
      }
    }
  }

  lemma NotIgnoredByApply(msgs: seq<string>, line: string)
    ensures NotIgnoredBy(msgs)(line) == !Ignored(line, msgs)
  {
  }

  /** One turn of the removal loop: the next line is removed from the list
      exactly when it is ignored. */
  lemma DropStep(msgs: seq<string>, pre: seq<string>, line: string, rest: seq<string>)
    ensures (if Ignored(line, msgs) then RemoveFirst(Filter(NotIgnoredBy(msgs), pre) + ([line] + rest), line)
             else Filter(NotIgnoredBy(msgs), pre) + ([line] + rest))
         == Filter(NotIgnoredBy(msgs), pre + [line]) + rest
  {
    var keep := NotIgnoredBy(msgs);
    var kept := Filter(keep, pre);
    NotIgnoredByApply(msgs, line);
    FilterSnoc(keep, pre, line);
    if Ignored(line, msgs) {
      FilterMembers(keep, pre);
      assert line !in kept;
      RemoveFirstAfter(kept, line, rest);
    }
  }

  lemma DropStepAt(msgs: seq<string>, copy: seq<string>, i: nat)
    requires i < |copy|
    ensures (if Ignored(copy[i], msgs) then RemoveFirst(Filter(NotIgnoredBy(msgs), copy[..i]) + copy[i..], copy[i])
             else Filter(NotIgnoredBy(msgs), copy[..i]) + copy[i..])
         == Filter(NotIgnoredBy(msgs), copy[..i + 1]) + copy[i + 1..]
  {
    assert copy[i..] == [copy[i]] + copy[i + 1..];
    assert copy[..i + 1] == copy[..i] + [copy[i]];
    DropStep(msgs, copy[..i], copy[i], copy[i + 1..]);
  }

  /** The loop over a copy of `stdErr` that removes each line containing a
      message to ignore; with no error lines or no messages nothing changes. */
  method DropIgnored(stdErr: seq<string>, msgs: seq<string>) returns (r: seq<string>)
    ensures r == Filter(NotIgnoredBy(msgs), stdErr)
  {
    r := stdErr;
    if stdErr == [] || msgs == [] {
      NothingIgnored(stdErr, msgs);
      return;
    }
    var copy := stdErr;
    var i := 0;
    while i < |copy|
      invariant i <= |copy|
      invariant r == Filter(NotIgnoredBy(msgs), copy[..i]) + copy[i..]
    {
      var line := copy[i];
      DropStepAt(msgs, copy, i);
      if Ignored(line, msgs) {
        r := RemoveFirst(r, line);
      }
      i := i + 1;
    }
    assert copy[..i] == copy;
  }

  /** With no messages to ignore, every line stays. */
  lemma {:induction false} NothingIgnored(stdErr: seq<string>, msgs: seq<string>)
    requires stdErr == [] || msgs == []
    ensures Filter(NotIgnoredBy(msgs), stdErr) == stdErr
  {
    if stdErr != [] {
      var h, t := stdErr[0], stdErr[1..];
      assert stdErr == [h] + t;
      FilterCons(NotIgnoredBy(msgs), h, t);
      NotIgnoredByApply(msgs, h);
      NothingIgnored(t, msgs);
    }
  }

  /** Exactly the lines that contain a message to ignore are removed, and the
      others keep their order. */
  lemma DropIgnoredExactly(stdErr: seq<string>, msgs: seq<string>)
    ensures forall l :: l in Filter(NotIgnoredBy(msgs), stdErr) <==> l in stdErr && !Ignored(l, msgs)
    ensures forall l :: l in stdErr && !Ignored(l, msgs) ==>
      multiset(Filter(NotIgnoredBy(msgs), stdErr))[l] == multiset(stdErr)[l]
  {
    FilterMembers(NotIgnoredBy(msgs), stdErr);
    forall l | l in stdErr && !Ignored(l, msgs)
      ensures multiset(Filter(NotIgnoredBy(msgs), stdErr))[l] == multiset(stdErr)[l]
    {
      CountKept(NotIgnoredBy(msgs), stdErr, l);
    }
  }

  // ---------------------------------------------------------------------
  // Naming the failed command

  /** Up to the first two items. */
  function TakeTwo(ts: seq<string>): (r: seq<string>)
    ensures |r| == if |ts| < 2 then |ts| else 2
    ensures r == ts[..|r|]
  {
    if |ts| < 2 then ts else ts[..2]
  }

  /** The words of the last `;`-separated command. */
  function LastWords(cmdStr: string): seq<string> {
    var segs := SplitOn(cmdStr, ";");
    SplitWhitespace(segs[|segs| - 1])
  }

  /** The name in the message of a failed run, as written: the first word of
      the last `;`-separated command, or, when that word is `python`, the
      first two words of the whole command line. A last command with no
      words is an IndexError. */
  function CommandNameAsWritten(cmdStr: string): Result<string> {
    var words := LastWords(cmdStr);
    if words == [] then Err(IndexError)
    else if words[0] == "python" then Ok(Join(TakeTwo(SplitWhitespace(cmdStr)), " "))
    else Ok(words[0])
  }

  /** The name as evidently meant: the first word of the last command, with
      the script name added when that word is `python`. */
  function CommandName(cmdStr: string): (r: Result<string>)
    ensures r.Err? <==> LastWords(cmdStr) == []
    ensures r.Err? ==> r.error == IndexError
  {
    var words := LastWords(cmdStr);
    if words == [] then Err(IndexError)
    else if words[0] == "python" then Ok(Join(TakeTwo(words), " "))
    else Ok(words[0])
  }

  /** A single command of words, none of them holding a `;`. */
  predicate PlainWords(ws: seq<string>) {
    forall w :: w in ws ==> IsToken(w) && ';' !in w
  }

  lemma {:induction false} JoinWordsNoSemicolon(ws: seq<string>)
    requires PlainWords(ws)
    ensures ';' !in Join(ws, " ")
  {
    if |ws| > 1 {
      assert forall w :: w in ws[1..] ==> w in ws;
      JoinWordsNoSemicolon(ws[1..]);
      assert ws[0] in ws;
      JoinCons(ws[0], ws[1..], " ");
      assert [ws[0]] + ws[1..] == ws;
    } else if |ws| == 1 {
      assert ws[0] in ws;
    }
  }

  /** Words joined by spaces and holding no `;` are a single command. */
  lemma SingleCommandWords(ws: seq<string>)
    requires PlainWords(ws)
    ensures LastWords(Join(ws, " ")) == ws
    ensures SplitWhitespace(Join(ws, " ")) == ws
  {
    var s := Join(ws, " ");
    JoinWordsNoSemicolon(ws);
    CharAbsent(s, ';');
    SplitSingleIff(s, ";");
    assert SplitOn(s, ";") == [s];
    SplitWhitespaceOfJoin(ws);
  }

  /** Both versions name a plain command after its first word, and for
      `python <script> ...` both give `python <script>`. */
  lemma NameOfSingleCommand(ws: seq<string>)
    requires ws != [] && PlainWords(ws)
    ensures CommandName(Join(ws, " ")) == CommandNameAsWritten(Join(ws, " "))
    ensures ws[0] != "python" ==> CommandName(Join(ws, " ")) == Ok(ws[0])
    ensures ws[0] == "python" ==> CommandName(Join(ws, " ")) == Ok(Join(TakeTwo(ws), " "))
  {
    SingleCommandWords(ws);
  }

  /** After earlier commands and a `;`, the last segment is what follows. */
  lemma LastSegment(pre: string, last: string)
    requires ';' !in last
    ensures LastWords(pre + ";" + last) == SplitWhitespace(last)
  {
    SplitLastChar(pre, ';', last);
    assert pre + ";" + last == pre + [';'] + last;
  }

  /** After earlier commands separated by `;`, the last command is named,
      in both versions when its first word is not `python`. */
  lemma NameOfLastCommand(pre: string, ws: seq<string>)
    requires ws != [] && PlainWords(ws)
    ensures CommandName(pre + ";" + Join(ws, " ")) ==
      if ws[0] == "python" then Ok(Join(TakeTwo(ws), " ")) else Ok(ws[0])
    ensures ws[0] != "python" ==> CommandNameAsWritten(pre + ";" + Join(ws, " ")) == Ok(ws[0])
  {
    JoinWordsNoSemicolon(ws);
    LastSegment(pre, Join(ws, " "));
    SplitWhitespaceOfJoin(ws);
  }

  /** As written, `cd <dir>; python <script>` is reported under the name
      `cd <dir>;`, the first two words of the whole line; the intended name
      is `python <script>`. */
  lemma PythonAfterSemicolon(dir: string, script: string)
    requires PlainWords([dir, script])
    ensures CommandNameAsWritten("cd " + dir + "; python " + script) == Ok("cd " + dir + ";")
    ensures CommandName("cd " + dir + "; python " + script) == Ok("python " + script)
  {
    assert dir in [dir, script] && script in [dir, script];
    var line := "cd " + dir + "; python " + script;
    PythonLastWords("cd " + dir, script);
    CdPythonWords(dir, script);
    JoinTwo("cd", dir + ";");
    JoinTwo("python", script);
    SpacedCd(dir);
    SpacedPython(script);
    assert LastWords(line) == ["python", script];
    assert TakeTwo(SplitWhitespace(line)) == ["cd", dir + ";"];
    assert Join(["cd", dir + ";"], " ") == "cd " + dir + ";";
    assert CommandNameAsWritten(line) == Ok("cd " + dir + ";");
    assert TakeTwo(["python", script]) == ["python", script];
    assert CommandName(line) == Ok("python " + script);
  }

  /** The last command of `<pre>; python <script>` has the words `python`
      and the script. */
  lemma PythonLastWords(pre: string, script: string)
    requires IsToken(script) && ';' !in script
    ensures LastWords(pre + "; python " + script) == ["python", script]
  {
    var last := "python" + " " + script;
    NoSemicolonAfterPython(script);
    RegroupLastCommand(pre, script);
    LastSegment(pre, " " + last);
    StripLeftSpace(last);
    assert IsToken("python");
    SplitTokenSpace("python", script);
    TokenAlone(script, "");
    assert script + "" == script;
  }

  /** The first two words of the whole line `cd <dir>; python <script>`. */
  lemma CdPythonWords(dir: string, script: string)
    requires IsToken(dir) && IsToken(script)
    ensures TakeTwo(SplitWhitespace("cd " + dir + "; python " + script)) == ["cd", dir + ";"]
  {
    var r2 := "python " + script;
    var r1 := (dir + ";") + " " + r2;
    RegroupCdLine(dir, script);
    assert IsToken("cd");
    assert IsToken(dir + ";") by {
      assert forall k :: 0 <= k < |dir| ==> (dir + ";")[k] == dir[k];
    }
    SplitTokenSpace("cd", r1);
    SplitTokenSpace(dir + ";", r2);
  }

  lemma JoinTwo(a: string, b: string)
    ensures Join([a, b], " ") == a + " " + b
  {
    JoinCons(a, [b], " ");
    assert [a] + [b] == [a, b];
  }

  lemma NoSemicolonAfterPython(script: string)
    requires ';' !in script
    ensures ';' !in " " + ("python" + " " + script)
  {
    var s := " " + ("python" + " " + script);
    assert forall k :: 8 <= k < |s| ==> s[k] == script[k - 8];
  }

  lemma RegroupLastCommand(pre: string, script: string)
    ensures pre + "; python " + script == pre + ";" + (" " + ("python" + " " + script))
  {
  }

  lemma RegroupCdLine(dir: string, script: string)
    ensures "cd " + dir + "; python " + script == "cd" + " " + ((dir + ";") + " " + ("python " + script))
  {
  }

  lemma SpacedCd(dir: string)
    ensures "cd" + " " + (dir + ";") == "cd " + dir + ";"
  {
  }

  lemma SpacedPython(script: string)
    ensures "python" + " " + script == "python " + script
  {
  }

  // ---------------------------------------------------------------------
  // The run

  /** What a run returns: the two lists of lines, or, when output is neither
      parsed nor checked, the exit code. */
  datatype RunResult = Output(stdOut: seq<string>, stdErr: seq<string>) | ExitCode(code: int)

  /** `external_process_run(command, raiseOnError, parseStdOut, ignoreMsgs)`
      for a process that printed `rawOut` and `rawErr` and exited with
      `code`; an absent `ignoreMsgs` is the empty list. Any error line that
      is not benign makes a checked run raise, naming the command as the
      code names it (`CommandNameAsWritten`). */
  function RunOutcome(command: Command, rawOut: seq<string>, rawErr: seq<string>, code: int,
                      raiseOnError: bool, parseStdOut: bool, ignoreMsgs: seq<string>): (r: Result<RunResult>)
  {
    if !parseStdOut && !raiseOnError then Ok(ExitCode(code))
    else
      var s := if parseStdOut then SplitStreams(rawOut, rawErr) else Streams([], []);
      var err := Filter(NotIgnoredBy(ignoreMsgs), s.stdErr);
      if err != [] && raiseOnError then
        var name :- CommandNameAsWritten(CmdStr(command));
        Err(CommandFailed(name + " failed", err))
      else Ok(Output(s.stdOut, err))
  }

  /** The run after the process has finished: sort the lines, drop benign
      error lines, and raise if any error line is left and errors are
      checked. */
  method ExternalProcessRun(command: Command, rawOut: seq<string>, rawErr: seq<string>, code: int,
                            raiseOnError: bool, parseStdOut: bool, ignoreMsgs: seq<string>)
    returns (r: Result<RunResult>)
    ensures r == RunOutcome(command, rawOut, rawErr, code, raiseOnError, parseStdOut, ignoreMsgs)
  {
    var cmdStr := CmdStr(command);
    var stdOut: seq<string> := [];
    var stdErr: seq<string> := [];
    if parseStdOut {
      var s := SplitStreams(rawOut, rawErr);
      stdOut, stdErr := s.stdOut, s.stdErr;
    }
    if !parseStdOut && !raiseOnError {
      return Ok(ExitCode(code));
    }
    stdErr := DropIgnored(stdErr, ignoreMsgs);
    if stdErr != [] && raiseOnError {
      var name := CommandNameAsWritten(cmdStr);
      if name.Err? {
        return Err(name.error);
      }
      return Err(CommandFailed(name.value + " failed", stdErr));
    }
    return Ok(Output(stdOut, stdErr));
  }

  /** Some error line survives the benign-message filter exactly when a
      standard-error line reports an error and contains no message to
      ignore. */
  lemma UnignoredErrorsIff(rawOut: seq<string>, rawErr: seq<string>, msgs: seq<string>)
    ensures Filter(NotIgnoredBy(msgs), SplitStreams(rawOut, rawErr).stdErr) != [] <==>
      exists l :: l in StripAll(rawErr) && IsErrorLine(l) && !Ignored(l, msgs)
  {
    FilterFilterNonEmpty(IsErrorLine, NotIgnoredBy(msgs), StripAll(rawErr));
  }

  /** A checked, parsed run raises exactly when some standard-error line
      reports an error and contains no message to ignore; when it does not
      raise, it returns every output line and no error line. */
  lemma RaisesOnUnignoredError(command: Command, rawOut: seq<string>, rawErr: seq<string>, code: int, ignoreMsgs: seq<string>)
    ensures RunOutcome(command, rawOut, rawErr, code, true, true, ignoreMsgs).Err? <==>
      exists l :: l in StripAll(rawErr) && IsErrorLine(l) && !Ignored(l, ignoreMsgs)
    ensures RunOutcome(command, rawOut, rawErr, code, true, true, ignoreMsgs).Ok? ==>
      RunOutcome(command, rawOut, rawErr, code, true, true, ignoreMsgs) ==
        Ok(Output(SplitStreams(rawOut, rawErr).stdOut, []))
    ensures RunOutcome(command, rawOut, rawErr, code, true, true, ignoreMsgs).Err? ==>
      RunOutcome(command, rawOut, rawErr, code, true, true, ignoreMsgs).error.CommandFailed? ||
      RunOutcome(command, rawOut, rawErr, code, true, true, ignoreMsgs).error == IndexError
  {
    var s := SplitStreams(rawOut, rawErr);
    var err := Filter(NotIgnoredBy(ignoreMsgs), s.stdErr);
    UnignoredErrorsIff(rawOut, rawErr, ignoreMsgs);
    var r := RunOutcome(command, rawOut, rawErr, code, true, true, ignoreMsgs);
    if err == [] {
      assert r == Ok(Output(s.stdOut, err));
    } else {
      assert r.Err?;
    }
  }

  /** An unchecked run never raises: it returns the lines, or the exit code
      when the output is not parsed either. */
  lemma UncheckedNeverRaises(command: Command, rawOut: seq<string>, rawErr: seq<string>, code: int, ignoreMsgs: seq<string>)
    ensures RunOutcome(command, rawOut, rawErr, code, false, true, ignoreMsgs) ==
      Ok(Output(SplitStreams(rawOut, rawErr).stdOut, Filter(NotIgnoredBy(ignoreMsgs), SplitStreams(rawOut, rawErr).stdErr)))
    ensures RunOutcome(command, rawOut, rawErr, code, false, false, ignoreMsgs) == Ok(ExitCode(code))
  {
  }
}
