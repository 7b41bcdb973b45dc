/**
 * The scanner run with the command dispatcher: what one extraction does to
 * the description, to the subtask buffer and to the tag list, stated in
 * terms of the description's lines.
 */
module Extraction {
  import opened Wrappers
  import opened Seqs
  import opened Strings
  import opened Commands
  import opened Scanner

  /** `parseLine` for one task, as the scanner's line dispatcher. */
  function Dispatch(taskId: int, env: Env): (TaskState, string) -> Option<TaskState>
  {
    (st: TaskState, line: string) => ApplyLine(st, line, taskId, env)
  }

  /** The dispatcher applies one line as `parseLine` does. */
  lemma DispatchIs(taskId: int, env: Env, st: TaskState, line: string)
    ensures Dispatch(taskId, env)(st, line) == ApplyLine(st, line, taskId, env)
  {
  }

  /** The scan of one description: right-trimmed, then scanned from the end. */
  function Extract(description: string, st: TaskState, taskId: int, env: Env): (r: ScanResult<TaskState>)
    ensures IsPrefix(r.kept, RTrim(description)) && IsPrefix(r.kept, description)
  {
    ScanText(RTrim(description), st, Dispatch(taskId, env))
  }

  /** An empty line is never a command. */
  lemma EmptyLineFails(taskId: int, env: Env)
    ensures forall s :: Dispatch(taskId, env)(s, "").None?
  {
  }

  /** The subtask requested by a line, if it is a subtask command. */
  function SubtaskOf(line: string, taskId: int, userId: int): (r: seq<Subtask>)
    ensures |r| <= 1
    ensures |r| == 1 ==> ParseCommand(line) == Some(Command(SubtaskCmd, r[0].title))
                         && r[0].taskId == taskId && r[0].userId == userId
  {
    match ParseCommand(line)
    case Some(Command(SubtaskCmd, title)) => [Subtask(title, taskId, userId)]
    case _ => []
  }

  /** `SubtaskOf` for one task and user, as a function of the line. */
  function SubtaskFor(taskId: int, userId: int): string -> seq<Subtask>
  {
    (line: string) => SubtaskOf(line, taskId, userId)
  }

  /** The subtasks requested by the lines, top to bottom. */
  function SubtasksIn(ls: seq<string>, taskId: int, userId: int): (r: seq<Subtask>)
    ensures |r| <= |ls|
  {
    MapConcatAtMostOne(ls, SubtaskFor(taskId, userId));
    MapConcat(ls, SubtaskFor(taskId, userId))
  }

  /** The tags added by a line, if it is a tag command. */
  function TagsOf(line: string): (r: seq<string>)
    ensures r != [] <==> ParseCommand(line).Some? && ParseCommand(line).value.kind == TagCmd
    ensures forall i :: 0 <= i < |r| ==> ' ' !in r[i]
  {
    match ParseCommand(line)
    case Some(Command(TagCmd, param)) => Split(param, ' ')
    case _ => []
  }

  /** The tags added by the lines, top to bottom. */
  function TagsIn(ls: seq<string>): seq<string>
  {
    MapConcat(ls, TagsOf)
  }

  /** No tag taken from the lines contains a space. */
  lemma {:induction false} TagsHaveNoSpace(ls: seq<string>)
    ensures forall i :: 0 <= i < |TagsIn(ls)| ==> ' ' !in TagsIn(ls)[i]
  {
    if |ls| > 0 {
      TagsHaveNoSpace(Front(ls));
      assert TagsIn(ls) == TagsIn(Front(ls)) + TagsOf(Last(ls));
    }
  }

  /** One successful line appends its subtask to the buffer and puts its tags in front. */
  lemma LineEffect(st: TaskState, line: string, taskId: int, env: Env)
    requires ApplyLine(st, line, taskId, env).Some?
    ensures var st' := ApplyLine(st, line, taskId, env).value;
            && st'.buffer == st.buffer + SubtaskOf(line, taskId, env.userId)
            && st'.tags == TagsOf(line) + st.tags
  {
    var cmd := ParseCommand(line).value;
    var st' := ApplyLine(st, line, taskId, env).value;
    assert st' == Apply(cmd, st, taskId, env).value;
    assert st'.buffer == st.buffer + (if cmd.kind == SubtaskCmd then [Subtask(cmd.param, taskId, env.userId)] else [])
           && st'.tags == (if cmd.kind == TagCmd then Split(cmd.param, ' ') else []) + st.tags by {
      OnlyItsFieldChanges(cmd, st, taskId, env);
    }
    assert SubtaskOf(line, taskId, env.userId) ==
           (if cmd.kind == SubtaskCmd then [Subtask(cmd.param, taskId, env.userId)] else []);
    assert TagsOf(line) == (if cmd.kind == TagCmd then Split(cmd.param, ' ') else []);
  }

  /**
   * What the scan relies on in a dispatcher: a line that succeeds appends
   * the subtasks `sub` gives for it (at most one) to the buffer and puts the
   * tags `tg` gives for it in front of the tag list.
   */
  ghost predicate DispatchesLines(apply: (TaskState, string) -> Option<TaskState>,
                                  sub: string -> seq<Subtask>, tg: string -> seq<string>)
  {
    && (forall line :: |sub(line)| <= 1)
    && (forall s, line :: apply(s, line).Some? ==>
          && apply(s, line).value.buffer == s.buffer + sub(line)
          && apply(s, line).value.tags == tg(line) + s.tags)
  }

  /** The command dispatcher is such a dispatcher, with `SubtaskOf` and `TagsOf`. */
  lemma DispatchDispatchesLines(taskId: int, env: Env)
    ensures DispatchesLines(Dispatch(taskId, env), SubtaskFor(taskId, env.userId), TagsOf)
  {
    forall s, line | Dispatch(taskId, env)(s, line).Some?
      ensures var s' := Dispatch(taskId, env)(s, line).value;
              && s'.buffer == s.buffer + SubtaskOf(line, taskId, env.userId)
              && s'.tags == TagsOf(line) + s.tags
    {
      LineEffect(s, line, taskId, env);
    }
  }

  /**
   * Applied bottom-up, the lines leave the buffer so that creating it from
   * its end to its start creates the subtasks in top-to-bottom text order,
   * and put the tags of the higher lines before those of the lower ones.
   */
  lemma {:induction false} BottomUpEffects(st: TaskState, ls: seq<string>, apply: (TaskState, string) -> Option<TaskState>,
                                           sub: string -> seq<Subtask>, tg: string -> seq<string>)
    requires DispatchesLines(apply, sub, tg)
    requires ApplyBottomUp(st, ls, apply).Some?
    ensures var st' := ApplyBottomUp(st, ls, apply).value;
            && Reverse(st'.buffer) == MapConcat(ls, sub) + Reverse(st.buffer)
            && st'.tags == MapConcat(ls, tg) + st.tags
    decreases |ls|
  {
    if |ls| > 0 {
      var line := Last(ls);
      ApplyBottomUpStep(st, ls, apply);
      var s1 := apply(st, line).value;
      var added := sub(line);
      assert s1.buffer == st.buffer + added && s1.tags == tg(line) + st.tags;
      BottomUpEffects(s1, Front(ls), apply, sub, tg);
      ReverseAppendShort(st.buffer, added);
    }
  }

  /**
   * The whole scan in terms of lines: the kept text is the first lines of the
   * trimmed description; the dropped lines all parsed, bottom-up, and
   * produced the final state; the line above them failed; subtasks come out
   * in text order and tags of higher lines come first.
   */
  lemma ExtractionByLines(description: string, st: TaskState, taskId: int, env: Env)
    ensures var apply := Dispatch(taskId, env);
            var ls := Lines(RTrim(description));
            var r := ScanLines(ls, st, apply);
            var s := Extract(description, st, taskId, env);
            && s.kept == Join(ls[..r.kept], Crlf)
            && ApplyBottomUp(st, ls[r.kept..], apply) == Some(s.state)
            && (r.kept > 0 ==> apply(s.state, ls[r.kept - 1]).None?)
            && Reverse(s.state.buffer) == SubtasksIn(ls[r.kept..], taskId, env.userId) + Reverse(st.buffer)
            && s.state.tags == TagsIn(ls[r.kept..]) + st.tags
  {
    var ls := Lines(RTrim(description));
    var r := ScanLines(ls, st, Dispatch(taskId, env));
    ExtractScansLines(description, st, taskId, env);
    ScanLinesStopsAtFirstFailure(ls, st, Dispatch(taskId, env));
    DroppedEffects(ls[r.kept..], st, taskId, env);
  }

  /** The extraction is the scan by lines of the trimmed description. */
  lemma ExtractScansLines(description: string, st: TaskState, taskId: int, env: Env)
    ensures var ls := Lines(RTrim(description));
            var r := ScanLines(ls, st, Dispatch(taskId, env));
            Extract(description, st, taskId, env) == ScanResult(Join(ls[..r.kept], Crlf), r.state)
  {
    EmptyLineFails(taskId, env);
    ScanByLines(RTrim(description), st, Dispatch(taskId, env));
  }

  /** Lines that all apply bottom-up buffer their subtasks in reverse and put their tags in front. */
  lemma DroppedEffects(ls: seq<string>, st: TaskState, taskId: int, env: Env)
    requires ApplyBottomUp(st, ls, Dispatch(taskId, env)).Some?
    ensures var st' := ApplyBottomUp(st, ls, Dispatch(taskId, env)).value;
            && Reverse(st'.buffer) == SubtasksIn(ls, taskId, env.userId) + Reverse(st.buffer)
            && st'.tags == TagsIn(ls) + st.tags
  {
    DispatchDispatchesLines(taskId, env);
    BottomUpEffects(st, ls, Dispatch(taskId, env), SubtaskFor(taskId, env.userId), TagsOf);
  }

  /**
   * For a task with no buffered subtasks: the subtasks created are those of
   * the dropped lines in text order, and their tags go in front of the list.
   */
  lemma DroppedLinesEffects(description: string, st: TaskState, taskId: int, env: Env)
    requires st.buffer == []
    ensures var ls := Lines(RTrim(description));
            var dropped := ls[ScanLines(ls, st, Dispatch(taskId, env)).kept..];
            var s := Extract(description, st, taskId, env);
            && Reverse(s.state.buffer) == SubtasksIn(dropped, taskId, env.userId)
            && s.state.tags == TagsIn(dropped) + st.tags
  {
    ExtractionByLines(description, st, taskId, env);
    assert Reverse(st.buffer) == [];
  }

  /** A description whose last line is not a valid command only loses its trailing whitespace. */
  lemma NoTrailingCommand(description: string, st: TaskState, taskId: int, env: Env)
    requires ApplyLine(st, Last(Lines(RTrim(description))), taskId, env).None?
    ensures Extract(description, st, taskId, env) == ScanResult(RTrim(description), st)
  {
    EmptyLineFails(taskId, env);
    Scanner.NoTrailingCommand(RTrim(description), st, Dispatch(taskId, env));
  }
}
