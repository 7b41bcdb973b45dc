/**
 * The command grammar of `parseLine`, as values: a line is decoded into a
 * `Command` (a keyword kind and its parameter), and the command is applied to
 * the part of the task a command can change. This is the specification the
 * imperative `Plugin.Task.ParseLine` is proved against.
 */
module Commands {
  import opened Wrappers
  import opened Seqs
  import opened Strings
  import opened DateTime

  datatype Kind = TagCmd | SubtaskCmd | DueCmd | StartCmd | PrioCmd | ColorCmd

  datatype Command = Command(kind: Kind, param: string)

  /** A buffered subtask creation request. */
  datatype Subtask = Subtask(title: string, taskId: int, userId: int)

  /**
   * Everything a command line can change: the task's due and start dates,
   * priority and color, the task's tag list in the tag store, and the buffer
   * of subtasks still to be created. The priority is kept as the text of the
   * parameter, as the source stores it.
   */
  datatype TaskState = TaskState(
    due: Option<int>,
    start: Option<int>,
    priority: Option<string>,
    color: Option<string>,
    tags: seq<string>,
    buffer: seq<Subtask>)

  /**
   * What the commands consult: the priority bounds of the task's project,
   * the color lookup (a name or id missing from the map finds nothing), the
   * current user and the calendar.
   */
  datatype Env = Env(
    priorityStart: int,
    priorityEnd: int,
    colors: map<string, string>,
    userId: int,
    calendar: Calendar)

  /**
   * The shape check and the keyword/parameter split: a backslash, a keyword
   * without spaces, then either the end of the line or one space and the
   * parameter.
   */
  function SplitLine(line: string): (r: Option<(string, string)>)
    ensures r.None? <==> |line| < 2 || line[0] != '\\'
    ensures r.Some? ==> ' ' !in r.value.0 && |r.value.0| + |r.value.1| <= |line| - 1
  {
    if |line| < 2 || line[0] != '\\' then None
    else
      var endOfKeyword := match Find(line, ' ', 1) case Some(j) => j case None => |line|;
      var param := if endOfKeyword + 1 <= |line| then line[endOfKeyword + 1..] else [];
      Some((line[1..endOfKeyword], param))
  }

  /**
   * The split is the unique decomposition of a command line: a backslash, a
   * keyword without spaces, then either the end of the line or one space and
   * the parameter.
   */
  lemma SplitLineShape(line: string)
    ensures SplitLine(line).Some? ==>
              var (keyword, param) := SplitLine(line).value;
              ' ' !in keyword
              && (line == ['\\'] + keyword + [' '] + param || (line == ['\\'] + keyword && param == []))
  {
    if SplitLine(line).Some? {
      var (keyword, param) := SplitLine(line).value;
      assert forall i :: 0 <= i < |keyword| ==> keyword[i] == line[1 + i];
      if Find(line, ' ', 1).Some? {
        assert line == ['\\'] + keyword + [' '] + param;
      } else {
        assert line == ['\\'] + keyword;
      }
    }
  }

  /** Conversely, a backslash, a keyword without spaces, one space and any parameter split back into the two. */
  lemma SplitLineOf(keyword: string, param: string)
    requires ' ' !in keyword
    ensures SplitLine(['\\'] + keyword + [' '] + param) == Some((keyword, param))
  {
    var line := ['\\'] + keyword + [' '] + param;
    var end := 1 + |keyword|;
    forall i | 1 <= i < end ensures line[i] != ' ' {
      assert line[i] == keyword[i - 1];
    }
    assert line[end] == ' ';
    assert Find(line, ' ', 1) == Some(end);
    assert line[1..end] == keyword && line[end + 1..] == param;
  }

  /** The alias table: every alias is one to five lower-case letters. */
  function KindOf(keyword: string): (r: Option<Kind>)
    ensures r.Some? ==> 1 <= |keyword| <= 5 && forall i :: 0 <= i < |keyword| ==> 'a' <= keyword[i] <= 'z'
  {
    if keyword == "t" || keyword == "tag" || keyword == "tags" then Some(TagCmd)
    else if keyword == "s" || keyword == "st" || keyword == "sub" then Some(SubtaskCmd)
    else if keyword == "d" || keyword == "due" then Some(DueCmd)
    else if keyword == "start" then Some(StartCmd)
    else if keyword == "p" || keyword == "prio" then Some(PrioCmd)
    else if keyword == "c" || keyword == "col" || keyword == "color" then Some(ColorCmd)
    else None
  }

  /** One spelling of each kind, accepted by `KindOf`. */
  function Canonical(k: Kind): (keyword: string)
    ensures KindOf(keyword) == Some(k) && ' ' !in keyword
  {
    match k
    case TagCmd => "tag"
    case SubtaskCmd => "sub"
    case DueCmd => "due"
    case StartCmd => "start"
    case PrioCmd => "prio"
    case ColorCmd => "color"
  }

  /** A command line: a split line whose keyword is an alias; the parameter is the split's. */
  function ParseCommand(line: string): (r: Option<Command>)
    ensures r.Some? <==> SplitLine(line).Some? && KindOf(SplitLine(line).value.0).Some?
    ensures r.Some? ==> r.value == Command(KindOf(SplitLine(line).value.0).value, SplitLine(line).value.1)
  {
    match SplitLine(line)
    case None => None
    case Some((keyword, param)) =>
      match KindOf(keyword)
      case None => None
      case Some(k) => Some(Command(k, param))
  }

  /** The line a user writes for a command. */
  function Render(cmd: Command): string
  {
    ['\\'] + Canonical(cmd.kind) + (if cmd.param == [] then [] else [' '] + cmd.param)
  }

  /** Rendering and parsing are inverse: the parameter may hold any text, spaces included. */
  lemma RenderRoundTrip(cmd: Command)
    ensures ParseCommand(Render(cmd)) == Some(cmd)
  {
    var kw := Canonical(cmd.kind);
    if cmd.param == [] {
      var line := ['\\'] + kw;
      assert Render(cmd) == line;
      assert SplitLine(line) == Some((kw, [])) by {
        forall i | 1 <= i < |line| ensures line[i] != ' ' {
          assert line[i] == kw[i - 1];
        }
        assert line[1..|line|] == kw;
      }
    } else {
      assert Render(cmd) == ['\\'] + kw + [' '] + cmd.param;
      SplitLineOf(kw, cmd.param);
    }
  }

  /** `colorModel->find`: the empty string when nothing matches. */
  function FindColor(colors: map<string, string>, nameOrId: string): (id: string)
    ensures nameOrId !in colors ==> id == ""
    ensures id != "" ==> nameOrId in colors && colors[nameOrId] == id
  {
    if nameOrId in colors then colors[nameOrId] else ""
  }

  /** The parameter of `\start` defaults to "now". */
  function StartParam(param: string): (p: string)
    ensures p != ""
    ensures param != "" ==> p == param
  {
    if param == "" then "now" else param
  }

  /** The effect of one command, or None when the command is rejected. */
  function Apply(cmd: Command, st: TaskState, taskId: int, env: Env): (r: Option<TaskState>)
    ensures r.Some? && cmd.kind != StartCmd ==> cmd.param != ""
    ensures r.Some? && cmd.kind == ColorCmd ==> cmd.param in env.colors
    ensures r.Some? && cmd.kind == DueCmd ==> ParseDateTime(cmd.param, env.calendar).Some?
  {
    var p := cmd.param;
    match cmd.kind
    case TagCmd =>
      if p == "" then None else Some(st.(tags := Split(p, ' ') + st.tags))
    case SubtaskCmd =>
      if p == "" then None else Some(st.(buffer := st.buffer + [Subtask(p, taskId, env.userId)]))
    case DueCmd =>
      if p == "" then None
      else
        (match ParseDateTime(p, env.calendar)
         case None => None
         case Some(t) => Some(st.(due := Some(t))))
    case StartCmd =>
      (match ParseDateTime(StartParam(p), env.calendar)
       case None => None
       case Some(t) => Some(st.(start := Some(t))))
    case PrioCmd =>
      if p != "" && IsNumeric(p) && env.priorityStart <= IntVal(p) <= env.priorityEnd
      then Some(st.(priority := Some(p)))
      else None
    case ColorCmd =>
      if p == "" || FindColor(env.colors, p) == "" then None
      else Some(st.(color := Some(FindColor(env.colors, p))))
  }

  /** `parseLine`: the new state after a command line, or None for `false`. */
  function ApplyLine(st: TaskState, line: string, taskId: int, env: Env): (r: Option<TaskState>)
    ensures r.Some? ==> |line| >= 2 && line[0] == '\\' && ParseCommand(line).Some?
  {
    match ParseCommand(line)
    case None => None
    case Some(cmd) => Apply(cmd, st, taskId, env)
  }

  /** Only a line of at least two characters that starts with a backslash can succeed. */
  lemma CommandShape(st: TaskState, line: string, taskId: int, env: Env)
    ensures ApplyLine(st, line, taskId, env).Some? ==>
              |line| >= 2 && line[0] == '\\' && KindOf(SplitLine(line).value.0).Some?
  {
  }

  /**
   * An empty parameter rejects every command except `\start`, which reads it
   * as "now".
   */
  lemma EmptyParameter(k: Kind, st: TaskState, taskId: int, env: Env)
    ensures k != StartCmd ==> Apply(Command(k, ""), st, taskId, env).None?
    ensures Apply(Command(StartCmd, ""), st, taskId, env) == Apply(Command(StartCmd, "now"), st, taskId, env)
  {
  }

  /**
   * A command changes only its own part of the state: the field it sets, the
   * tag list (new tags first) or the buffer (appended at the end).
   */
  lemma OnlyItsFieldChanges(cmd: Command, st: TaskState, taskId: int, env: Env)
    requires Apply(cmd, st, taskId, env).Some?
    ensures var st' := Apply(cmd, st, taskId, env).value;
      && (cmd.kind != DueCmd ==> st'.due == st.due)
      && (cmd.kind != StartCmd ==> st'.start == st.start)
      && (cmd.kind != PrioCmd ==> st'.priority == st.priority)
      && (cmd.kind != ColorCmd ==> st'.color == st.color)
      && st'.tags == (if cmd.kind == TagCmd then Split(cmd.param, ' ') + st.tags else st.tags)
      && st'.buffer == (if cmd.kind == SubtaskCmd then st.buffer + [Subtask(cmd.param, taskId, env.userId)] else st.buffer)
  {
  }

  /** The priority is set exactly when the parameter is a number within the project's bounds. */
  lemma PriorityRule(param: string, st: TaskState, taskId: int, env: Env)
    ensures Apply(Command(PrioCmd, param), st, taskId, env).Some? <==>
              IsNumeric(param) && env.priorityStart <= IntVal(param) <= env.priorityEnd
    ensures Apply(Command(PrioCmd, param), st, taskId, env).Some? ==>
              Apply(Command(PrioCmd, param), st, taskId, env).value.priority == Some(param)
  {
  }

  /**
   * For the numeral of any 64-bit integer, the bounds are inclusive at both
   * ends: one below the lower bound and one above the upper bound fail.
   */
  lemma PriorityNumerals(n: int, st: TaskState, taskId: int, env: Env)
    requires PhpIntMin <= n <= PhpIntMax
    ensures Apply(Command(PrioCmd, IntToString(n)), st, taskId, env).Some? <==>
              env.priorityStart <= n <= env.priorityEnd
  {
    PriorityRule(IntToString(n), st, taskId, env);
  }

  /** A color is set exactly when the lookup finds it; the found id is stored. */
  lemma ColorRule(param: string, st: TaskState, taskId: int, env: Env)
    ensures Apply(Command(ColorCmd, param), st, taskId, env).Some? <==>
              param != "" && param in env.colors && env.colors[param] != ""
    ensures Apply(Command(ColorCmd, param), st, taskId, env).Some? ==>
              Apply(Command(ColorCmd, param), st, taskId, env).value.color == Some(env.colors[param])
  {
  }
}
