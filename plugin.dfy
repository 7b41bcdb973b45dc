/**
 * The plugin's task handling: the task row under mutation, the stores it is
 * saved to, `parseLine` and `parseDescription` as the source writes them
 * (an in-place update of the task, a backward scan loop with a `break`, a
 * reverse flush of the subtask buffer and one update call).
 */
module Plugin {
  import opened Wrappers
  import opened Seqs
  import opened Strings
  import opened DateTime
  import opened Commands
  import opened Scanner
  import opened Extraction

  /** A task row as the task store holds it. */
  datatype TaskRecord = TaskRecord(
    id: int,
    projectId: int,
    description: string,
    due: Option<int>,
    start: Option<int>,
    priority: Option<string>,
    color: Option<string>)

  /** The tag, subtask and task stores, reduced to what the extraction does with them. */
  class Stores {
    /** The tag store: each task's list of tag names. */
    var tags: map<int, seq<string>>
    /** The subtask store: the subtasks created, in creation order. */
    var subtasks: seq<Subtask>
    /** The task store: the rows passed to `update`, in call order. */
    var updates: seq<TaskRecord>

    constructor (tags: map<int, seq<string>>)
      ensures this.tags == tags && subtasks == [] && updates == []
    {
      this.tags := tags;
      subtasks := [];
      updates := [];
    }

    /** `taskTagModel->getList`. */
    function TagList(taskId: int): (names: seq<string>)
      reads this
      ensures taskId !in tags ==> names == []
      ensures taskId in tags ==> names == tags[taskId]
    {
      if taskId in tags then tags[taskId] else []
    }

    /** `taskTagModel->save`: the task's tag list becomes `names`. */
    method SaveTags(projectId: int, taskId: int, names: seq<string>)
      modifies this`tags
      ensures tags == old(tags)[taskId := names]
      ensures TagList(taskId) == names
    {
      tags := tags[taskId := names];
    }

    /** `subtaskModel->create`. */
    method CreateSubtask(s: Subtask)
      modifies this`subtasks
      ensures subtasks == old(subtasks) + [s]
    {
      subtasks := subtasks + [s];
    }

    /** `taskModificationModel->update`. */
    method Update(row: TaskRecord)
      modifies this`updates
      ensures updates == old(updates) + [row]
    {
      updates := updates + [row];
    }
  }

  /** The `$task` array: the loaded row plus the buffer `new_subtasks`. */
  class Task {
    const id: int
    const projectId: int
    var description: string
    var due: Option<int>
    var start: Option<int>
    var priority: Option<string>
    var color: Option<string>
    var newSubtasks: seq<Subtask>

    /** `taskFinderModel->getById`: a loaded row has no buffered subtasks. */
    constructor Load(row: TaskRecord)
      ensures Record() == row && newSubtasks == []
    {
      id, projectId := row.id, row.projectId;
      description := row.description;
      due, start, priority, color := row.due, row.start, row.priority, row.color;
      newSubtasks := [];
    }

    function Record(): TaskRecord
      reads this
    {
      TaskRecord(id, projectId, description, due, start, priority, color)
    }

    /** The part of the task and of the tag store that commands change. */
    function State(stores: Stores): TaskState
      reads this, stores
    {
      TaskState(due, start, priority, color, stores.TagList(id), newSubtasks)
    }

    /**
     * `parseLine`: on success the task and its tag list are changed as
     * `ApplyLine` says; on failure nothing is changed.
     */
    method ParseLine(line: string, stores: Stores, env: Env) returns (ok: bool)
      modifies this, stores`tags
      ensures ok == Dispatch(id, env)(old(State(stores)), line).Some?
      ensures State(stores) == if ok then Dispatch(id, env)(old(State(stores)), line).value else old(State(stores))
      ensures description == old(description)
      ensures stores.tags - {id} == old(stores.tags) - {id}
    {
      var len := |line|;
      if len < 2 || line[0] != '\\' {
        return false;
      }
      var nextSpace := Find(line, ' ', 1);
      var endOfKeyword := if nextSpace.Some? then nextSpace.value else len;
      var keyword := line[1..endOfKeyword];
      var parameter := if endOfKeyword + 1 <= len then line[endOfKeyword + 1..] else "";
      assert SplitLine(line) == Some((keyword, parameter));
      DispatchIs(id, env, State(stores), line);
      match KindOf(keyword)
      case None =>
        return false;
      case Some(kind) =>
        ok := RunCommand(Command(kind, parameter), stores, env);
    }

    /** The `switch` of `parseLine`: one branch per command, each with its own failure cases. */
    method RunCommand(cmd: Command, stores: Stores, env: Env) returns (ok: bool)
      modifies this, stores`tags
      ensures ok == Apply(cmd, old(State(stores)), id, env).Some?
      ensures State(stores) == if ok then Apply(cmd, old(State(stores)), id, env).value else old(State(stores))
      ensures description == old(description)
      ensures stores.tags - {id} == old(stores.tags) - {id}
    {
      var parameter := cmd.param;
      match cmd.kind
      case TagCmd =>
        if parameter == "" {
          return false;
        }
        var tags := Split(parameter, ' ');
        var existing := stores.TagList(id);
        stores.SaveTags(projectId, id, tags + existing);
        return true;
      case SubtaskCmd =>
        if parameter == "" {
          return false;
        }
        newSubtasks := newSubtasks + [Subtask(parameter, id, env.userId)];
        return true;
      case DueCmd =>
        if parameter == "" {
          return false;
        }
        var parsed := ParseDateTime(parameter, env.calendar);
        if parsed.None? {
          return false;
        }
        due := parsed;
        return true;
      case StartCmd =>
        if parameter == "" {
          parameter := "now";
        }
        var parsed := ParseDateTime(parameter, env.calendar);
        if parsed.None? {
          return false;
        }
        start := parsed;
        return true;
      case PrioCmd =>
        var prioMin, prioMax := env.priorityStart, env.priorityEnd;
        if parameter == "" || !IsNumeric(parameter) || IntVal(parameter) < prioMin || IntVal(parameter) > prioMax {
          return false;
        }
        priority := Some(parameter);
        return true;
      case ColorCmd =>
        if parameter == "" {
          return false;
        }
        var colorId := FindColor(env.colors, parameter);
        if colorId == "" {
          return false;
        }
        color := Some(colorId);
        return true;
    }

    /**
     * The scan loop of `parseDescription`: from the end of `desc`, each line
     * is applied as a command until one fails or the text is used up; the
     * text before the last applied line is kept.
     */
    method ScanBack(desc: string, stores: Stores, env: Env) returns (offsetEnd: nat)
      modifies this, stores`tags
      ensures offsetEnd <= |desc|
      ensures ScanText(desc, old(State(stores)), Dispatch(id, env)) == ScanResult(desc[..offsetEnd], State(stores))
      ensures description == old(description)
      ensures stores.tags - {id} == old(stores.tags) - {id}
    {
      var offsetBegin := |desc|;
      offsetEnd := |desc|;
      ghost var st0 := State(stores);
      ghost var apply := Dispatch(id, env);
      assert desc[..offsetEnd] == desc;
      while offsetEnd > 0
        invariant offsetEnd <= |desc|
        invariant ScanText(desc[..offsetEnd], State(stores), apply) == ScanText(desc, st0, apply)
        invariant description == old(description)
        invariant stores.tags - {id} == old(stores.tags) - {id}
        decreases offsetEnd
      {
        offsetBegin := FindLineBeginningRev(desc, offsetEnd - 1);
        LineBeginUnique(desc, offsetEnd - 1, offsetBegin);
        var line := desc[offsetBegin..offsetEnd];
        ghost var before := State(stores);
        var result := ParseLine(line, stores, env);
        ScanTextStep(desc, offsetEnd, offsetBegin, before, State(stores), result, apply);
        if !result {
          return;
        }
        offsetEnd := if offsetBegin - 2 > 0 then offsetBegin - 2 else 0;
      }
    }

    /** The flush of `parseDescription`: the buffered subtasks are created from the last to the first. */
    method FlushSubtasks(stores: Stores)
      modifies this`newSubtasks, stores`subtasks
      ensures stores.subtasks == old(stores.subtasks) + Reverse(old(newSubtasks))
      ensures newSubtasks == []
    {
      var buffer := newSubtasks;
      var i := |buffer| - 1;
      while i >= 0
        modifies stores`subtasks
        invariant -1 <= i < |buffer|
        invariant stores.subtasks == old(stores.subtasks) + Reverse(buffer)[..|buffer| - 1 - i]
      {
        ReverseAt(buffer, |buffer| - 1 - i);
        assert Reverse(buffer)[..|buffer| - i] == Reverse(buffer)[..|buffer| - 1 - i] + [buffer[i]];
        stores.CreateSubtask(buffer[i]);
        i := i - 1;
      }
      assert Reverse(buffer)[..|buffer|] == Reverse(buffer);
      newSubtasks := [];
    }

    /**
     * `parseDescription`: the description becomes the text the scan keeps,
     * the fields and the tag list take the scan's final state, the buffered
     * subtasks are created from the last buffered to the first, and the row
     * is saved with one update call.
     */
    method ParseDescription(stores: Stores, env: Env)
      modifies this, stores
      ensures var r := Extract(old(description), old(State(stores)), id, env);
              && description == r.kept
              && due == r.state.due && start == r.state.start
              && priority == r.state.priority && color == r.state.color
              && stores.TagList(id) == r.state.tags
              && stores.subtasks == old(stores.subtasks) + Reverse(r.state.buffer)
              && newSubtasks == []
              && stores.updates == old(stores.updates) + [Record()]
      ensures stores.tags - {id} == old(stores.tags) - {id}
      ensures old(newSubtasks) == [] ==>
                var ls := Lines(RTrim(old(description)));
                var dropped := ls[ScanLines(ls, old(State(stores)), Dispatch(id, env)).kept..];
                && stores.subtasks == old(stores.subtasks) + SubtasksIn(dropped, id, env.userId)
                && stores.TagList(id) == TagsIn(dropped) + old(stores.TagList(id))
    {
      ghost var before, st := description, State(stores);
      if st.buffer == [] {
        DroppedLinesEffects(before, st, id, env);
      }
      var desc := RTrim(description);
      var offsetEnd := ScanBack(desc, stores, env);
      FlushSubtasks(stores);
      description := desc[..offsetEnd];
      stores.Update(Record());
    }
  }
}
