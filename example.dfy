/**
 * A worked example: a text line under three commands. It is proved for every
 * task state, every project whose priority bounds are 1..5 and every calendar
 * whose `strtotime` answers the request for three days ahead.
 */
module Example {
  import opened Wrappers
  import opened Seqs
  import opened Strings
  import opened DateTime
  import opened Commands
  import opened Scanner
  import opened Extraction

  /** A line that parses as `cmd` has the effect of `cmd`. */
  lemma LineIsCommand(line: string, cmd: Command, st: TaskState, taskId: int, env: Env)
    requires ParseCommand(line) == Some(cmd)
    ensures ApplyLine(st, line, taskId, env) == Apply(cmd, st, taskId, env)
  {
  }

  /** A tag command with a non-empty parameter puts its pieces in front of the tag list. */
  lemma TagEffect(param: string, st: TaskState, taskId: int, env: Env)
    requires param != ""
    ensures Apply(Command(TagCmd, param), st, taskId, env) == Some(st.(tags := Split(param, ' ') + st.tags))
  {
  }

  lemma ParseTagLine()
    ensures ParseCommand("\\tag urgent") == Some(Command(TagCmd, "urgent"))
  {
    assert "\\tag urgent" == ['\\'] + "tag" + [' '] + "urgent";
    SplitLineOf("tag", "urgent");
  }

  lemma ParsePrioLine()
    ensures ParseCommand("\\p 2") == Some(Command(PrioCmd, "2"))
  {
    assert "\\p 2" == ['\\'] + "p" + [' '] + "2";
    SplitLineOf("p", "2");
  }

  lemma ParseDueLine()
    ensures ParseCommand("\\due 3d") == Some(Command(DueCmd, "3d"))
  {
    assert "\\due 3d" == ['\\'] + "due" + [' '] + "3d";
    SplitLineOf("due", "3d");
  }

  /** The tag line of the worked example puts `urgent` in front of the tag list. */
  lemma ExampleTagLine(st: TaskState, taskId: int, env: Env)
    ensures ApplyLine(st, "\\tag urgent", taskId, env) == Some(st.(tags := ["urgent"] + st.tags))
  {
    var cmd := Command(TagCmd, "urgent");
    assert ApplyLine(st, "\\tag urgent", taskId, env) == Apply(cmd, st, taskId, env) by {
      ParseTagLine();
      LineIsCommand("\\tag urgent", cmd, st, taskId, env);
    }
    assert Apply(cmd, st, taskId, env) == Some(st.(tags := Split("urgent", ' ') + st.tags)) by {
      TagEffect("urgent", st, taskId, env);
    }
    assert Split("urgent", ' ') == ["urgent"] by {
      assert ' ' !in "urgent";
      SplitWithoutSeparator("urgent", ' ');
    }
  }

  /** The priority line of the worked example sets the priority text "2" when 2 is within bounds. */
  lemma ExamplePrioLine(st: TaskState, taskId: int, env: Env)
    requires env.priorityStart <= 2 <= env.priorityEnd
    ensures ApplyLine(st, "\\p 2", taskId, env) == Some(st.(priority := Some("2")))
  {
    ParsePrioLine();
    LineIsCommand("\\p 2", Command(PrioCmd, "2"), st, taskId, env);
    assert IsNumeric("2") && IntVal("2") == 2 by {
      assert IsDigits("2") && DigitsValue("2") == 2;
    }
  }

  /** A due command whose parameter resolves sets the due date to the resolved timestamp. */
  lemma DueEffect(param: string, st: TaskState, taskId: int, env: Env)
    requires param != "" && ParseDateTime(param, env.calendar).Some?
    ensures Apply(Command(DueCmd, param), st, taskId, env) == Some(st.(due := ParseDateTime(param, env.calendar)))
  {
  }

  /** "3d" resolves to the start of the day three days ahead. */
  lemma ThreeDaysAhead(cal: Calendar)
    ensures ParseDateTime("3d", cal) ==
              (if cal.strtotime(DaysAhead(3)).Some? then Some(cal.startOfDay(cal.strtotime(DaysAhead(3)).value)) else None)
  {
    var p := (if false then "+" else "") + NatToString(3) + "d";
    RelativeDays(3, false, cal);
    assert p == "3d" by { assert NatToString(3) == "3"; }
  }

  /** The due line of the worked example asks for three days ahead, at the start of that day. */
  lemma ExampleDueLine(st: TaskState, taskId: int, env: Env)
    requires env.calendar.strtotime(DaysAhead(3)).Some?
    ensures ApplyLine(st, "\\due 3d", taskId, env) ==
              Some(st.(due := Some(env.calendar.startOfDay(env.calendar.strtotime(DaysAhead(3)).value))))
  {
    ParseDueLine();
    LineIsCommand("\\due 3d", Command(DueCmd, "3d"), st, taskId, env);
    ThreeDaysAhead(env.calendar);
    DueEffect("3d", st, taskId, env);
  }

  /** A break-free text line under three break-free lines that apply, bottom-up, in turn. */
  lemma ScanThreeCommands<S>(text: string, l1: string, l2: string, l3: string,
                             st: S, s1: S, s2: S, s3: S, apply: (S, string) -> Option<S>)
    requires '\n' !in text && '\n' !in l1 && '\n' !in l2 && '\n' !in l3
    requires apply(st, l3) == Some(s1) && apply(s1, l2) == Some(s2) && apply(s2, l1) == Some(s3)
    requires apply(s3, text).None?
    ensures ScanText(text + Crlf + l1 + Crlf + l2 + Crlf + l3, st, apply) == ScanResult(text, s3)
  {
    ScanTextDropsLine(text + Crlf + l1 + Crlf + l2, l3, st, s1, apply);
    ScanTextDropsLine(text + Crlf + l1, l2, s1, s2, apply);
    ScanTextDropsLine(text, l1, s2, s3, apply);
    ScanTextKeepsLine(text, s3, apply);
  }

  /**
   * The worked example: a text line followed by a due, a priority and a tag
   * command, with priority bounds 1..5. The three commands are applied and
   * removed; the text line is kept.
   */
  lemma WorkedExample(st: TaskState, taskId: int, env: Env)
    requires env.priorityStart == 1 && env.priorityEnd == 5
    requires env.calendar.strtotime(DaysAhead(3)).Some?
    ensures var r := Extract("Do the thing" + Crlf + "\\due 3d" + Crlf + "\\p 2" + Crlf + "\\tag urgent", st, taskId, env);
            && r.kept == "Do the thing"
            && r.state.due == Some(env.calendar.startOfDay(env.calendar.strtotime(DaysAhead(3)).value))
            && r.state.priority == Some("2")
            && r.state.tags == ["urgent"] + st.tags
            && r.state.start == st.start && r.state.color == st.color && r.state.buffer == st.buffer
  {
    var apply := Dispatch(taskId, env);
    var text, l1, l2, l3 := "Do the thing", "\\due 3d", "\\p 2", "\\tag urgent";
    var d := text + Crlf + l1 + Crlf + l2 + Crlf + l3;
    assert RTrim(d) == d by { assert Last(d) == 't'; }
    var s1 := st.(tags := ["urgent"] + st.tags);
    var s2 := s1.(priority := Some("2"));
    var s3 := s2.(due := Some(env.calendar.startOfDay(env.calendar.strtotime(DaysAhead(3)).value)));
    assert apply(st, l3) == Some(s1) by {
      ExampleTagLine(st, taskId, env);
      DispatchIs(taskId, env, st, l3);
    }
    assert apply(s1, l2) == Some(s2) by {
      ExamplePrioLine(s1, taskId, env);
      DispatchIs(taskId, env, s1, l2);
    }
    assert apply(s2, l1) == Some(s3) by {
      ExampleDueLine(s2, taskId, env);
      DispatchIs(taskId, env, s2, l1);
    }
    assert apply(s3, text).None? by {
      DispatchIs(taskId, env, s3, text);
    }
    ScanThreeCommands(text, l1, l2, l3, st, s1, s2, s3, apply);
  }
}
