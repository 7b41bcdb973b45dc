/**
 * The reverse line scanner of `parseDescription`: lines are separated only by
 * the two-character break "\r\n"; the scan walks from the end and stops at
 * the first line that is not a valid command. `ScanText` follows the
 * source's offsets; `Lines` and `ScanLines` give the same scan as a list of
 * lines, and the lemmas tie the two together. The scanner sees the command
 * dispatcher only as `apply`, which maps a state and a line to the new state
 * or to None when the line does not parse.
 */
module Scanner {
  import opened Wrappers
  import opened Seqs

  const Crlf: string := "\r\n"

  /** A "\r\n" break ends at index `i` of `s`. */
  predicate BreakEndsAt(s: string, i: int)
  {
    1 <= i < |s| && s[i - 1] == '\r' && s[i] == '\n'
  }

  /**
   * The start of the line that holds index `offset`: 0 when no break ends at
   * an index in 1..offset, otherwise one past the last such break.
   */
  function LineBegin(s: string, offset: int): (b: nat)
    requires offset < |s|
    ensures b == 0 || (2 <= b <= offset + 1 && BreakEndsAt(s, b - 1))
    ensures forall i :: b <= i <= offset ==> !BreakEndsAt(s, i)
    decreases offset
  {
    if offset < 1 then 0
    else if s[offset] == '\n' && s[offset - 1] == '\r' then offset + 1
    else LineBegin(s, offset - 1)
  }

  /** The two properties of `LineBegin` determine it. */
  lemma {:induction false} LineBeginUnique(s: string, offset: int, b: nat)
    requires offset < |s|
    requires b == 0 || (2 <= b <= offset + 1 && BreakEndsAt(s, b - 1))
    requires forall i :: b <= i <= offset ==> !BreakEndsAt(s, i)
    ensures b == LineBegin(s, offset)
    decreases offset
  {
    if offset >= 1 && b != offset + 1 {
      assert !BreakEndsAt(s, offset);
      LineBeginUnique(s, offset - 1, b);
    }
  }

  /** `LineBegin` looks only at the characters up to `offset`. */
  lemma {:induction false} LineBeginOfPrefix(s: string, n: nat, offset: int)
    requires offset < n <= |s|
    ensures LineBegin(s, offset) == LineBegin(s[..n], offset)
    decreases offset
  {
    if offset >= 1 {
      LineBeginOfPrefix(s, n, offset - 1);
    }
  }

  /** `findLineBeginningRev`: the same search as a backward loop with an early return. */
  method FindLineBeginningRev(s: string, offset: int) returns (b: nat)
    requires offset < |s|
    ensures b == 0 || (2 <= b <= offset + 1 && BreakEndsAt(s, b - 1))
    ensures forall i :: b <= i <= offset ==> !BreakEndsAt(s, i)
  {
    var i := offset;
    while i >= 1
      invariant i <= offset
      invariant forall k :: i < k <= offset ==> !BreakEndsAt(s, k)
    {
      if s[i] == '\n' && s[i - 1] == '\r' {
        return i + 1;
      }
      i := i - 1;
    }
    return 0;
  }

  /** The documented example: in "foo\r\nbar", the line holding index 7 starts at 5. */
  lemma LineBeginExample()
    ensures LineBegin("foo\r\nbar", 7) == 5 && LineBegin("foo\r\nbar", 4) == 5
    ensures LineBegin("foo\r\nbar", 3) == 0
  {
    var s := "foo\r\nbar";
    assert BreakEndsAt(s, 4);
    LineBeginUnique(s, 7, 5);
    LineBeginUnique(s, 4, 5);
    LineBeginUnique(s, 3, 0);
  }

  /** The lines of `s`, split at every "\r\n", first line first. */
  function Lines(s: string): (ls: seq<string>)
    ensures |ls| >= 1
    decreases |s|
  {
    var b := LineBegin(s, |s| - 1);
    if b == 0 then [s] else Lines(s[..b - 2]) + [s[b..]]
  }

  /** The lines joined with "\r\n" give the text back. */
  lemma {:induction false} LinesJoin(s: string)
    ensures Join(Lines(s), Crlf) == s
    decreases |s|
  {
    var b := LineBegin(s, |s| - 1);
    if b != 0 {
      var q := s[..b - 2];
      var ls := Lines(s);
      assert ls == Lines(q) + [s[b..]];
      assert Front(ls) == Lines(q) && Last(ls) == s[b..];
      LinesJoin(q);
      assert Join(ls, Crlf) == q + Crlf + s[b..];
      assert s == q + Crlf + s[b..];
    }
  }

  /** No line contains a "\r\n" break. */
  lemma {:induction false} LinesHaveNoBreak(s: string)
    ensures forall k, i :: 0 <= k < |Lines(s)| ==> !BreakEndsAt(Lines(s)[k], i)
    decreases |s|
  {
    var b := LineBegin(s, |s| - 1);
    if b != 0 {
      var q := s[..b - 2];
      LinesHaveNoBreak(q);
      var last := s[b..];
      forall i ensures !BreakEndsAt(last, i) {
        if 1 <= i < |last| {
          assert last[i - 1] == s[b + i - 1] && last[i] == s[b + i];
          assert !BreakEndsAt(s, b + i);
        }
      }
    }
  }

  /** Splitting a join of break-free lines gives the lines back. */
  lemma {:induction false} LinesOfJoin(ls: seq<string>)
    requires |ls| >= 1
    requires forall k, i :: 0 <= k < |ls| ==> !BreakEndsAt(ls[k], i)
    ensures Lines(Join(ls, Crlf)) == ls
  {
    var s := Join(ls, Crlf);
    if |ls| == 1 {
      LineBeginUnique(s, |s| - 1, 0);
    } else {
      var front, last := Join(Front(ls), Crlf), Last(ls);
      assert s == front + Crlf + last;
      var b := |front| + 2;
      assert BreakEndsAt(s, b - 1);
      forall i | b <= i <= |s| - 1 ensures !BreakEndsAt(s, i) {
        if i == b {
          assert !BreakEndsAt(last, 0);
          assert s[i - 1] == '\n';
        } else {
          assert s[i - 1] == last[i - 1 - b] && s[i] == last[i - b];
          assert !BreakEndsAt(last, i - b);
        }
      }
      LineBeginUnique(s, |s| - 1, b);
      assert s[..b - 2] == front && s[b..] == last;
      LinesOfJoin(Front(ls));
    }
  }

  datatype ScanResult<S> = ScanResult(kept: string, state: S)

  /**
   * The scan of `parseDescription` on the text up to the line-end cursor:
   * parse the last line; on failure keep the text, on success drop the line
   * and the break before it and go on.
   */
  function ScanText<S>(p: string, st: S, apply: (S, string) -> Option<S>): (r: ScanResult<S>)
    ensures IsPrefix(r.kept, p)
    decreases |p|
  {
    if |p| == 0 then ScanResult(p, st)
    else
      var b := LineBegin(p, |p| - 1);
      match apply(st, p[b..])
      case None => ScanResult(p, st)
      case Some(st') =>
        var q := p[..if b >= 2 then b - 2 else 0];
        var r := ScanText(q, st', apply);
        assert p[..|r.kept|] == q[..|r.kept|];
        r
  }

  /** A non-empty kept text ends in a line that does not parse in the final state. */
  lemma {:induction false} ScanStopsAtFailure<S>(p: string, st: S, apply: (S, string) -> Option<S>)
    ensures var r := ScanText(p, st, apply);
            |r.kept| > 0 ==> apply(r.state, r.kept[LineBegin(r.kept, |r.kept| - 1)..]).None?
    decreases |p|
  {
    if |p| > 0 {
      var b := LineBegin(p, |p| - 1);
      match apply(st, p[b..])
      case None =>
      case Some(st') =>
        ScanStopsAtFailure(p[..if b >= 2 then b - 2 else 0], st', apply);
    }
  }

  /** A text whose last line fails is kept whole. */
  lemma ScanTextLastFails<S>(p: string, st: S, apply: (S, string) -> Option<S>)
    requires |p| > 0 && apply(st, p[LineBegin(p, |p| - 1)..]).None?
    ensures ScanText(p, st, apply) == ScanResult(p, st)
  {
  }

  /** A text whose last line applies is scanned on from the text before that line and its break. */
  lemma ScanTextLastApplies<S>(p: string, st: S, st': S, apply: (S, string) -> Option<S>)
    requires |p| > 0 && apply(st, p[LineBegin(p, |p| - 1)..]) == Some(st')
    ensures var b := LineBegin(p, |p| - 1);
            ScanText(p, st, apply) == ScanText(p[..if b >= 2 then b - 2 else 0], st', apply)
  {
  }

  /** A text that ends in one more break-free line that applies is scanned on from the text before it. */
  lemma ScanTextDropsLine<S>(q: string, line: string, st: S, st': S, apply: (S, string) -> Option<S>)
    requires '\n' !in line
    requires apply(st, line) == Some(st')
    ensures ScanText(q + Crlf + line, st, apply) == ScanText(q, st', apply)
  {
    var p := q + Crlf + line;
    var b := |q| + 2;
    assert BreakEndsAt(p, b - 1);
    forall i | b <= i <= |p| - 1 ensures !BreakEndsAt(p, i) {
      assert p[i] == line[i - b];
    }
    LineBeginUnique(p, |p| - 1, b);
    assert p[b..] == line && p[..b - 2] == q;
    ScanTextLastApplies(p, st, st', apply);
  }

  /** A single break-free line that fails is kept, and nothing changes. */
  lemma ScanTextKeepsLine<S>(line: string, st: S, apply: (S, string) -> Option<S>)
    requires '\n' !in line
    requires apply(st, line).None?
    ensures ScanText(line, st, apply) == ScanResult(line, st)
  {
    if |line| > 0 {
      forall i | 0 <= i <= |line| - 1 ensures !BreakEndsAt(line, i) {
        assert line[i] != '\n';
      }
      LineBeginUnique(line, |line| - 1, 0);
      assert line[0..] == line;
      ScanTextLastFails(line, st, apply);
    }
  }

  /** The scan on the text up to cursor `n` of `desc` stops when the line ending at `n` fails. */
  lemma ScanTextStops<S>(desc: string, n: nat, b: nat, st: S, apply: (S, string) -> Option<S>)
    requires 0 < n <= |desc| && b == LineBegin(desc, n - 1)
    requires apply(st, desc[b..n]).None?
    ensures ScanText(desc[..n], st, apply) == ScanResult(desc[..n], st)
  {
    var p := desc[..n];
    LineBeginOfPrefix(desc, n, n - 1);
    assert p[b..] == desc[b..n];
    ScanTextLastFails(p, st, apply);
  }

  /**
   * When the line ending at cursor `n` applies, the scan goes on from the
   * text before that line and its break, in the new state.
   */
  lemma ScanTextAdvances<S>(desc: string, n: nat, b: nat, st: S, st': S, apply: (S, string) -> Option<S>)
    requires 0 < n <= |desc| && b == LineBegin(desc, n - 1)
    requires apply(st, desc[b..n]) == Some(st')
    ensures ScanText(desc[..if b > 2 then b - 2 else 0], st', apply) == ScanText(desc[..n], st, apply)
  {
    var p := desc[..n];
    var k := if b >= 2 then b - 2 else 0;
    assert LineBegin(p, |p| - 1) == b by {
      LineBeginOfPrefix(desc, n, n - 1);
    }
    assert apply(st, p[b..]) == Some(st') by {
      assert p[b..] == desc[b..n];
    }
    ScanTextLastApplies(p, st, st', apply);
    assert p[..k] == desc[..if b > 2 then b - 2 else 0];
  }

  /** One step of the scan loop: the line ending at cursor `n` either stops the scan or advances it. */
  lemma ScanTextStep<S>(desc: string, n: nat, b: nat, before: S, after: S, ok: bool,
                        apply: (S, string) -> Option<S>)
    requires 0 < n <= |desc| && b == LineBegin(desc, n - 1)
    requires ok == apply(before, desc[b..n]).Some?
    requires after == if ok then apply(before, desc[b..n]).value else before
    ensures !ok ==> ScanText(desc[..n], before, apply) == ScanResult(desc[..n], after)
    ensures ok ==> ScanText(desc[..if b > 2 then b - 2 else 0], after, apply) == ScanText(desc[..n], before, apply)
  {
    if ok {
      ScanTextAdvances(desc, n, b, before, after, apply);
    } else {
      ScanTextStops(desc, n, b, before, apply);
    }
  }

  datatype LineScan<S> = LineScan(kept: nat, state: S)

  /** The scan as a list of lines: how many lines are kept, and the final state. */
  function ScanLines<S>(ls: seq<string>, st: S, apply: (S, string) -> Option<S>): (r: LineScan<S>)
    ensures r.kept <= |ls|
  {
    if |ls| == 0 then LineScan(0, st)
    else
      match apply(st, Last(ls))
      case None => LineScan(|ls|, st)
      case Some(st') => ScanLines(Front(ls), st', apply)
  }

  /** Apply the lines from the last to the first; None if any of them fails. */
  function ApplyBottomUp<S>(st: S, ls: seq<string>, apply: (S, string) -> Option<S>): (r: Option<S>)
    ensures r.Some? && |ls| > 0 ==> apply(st, Last(ls)).Some?
    decreases |ls|
  {
    if |ls| == 0 then Some(st)
    else
      match apply(st, Last(ls))
      case None => None
      case Some(st') => ApplyBottomUp(st', Front(ls), apply)
  }

  /** The first bottom-up step: the last line is applied, then the lines above it. */
  lemma ApplyBottomUpStep<S>(st: S, ls: seq<string>, apply: (S, string) -> Option<S>)
    requires |ls| > 0 && ApplyBottomUp(st, ls, apply).Some?
    ensures apply(st, Last(ls)).Some?
    ensures ApplyBottomUp(st, ls, apply) == ApplyBottomUp(apply(st, Last(ls)).value, Front(ls), apply)
  {
  }

  /**
   * The scan consumes a run of lines at the bottom that all parse, applied
   * bottom-up, and stops at a line that fails.
   */
  lemma {:induction false} ScanLinesStopsAtFirstFailure<S>(ls: seq<string>, st: S, apply: (S, string) -> Option<S>)
    ensures var r := ScanLines(ls, st, apply);
            && ApplyBottomUp(st, ls[r.kept..], apply) == Some(r.state)
            && (r.kept > 0 ==> apply(r.state, ls[r.kept - 1]).None?)
  {
    if |ls| > 0 {
      match apply(st, Last(ls))
      case None =>
        assert ls[|ls|..] == [];
      case Some(st') =>
        ScanLinesStopsAtFirstFailure(Front(ls), st', apply);
        var m := ScanLines(ls, st, apply).kept;
        assert Last(ls[m..]) == Last(ls);
        assert Front(ls[m..]) == Front(ls)[m..];
    }
  }

  /** The last line of a text starts where `LineBegin` says. */
  lemma LinesLast(s: string)
    ensures Last(Lines(s)) == s[LineBegin(s, |s| - 1)..]
  {
    var b := LineBegin(s, |s| - 1);
    if b == 0 {
      assert Lines(s) == [s];
    } else {
      assert Lines(s) == Lines(s[..b - 2]) + [s[b..]];
    }
  }

  /** A text with a break: its lines are those before the last break, then the last line. */
  lemma LinesSplitLast(s: string)
    requires LineBegin(s, |s| - 1) != 0
    ensures var b := LineBegin(s, |s| - 1);
            Lines(s) == Lines(s[..b - 2]) + [s[b..]] && Front(Lines(s)) == Lines(s[..b - 2])
  {
  }

  /** A list of lines whose last line fails is kept whole. */
  lemma ScanLinesLastFails<S>(ls: seq<string>, st: S, apply: (S, string) -> Option<S>)
    requires |ls| > 0 && apply(st, Last(ls)).None?
    ensures ScanLines(ls, st, apply) == LineScan(|ls|, st)
  {
  }

  /** A list of lines whose last line applies is scanned on from the lines above it. */
  lemma ScanLinesLastApplies<S>(ls: seq<string>, st: S, st': S, apply: (S, string) -> Option<S>)
    requires |ls| > 0 && apply(st, Last(ls)) == Some(st')
    ensures ScanLines(ls, st, apply) == ScanLines(Front(ls), st', apply)
  {
  }

  /** The first lines of `ls ++ [x]`, up to one that is in `ls`, are the first lines of `ls`. */
  lemma TakeOfAppend(ls: seq<string>, x: string, m: nat)
    requires m <= |ls|
    ensures (ls + [x])[..m] == ls[..m]
  {
  }

  /** The lines of the empty text: one empty line, which fails. */
  lemma ScanByLinesEmpty<S>(st: S, apply: (S, string) -> Option<S>)
    requires apply(st, "").None?
    ensures var ls := Lines("");
            var r := ScanLines(ls, st, apply);
            ScanText("", st, apply) == ScanResult(Join(ls[..r.kept], Crlf), r.state)
  {
    var ls := Lines("");
    assert ls == [""];
    assert ScanLines(ls, st, apply) == LineScan(1, st);
    assert ls[..1] == ls;
  }

  /** The offset-based scan keeps exactly the lines the line-based scan keeps. */
  lemma {:induction false} ScanByLines<S>(p: string, st: S, apply: (S, string) -> Option<S>)
    requires forall s :: apply(s, "").None?
    ensures var ls := Lines(p);
            var r := ScanLines(ls, st, apply);
            ScanText(p, st, apply) == ScanResult(Join(ls[..r.kept], Crlf), r.state)
    decreases |p|
  {
    if |p| == 0 {
      ScanByLinesEmpty(st, apply);
    } else {
      var b := LineBegin(p, |p| - 1);
      if apply(st, p[b..]).None? {
        var ls := Lines(p);
        LinesLast(p);
        ScanTextLastFails(p, st, apply);
        ScanLinesLastFails(ls, st, apply);
        LinesJoin(p);
        assert ls[..|ls|] == ls;
      } else {
        var ls := Lines(p);
        var st' := apply(st, p[b..]).value;
        LinesLast(p);
        ScanTextLastApplies(p, st, st', apply);
        ScanLinesLastApplies(ls, st, st', apply);
        if b == 0 {
          assert ls == [p] && ls[..0] == [];
        } else {
          LinesSplitLast(p);
          var q := p[..b - 2];
          ScanByLines(q, st', apply);
          TakeOfAppend(Lines(q), p[b..], ScanLines(Lines(q), st', apply).kept);
        }
      }
    }
  }

  /** A text whose last line is not a valid command is kept whole, and nothing changes. */
  lemma NoTrailingCommand<S>(p: string, st: S, apply: (S, string) -> Option<S>)
    requires forall s :: apply(s, "").None?
    requires apply(st, Last(Lines(p))).None?
    ensures ScanText(p, st, apply) == ScanResult(p, st)
  {
    var ls := Lines(p);
    ScanByLines(p, st, apply);
    LinesJoin(p);
    assert ls[..|ls|] == ls;
  }
}
