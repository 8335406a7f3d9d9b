/** The display buffer class of runtime/pty_display.py, proved against the screen functions. */
module PtyDisplay {
  import opened Basics
  import opened PtyScreen
  import opened PtyTheorems

  class PtyDisplayBuffer {
    const letter: char -> bool
    var lines: seq<string>
    var row: nat
    var col: nat
    var pending: string

    ghost predicate Valid()
      reads this
    {
      Clean(Shown()) && Stuck(letter, pending)
    }

    ghost function Shown(): Screen
      reads this
    {
      Screen(lines, row, col)
    }

    ghost function State(): Buffer
      reads this
    {
      Buffer(Shown(), pending)
    }

    constructor (letter: char -> bool)
      ensures Valid() && State() == EMPTY && this.letter == letter
    {
      this.letter := letter;
      lines, row, col, pending := [""], 0, 0, "";
      new;
      assert CleanLine("");
    }

    /** Take in a chunk of output; chunks may end anywhere, even inside an escape sequence. */
    method Feed(chunk: string)
      requires Valid()
      modifies this
      ensures Valid() && State() == PtyScreen.Feed(letter, old(State()), chunk)
    {
      if chunk == "" {
        return;
      }
      var data := pending + chunk;
      ghost var goal := RunFacts(letter, Shown(), data);
      assert data[0..] == data;
      ghost var stops, end := StopsOf(letter, Shown(), data, 0);
      StopsEnd(letter, data, stops, end, 0, Shown());
      pending := "";
      Consume(data, stops, end);
    }

    /** Everything that can be applied is, and the rest is kept. */
    method Consume(data: string, ghost stops: map<nat, Screen>, ghost goal: Buffer)
      requires pending == "" && Stops(letter, data, stops, goal) && 0 in stops && stops[0] == Shown()
      modifies this
      ensures State() == goal
    {
      var index := 0;
      assert StepsOn(letter, data, stops, goal, 0);
      while index < |data|
        invariant index in stops && StepsOn(letter, data, stops, goal, index)
        invariant pending == "" && Shown() == stops[index]
      {
        var consumed := Advance(data, index);
        if consumed == 0 {
          pending := data[index..];
          return;
        }
        index := index + consumed;
        assert StepsOn(letter, data, stops, goal, index);
      }
    }

    /** One character or one complete escape sequence; 0 when the escape sequence is incomplete. */
    method Advance(data: string, index: nat) returns (consumed: nat)
      requires index < |data| && OnLine(Shown())
      modifies this`lines, this`row, this`col
      ensures consumed == StepLength(letter, data[index..])
      ensures OnLine(Shown()) && Shown() == StepScreen(letter, old(Shown()), data[index..])
    {
      var c := data[index];
      if c == ESC {
        consumed := ConsumeEscape(data, index);
      } else {
        Plain(c);
        consumed := 1;
      }
    }

    /** A character that does not start an escape sequence. */
    method Plain(c: char)
      requires OnLine(Shown())
      modifies this`lines, this`row, this`col
      ensures Shown() == ApplyChar(old(Shown()), c)
    {
      if c == '\r' {
        col := 0;
      } else if c == '\n' {
        EndLine();
      } else if c == BACKSPACE {
        col := if col > 0 then col - 1 else 0;
      } else if c == '\t' {
        col := col + TAB_WIDTH - col % TAB_WIDTH;
      } else if c < ' ' || c == DEL {
      } else {
        WriteChar(c);
      }
    }

    method ConsumeEscape(data: string, start: nat) returns (consumed: nat)
      requires start < |data| && data[start] == ESC && OnLine(Shown())
      modifies this`lines, this`row, this`col
      ensures OnLine(Shown()) && consumed == EscapeLength(letter, data[start..])
      ensures consumed == 0 ==> Shown() == old(Shown())
      ensures consumed > 0 ==> Shown() == ApplyEscape(old(Shown()), data[start..][..consumed])
    {
      if start + 1 >= |data| {
        return 0;
      }
      ghost var d := data[start..];
      assert d[2..] == data[start + 2..];
      var next := data[start + 1];
      if next == ']' {
        var end := FindOscEnd(data, start + 2);
        consumed := match end case None => 0 case Some(e) => e - start;
      } else if next == '[' {
        consumed := ConsumeCsi(data, start, d);
      } else {
        consumed := 2;
      }
    }

    /** A control sequence: dispatched when its final character is there. */
    method ConsumeCsi(data: string, start: nat, ghost d: string) returns (consumed: nat)
      requires start + 1 < |data| && d == data[start..] && d[1] == '[' && OnLine(Shown())
      modifies this`lines, this`row, this`col
      ensures OnLine(Shown())
      ensures consumed == match CsiEnd(letter, d[2..]) case None => 0 case Some(n) => n + 3
      ensures consumed == 0 ==> Shown() == old(Shown())
      ensures consumed > 0 ==> consumed <= |d| && Shown() == ApplyEscape(old(Shown()), d[..consumed])
    {
      var length, body, final := FindFinal(data, start, d);
      if length.None? {
        return 0;
      }
      consumed := length.value + 3;
      CsiApplies(Shown(), d, consumed);
      DispatchCsi(body, final);
    }

    /** The parameters and the final character of a control sequence, when it is complete. */
    method FindFinal(data: string, start: nat, ghost d: string) returns (length: Option<nat>, body: string, final: char)
      requires start + 1 < |data| && d == data[start..]
      ensures length == CsiEnd(letter, d[2..])
      ensures length.Some? ==> length.value + 3 <= |d| && body == d[2..length.value + 2] && final == d[length.value + 2]
    {
      assert d[2..] == data[start + 2..];
      var end := FindCsiEnd(data, start + 2);
      if end.None? {
        return None, "", ' ';
      }
      length := Some(end.value - start - 2);
      body, final := data[start + 2..end.value], data[end.value];
    }

    /** One past the terminator of an operating system command that starts before `start`. */
    method FindOscEnd(data: string, start: nat) returns (end: Option<nat>)
      requires start <= |data|
      ensures end == match OscLength(data[start..]) case None => None case Some(n) => Some(start + n)
    {
      var index := start;
      while index < |data|
        invariant start <= index <= |data|
        invariant OscLength(data[start..]) ==
                    match OscLength(data[index..]) case None => None case Some(n) => Some(index - start + n)
      {
        assert data[index..][1..] == data[index + 1..];
        if data[index] == BEL {
          return Some(index + 1);
        }
        if data[index] == ESC && index + 1 < |data| && data[index + 1] == '\\' {
          return Some(index + 2);
        }
        index := index + 1;
      }
      end := None;
    }

    method FindCsiEnd(data: string, start: nat) returns (end: Option<nat>)
      requires start <= |data|
      ensures end == match CsiEnd(letter, data[start..]) case None => None case Some(n) => Some(start + n)
    {
      var index := start;
      while index < |data|
        invariant start <= index <= |data|
        invariant CsiEnd(letter, data[start..]) ==
                    match CsiEnd(letter, data[index..]) case None => None case Some(n) => Some(index - start + n)
      {
        assert data[index..][1..] == data[index + 1..];
        var c := data[index];
        if letter(c) || c == '@' || c == '`' || c == '~' {
          return Some(index);
        }
        index := index + 1;
      }
      end := None;
    }

    method ParseParams(body: string) returns (values: seq<nat>)
      ensures values == PtyScreen.ParseParams(body)
    {
      if body == "" {
        return [];
      }
      var parts := Split(body);
      values := [];
      var n := 0;
      while n < |parts|
        invariant 0 <= n <= |parts| && values == ParamsOf(parts[..n])
      {
        assert Front(parts[..n + 1]) == parts[..n] && Last(parts[..n + 1]) == parts[n];
        if parts[n] == "" || !AllDigits(parts[n]) {
          values := values + [0];
        } else {
          values := values + [Decimal(parts[n])];
        }
        n := n + 1;
      }
      assert parts[..n] == parts;
    }

    method DispatchCsi(body: string, final: char)
      requires OnLine(Shown())
      modifies this`lines, this`row, this`col
      ensures OnLine(Shown()) && Shown() == Dispatch(old(Shown()), PtyScreen.ParseParams(body), final)
    {
      var params := ParseParams(body);
      ApplyCsi(params, final);
    }

    method ApplyCsi(params: seq<nat>, final: char)
      requires OnLine(Shown())
      modifies this`lines, this`row, this`col
      ensures OnLine(Shown()) && Shown() == Dispatch(old(Shown()), params, final)
    {
      if final == 'A' || final == 'B' || final == 'C' || final == 'D' || final == 'G' {
        var step := if params != [] then params[0] else 1;
        MoveCursor(if step != 0 then step else 1, final, params);
      } else if final == 'H' || final == 'f' {
        PlaceCursor(params);
      } else if final == 'K' {
        EraseLine(if params != [] then params[0] else 0);
      } else if final == 'J' {
        EraseScreen(if params != [] then params[0] else 0);
      }
    }

    method MoveCursor(step: nat, final: char, ghost params: seq<nat>)
      requires OnLine(Shown()) && step == StepOf(params)
      requires final == 'A' || final == 'B' || final == 'C' || final == 'D' || final == 'G'
      modifies this`lines, this`row, this`col
      ensures Shown() == Dispatch(old(Shown()), params, final)
    {
      if final == 'A' {
        row := if row >= step then row - step else 0;
        ClampColumn();
      } else if final == 'B' {
        ExtendTo(row + step);
        row := row + step;
        ClampColumn();
      } else if final == 'C' {
        col := col + step;
      } else if final == 'D' {
        col := if col >= step then col - step else 0;
      } else {
        col := step - 1;
      }
    }

    method PlaceCursor(params: seq<nat>)
      requires OnLine(Shown())
      modifies this`lines, this`row, this`col
      ensures Shown() == Dispatch(old(Shown()), params, 'H')
    {
      var first: int, second: int := if params != [] then params[0] else 1, if |params| > 1 then params[1] else 1;
      var r, k := first - 1, second - 1;
      ExtendTo(if r > 0 then r else 0);
      row := if r > 0 then r else 0;
      col := if k > 0 then k else 0;
    }

    method EraseLine(mode: nat)
      requires OnLine(Shown())
      modifies this`lines, this`col
      ensures Shown() == EraseInLine(old(Shown()), mode)
    {
      var line := lines[row];
      if mode == 0 {
        lines := lines[row := Take(line, col)];
      } else if mode == 1 {
        lines := lines[row := Blanks(col) + Drop(line, col)];
      } else if mode == 2 {
        lines := lines[row := ""];
        col := 0;
      }
    }

    method EraseScreen(mode: nat)
      requires OnLine(Shown())
      modifies this`lines, this`row, this`col
      ensures Shown() == EraseDisplay(old(Shown()), mode)
    {
      if mode == 0 {
        lines := lines[row := Take(lines[row], col)];
        ghost var cut := lines;
        assert cut == SetLine(old(Shown()), Take(old(lines)[row], col)).lines;
        var n := row + 1;
        while n < |lines|
          invariant row == old(row) && col == old(col) && row < n <= |lines| == |cut|
          invariant forall i :: 0 <= i < |cut| ==> lines[i] == if row < i < n then "" else cut[i]
        {
          lines := lines[n := ""];
          n := n + 1;
        }
        assert lines == ClearBelow(cut, row);
      } else if mode == 2 {
        lines, row, col := [""], 0, 0;
      }
    }

    method EndLine()
      requires OnLine(Shown())
      modifies this`lines, this`row, this`col
      ensures Shown() == Newline(old(Shown()))
    {
      row := row + 1;
      ExtendTo(row);
      col := 0;
    }

    method WriteChar(c: char)
      requires OnLine(Shown())
      modifies this`lines, this`col
      ensures Shown() == PtyScreen.WriteChar(old(Shown()), c)
    {
      var line := lines[row];
      if col >= |line| {
        line := line + Blanks(col - |line|) + [c];
      } else {
        line := line[..col] + [c] + line[col + 1..];
      }
      lines := lines[row := line];
      col := col + 1;
    }

    method ExtendTo(target: nat)
      modifies this`lines
      ensures lines == EnsureRow(old(lines), target)
    {
      while |lines| <= target
        invariant old(lines) <= lines && (|lines| == |old(lines)| || |lines| <= target + 1)
        invariant forall i :: |old(lines)| <= i < |lines| ==> lines[i] == ""
      {
        lines := lines + [""];
      }
      assert lines == EnsureRow(old(lines), target);
    }

    method ClampColumn()
      requires OnLine(Shown())
      modifies this`col
      ensures Shown() == ClampCol(old(Shown()))
    {
      col := if col <= |lines[row]| then col else |lines[row]|;
    }

    method Snapshot() returns (text: string)
      requires Valid()
      ensures text == PtyScreen.Snapshot(Shown())
    {
      var end := row;
      while end + 1 < |lines| && lines[end + 1] != ""
        invariant row <= end < |lines| && LastShown(lines, end) == LastShown(lines, row)
      {
        end := end + 1;
      }
      text := Join(lines[..end + 1]);
    }
  }

  /** Render raw output in one go. */
  method RenderPtyOutput(letter: char -> bool, raw: string) returns (text: string)
    ensures text == PtyScreen.Snapshot(PtyScreen.Feed(letter, EMPTY, raw).screen)
  {
    var buffer := new PtyDisplayBuffer(letter);
    buffer.Feed(raw);
    text := buffer.Snapshot();
  }

  /** A display replaced by its own snapshot, as tool progress does, shows the same snapshot. */
  method ReplaceBySnapshot(buffer: PtyDisplayBuffer) returns (display: PtyDisplayBuffer, text: string)
    requires buffer.Valid()
    ensures fresh(display) && display.Valid() && display.pending == ""
    ensures text == PtyScreen.Snapshot(buffer.Shown()) == PtyScreen.Snapshot(display.Shown())
  {
    var shown := buffer.Snapshot();
    display := new PtyDisplayBuffer(buffer.letter);
    display.Feed(shown);
    RenderStable(buffer.letter, buffer.Shown());
    text := display.Snapshot();
  }
}
