/** Chunk boundaries do not matter, rendering is idempotent, and what each sequence does to the grid. */
module PtyTheorems {
  import opened Basics
  import opened PtyScreen

  // ---------------------------------------------------------------- prefix stability

  lemma {:induction false} OscStable(d: string, e: string)
    requires OscLength(d).Some?
    ensures OscLength(d + e) == OscLength(d)
    decreases |d|
  {
    assert (d + e)[1..] == d[1..] + e;
    if d[0] != BEL && !(d[0] == ESC && |d| > 1 && d[1] == '\\') {
      OscStable(d[1..], e);
    }
  }

  lemma {:induction false} CsiStable(letter: char -> bool, d: string, e: string)
    requires CsiEnd(letter, d).Some?
    ensures CsiEnd(letter, d + e) == CsiEnd(letter, d)
    decreases |d|
  {
    assert (d + e)[1..] == d[1..] + e;
    if !CsiFinal(letter, d[0]) {
      CsiStable(letter, d[1..], e);
    }
  }

  /** A complete escape sequence is the same sequence whatever follows it. */
  lemma EscapeStable(letter: char -> bool, d: string, e: string)
    requires d != "" && d[0] == ESC && EscapeLength(letter, d) > 0
    ensures EscapeLength(letter, d + e) == EscapeLength(letter, d)
    ensures (d + e)[..EscapeLength(letter, d)] == d[..EscapeLength(letter, d)]
    ensures (d + e)[EscapeLength(letter, d)..] == d[EscapeLength(letter, d)..] + e
  {
    assert (d + e)[2..] == d[2..] + e;
    if d[1] == ']' {
      OscStable(d[2..], e);
    } else if d[1] == '[' {
      CsiStable(letter, d[2..], e);
    }
  }

  lemma CsiApplies(s: Screen, d: string, n: nat)
    requires OnLine(s) && 3 <= n <= |d| && d[1] == '['
    ensures ApplyEscape(s, d[..n]) == Dispatch(s, ParseParams(d[2..n - 1]), d[n - 1])
  {
    assert d[..n][2..n - 1] == d[2..n - 1];
  }

  /** How much of the output the next step takes: nothing of an incomplete escape sequence. */
  function StepLength(letter: char -> bool, d: string): (n: nat)
    requires d != ""
    ensures n <= |d|
  {
    if d[0] == ESC then EscapeLength(letter, d) else 1
  }

  function StepScreen(letter: char -> bool, s: Screen, d: string): (r: Screen)
    requires d != "" && OnLine(s)
    ensures OnLine(r)
  {
    var n := StepLength(letter, d);
    if n == 0 then s else if d[0] == ESC then ApplyEscape(s, d[..n]) else ApplyChar(s, d[0])
  }

  /** One step of a run over `data` that ends at `goal`; `stops` has the screen at each index it stops at. */
  ghost predicate StepsOn(letter: char -> bool, data: string, stops: map<nat, Screen>, goal: Buffer, k: nat)
    requires k in stops
  {
    && k <= |data| && OnLine(stops[k])
    && if k == |data| then goal == Buffer(stops[k], "")
       else
         var d := data[k..];
         var n := StepLength(letter, d);
         if n == 0 then goal == Buffer(stops[k], d)
         else k + n in stops && stops[k + n] == StepScreen(letter, stops[k], d)
  }

  ghost predicate Stops(letter: char -> bool, data: string, stops: map<nat, Screen>, goal: Buffer) {
    forall k {:trigger StepsOn(letter, data, stops, goal, k)} :: k in stops ==> StepsOn(letter, data, stops, goal, k)
  }

  lemma StopsMore(letter: char -> bool, data: string, stops: map<nat, Screen>, goal: Buffer, index: nat, s: Screen)
    requires Stops(letter, data, stops, goal) && (forall k :: k in stops ==> index < k)
    requires StepsOn(letter, data, stops[index := s], goal, index)
    ensures Stops(letter, data, stops[index := s], goal)
  {
    var more := stops[index := s];
    forall k | k in more
      ensures StepsOn(letter, data, more, goal, k)
    {
      if k != index {
        assert StepsOn(letter, data, stops, goal, k);
      }
    }
  }

  /** One more stop before the others. */
  lemma StopBefore(letter: char -> bool, data: string, stops: map<nat, Screen>, goal: Buffer,
                   index: nat, s: Screen, next: nat)
    requires Stops(letter, data, stops, goal) && (forall k :: k in stops ==> index < k)
    requires OnLine(s) && index < |data|
    requires next == index + StepLength(letter, data[index..])
    requires if next == index then goal == Buffer(s, data[index..])
             else next in stops && stops[next] == StepScreen(letter, s, data[index..])
    ensures Stops(letter, data, stops[index := s], goal)
  {
    assert next > index ==> stops[index := s][next] == stops[next];
    StopsMore(letter, data, stops, goal, index, s);
  }

  lemma StopAtEnd(letter: char -> bool, data: string, s: Screen)
    requires OnLine(s)
    ensures Stops(letter, data, map[|data| := s], Buffer(s, ""))
  {
  }

  /** Where a run from `index` on stops, and how it ends. */
  lemma {:induction false} StopsOf(letter: char -> bool, s: Screen, data: string, index: nat)
      returns (stops: map<nat, Screen>, goal: Buffer)
    requires OnLine(s) && index <= |data|
    ensures index in stops && stops[index] == s && (forall k :: k in stops ==> index <= k)
    ensures Stops(letter, data, stops, goal)
    decreases |data| - index
  {
    if index == |data| {
      stops, goal := map[index := s], Buffer(s, "");
      StopAtEnd(letter, data, s);
    } else {
      var next := index + StepLength(letter, data[index..]);
      stops, goal := map[], Buffer(s, data[index..]);
      if next > index {
        stops, goal := StopsOf(letter, StepScreen(letter, s, data[index..]), data, next);
      }
      StopBefore(letter, data, stops, goal, index, s, next);
      stops := stops[index := s];
    }
  }

  lemma RunEnds(letter: char -> bool, s: Screen, data: string, goal: Buffer)
    requires OnLine(s) && goal == Buffer(s, "")
    ensures Run(letter, s, data[|data|..]) == goal
  {
  }

  lemma RunHeld(letter: char -> bool, s: Screen, data: string, k: nat, goal: Buffer)
    requires OnLine(s) && k < |data| && StepLength(letter, data[k..]) == 0 && goal == Buffer(s, data[k..])
    ensures Run(letter, s, data[k..]) == goal
  {
  }

  lemma RunOn(letter: char -> bool, s: Screen, d: string, rest: string, r: Screen)
    requires OnLine(s) && d != "" && StepLength(letter, d) > 0
    requires rest == d[StepLength(letter, d)..] && r == StepScreen(letter, s, d)
    ensures Run(letter, s, d) == Run(letter, r, rest)
  {
  }

  lemma DropTwice(data: string, k: nat, next: nat)
    requires k <= next <= |data|
    ensures data[k..][next - k..] == data[next..]
  {
  }

  /** From any of the stops the run ends at the goal. */
  lemma {:induction false} StopsEnd(letter: char -> bool, data: string, stops: map<nat, Screen>, goal: Buffer,
                                    k: nat, s: Screen)
    requires Stops(letter, data, stops, goal) && k in stops && s == stops[k]
    ensures k <= |data| && OnLine(s) && Run(letter, s, data[k..]) == goal
    decreases |data| - k
  {
    assert StepsOn(letter, data, stops, goal, k);
    if k == |data| {
      RunEnds(letter, s, data, goal);
    } else {
      var d := data[k..];
      var next := k + StepLength(letter, d);
      if next == k {
        RunHeld(letter, s, data, k, goal);
      } else {
        var rest, r := data[next..], stops[next];
        DropTwice(data, k, next);
        RunOn(letter, s, d, rest, r);
        StopsEnd(letter, data, stops, goal, next, r);
      }
    }
  }

  // ---------------------------------------------------------------- chunk independence

  /** What is left pending is the start of one escape sequence that is not complete. */
  predicate Stuck(letter: char -> bool, pending: string) {
    pending == "" || (pending[0] == ESC && EscapeLength(letter, pending) == 0)
  }

  lemma {:induction false} RunSplits(letter: char -> bool, s: Screen, d: string, e: string)
    requires OnLine(s)
    ensures var first := Run(letter, s, d);
            && Stuck(letter, first.pending)
            && Run(letter, s, d + e) == Run(letter, first.screen, first.pending + e)
    decreases |d|
  {
    if d == "" {
      assert d + e == "" + e == e;
    } else if d[0] == ESC {
      var n := EscapeLength(letter, d);
      if n > 0 {
        EscapeStable(letter, d, e);
        RunSplits(letter, ApplyEscape(s, d[..n]), d[n..], e);
      }
    } else {
      assert (d + e)[1..] == d[1..] + e;
      RunSplits(letter, ApplyChar(s, d[0]), d[1..], e);
    }
  }

  /** From any buffer, feeding `a` then `c` leaves the same buffer as feeding `a + c`. */
  lemma ChunkIndependence(letter: char -> bool, b: Buffer, a: string, c: string)
    requires OnLine(b.screen)
    ensures Feed(letter, Feed(letter, b, a), c) == Feed(letter, b, a + c)
  {
    if a == "" {
      assert a + c == c;
    } else if c == "" {
      assert a + c == a;
    } else {
      RunSplits(letter, b.screen, b.pending + a, c);
      Regroup(b.pending, a, c);
    }
  }

  function Concat(chunks: seq<string>): string {
    if chunks == [] then "" else chunks[0] + Concat(chunks[1..])
  }

  function FeedAll(letter: char -> bool, b: Buffer, chunks: seq<string>): (r: Buffer)
    requires OnLine(b.screen)
    ensures OnLine(r.screen)
    decreases |chunks|
  {
    if chunks == [] then b else FeedAll(letter, Feed(letter, b, chunks[0]), chunks[1..])
  }

  /** However output is cut into chunks, the buffer ends up the same. */
  lemma {:induction false} AnyChunking(letter: char -> bool, b: Buffer, chunks: seq<string>)
    requires OnLine(b.screen)
    ensures FeedAll(letter, b, chunks) == Feed(letter, b, Concat(chunks))
    decreases |chunks|
  {
    if chunks == [] {
    } else {
      AnyChunking(letter, Feed(letter, b, chunks[0]), chunks[1..]);
      ChunkIndependence(letter, b, chunks[0], Concat(chunks[1..]));
    }
  }

  /** An incomplete escape sequence changes nothing but what is pending. */
  lemma IncompleteHasNoEffect(letter: char -> bool, s: Screen, d: string)
    requires OnLine(s) && d != "" && d[0] == ESC && EscapeLength(letter, d) == 0
    ensures Run(letter, s, d) == Buffer(s, d)
  {
  }

  /**
   An escape sequence cut off after any text is held back whole: the screen is the one the text alone
   leaves, and nothing of the sequence is shown or lost until more arrives.
   */
  lemma HeldBack(letter: char -> bool, b: Buffer, text: string, d: string)
    requires OnLine(b.screen) && Feed(letter, b, text).pending == ""
    requires d != "" && d[0] == ESC && EscapeLength(letter, d) == 0
    ensures Feed(letter, b, text + d) == Buffer(Feed(letter, b, text).screen, d)
  {
    ChunkIndependence(letter, b, text, d);
    IncompleteHasNoEffect(letter, Feed(letter, b, text).screen, d);
    assert "" + d == d;
  }

  // ---------------------------------------------------------------- stored lines are clean

  ghost predicate CleanLine(line: string) {
    forall i :: 0 <= i < |line| ==> Printable(line[i])
  }

  ghost predicate Clean(s: Screen) {
    OnLine(s) && forall i {:trigger s.lines[i]} :: 0 <= i < |s.lines| ==> CleanLine(s.lines[i])
  }

  lemma ApplyCharClean(s: Screen, c: char)
    requires Clean(s)
    ensures Clean(ApplyChar(s, c))
  {
  }

  lemma DispatchClean(s: Screen, params: seq<nat>, final: char)
    requires Clean(s)
    ensures Clean(Dispatch(s, params, final))
  {
  }

  lemma {:induction false} RunClean(letter: char -> bool, s: Screen, d: string)
    requires Clean(s)
    ensures Clean(Run(letter, s, d).screen)
    decreases |d|
  {
    if d == "" {
    } else if d[0] == ESC {
      var n := EscapeLength(letter, d);
      if n > 0 {
        var esc := d[..n];
        if esc[1] == '[' && |esc| >= 3 {
          DispatchClean(s, ParseParams(esc[2..|esc| - 1]), esc[|esc| - 1]);
        }
        RunClean(letter, ApplyEscape(s, esc), d[n..]);
      }
    } else {
      ApplyCharClean(s, d[0]);
      RunClean(letter, ApplyChar(s, d[0]), d[1..]);
    }
  }

  lemma RunFacts(letter: char -> bool, s: Screen, d: string) returns (goal: Buffer)
    requires Clean(s)
    ensures goal == Run(letter, s, d) && Clean(goal.screen) && Stuck(letter, goal.pending)
  {
    goal := Run(letter, s, d);
    RunClean(letter, s, d);
    RunSplits(letter, s, d, "");
  }

  /** No C0 control character and no DEL is ever stored, whatever is fed. */
  lemma {:induction false} FedIsClean(letter: char -> bool, chunks: seq<string>)
    ensures var b := FeedAll(letter, EMPTY, chunks); Clean(b.screen) && Stuck(letter, b.pending)
  {
    AnyChunking(letter, EMPTY, chunks);
    assert CleanLine("");
    RunClean(letter, FRESH, "" + Concat(chunks));
    RunSplits(letter, FRESH, "" + Concat(chunks), "");
  }

  // ---------------------------------------------------------------- rendering is idempotent

  /** Typing printable text at the end of the last line appends it. */
  lemma {:induction false} TypeText(letter: char -> bool, before: seq<string>, line: string, text: string, rest: string)
    requires CleanLine(text)
    ensures Run(letter, Screen(before + [line], |before|, |line|), text + rest)
         == Run(letter, Screen(before + [line + text], |before|, |line + text|), rest)
    decreases |text|
  {
    if text == "" {
      assert text + rest == rest && line + text == line;
    } else {
      var s := Screen(before + [line], |before|, |line|);
      assert (text + rest)[1..] == text[1..] + rest;
      assert Printable(text[0]);
      assert PutInLine(line, |line|, text[0]) == line + [text[0]];
      assert ApplyChar(s, text[0]) == Screen(before + [line + [text[0]]], |before|, |line| + 1);
      assert line + [text[0]] + text[1..] == line + text;
      TypeText(letter, before, line + [text[0]], text[1..], rest);
    }
  }

  /** Typing lines separated by newlines below what is there stores exactly these lines. */
  lemma {:induction false} TypeLines(letter: char -> bool, before: seq<string>, lines: seq<string>)
    requires lines != [] && forall i {:trigger lines[i]} :: 0 <= i < |lines| ==> CleanLine(lines[i])
    ensures Run(letter, Screen(before + [""], |before|, 0), Join(lines))
         == Buffer(Screen(before + lines, |before| + |lines| - 1, |lines[|lines| - 1]|), "")
    decreases |lines|
  {
    assert CleanLine(lines[0]);
    if |lines| == 1 {
      TypeLast(letter, before, lines[0]);
      assert lines == [lines[0]];
    } else {
      TypeFirst(letter, before, lines[0], Join(lines[1..]));
      TypeLines(letter, before + [lines[0]], lines[1..]);
      EndOfLines(before, lines);
      JoinFirst(lines);
    }
  }

  lemma TypeLast(letter: char -> bool, before: seq<string>, line: string)
    requires CleanLine(line)
    ensures Run(letter, Screen(before + [""], |before|, 0), line)
         == Buffer(Screen(before + [line], |before|, |line|), "")
  {
    assert "" + line == line && line + "" == line;
    TypeText(letter, before, "", line, "");
  }

  lemma JoinFirst(lines: seq<string>)
    requires |lines| > 1
    ensures Join(lines) == lines[0] + ("\n" + Join(lines[1..]))
  {
  }

  lemma EndOfLines(before: seq<string>, lines: seq<string>)
    requires |lines| > 1
    ensures (before + [lines[0]]) + lines[1..] == before + lines
    ensures |before + [lines[0]]| + |lines[1..]| - 1 == |before| + |lines| - 1
    ensures lines[1..][|lines[1..]| - 1] == lines[|lines| - 1]
  {
  }

  lemma TypeFirst(letter: char -> bool, before: seq<string>, line: string, rest: string)
    requires CleanLine(line)
    ensures Run(letter, Screen(before + [""], |before|, 0), line + ("\n" + rest))
         == Run(letter, Screen((before + [line]) + [""], |before| + 1, 0), rest)
  {
    assert "" + line == line;
    TypeText(letter, before, "", line, "\n" + rest);
    TypeNewline(letter, before, line, rest);
  }

  lemma TypeNewline(letter: char -> bool, before: seq<string>, line: string, rest: string)
    ensures Run(letter, Screen(before + [line], |before|, |line|), "\n" + rest)
         == Run(letter, Screen((before + [line]) + [""], |before| + 1, 0), rest)
  {
    assert ("\n" + rest)[0] == '\n' && ("\n" + rest)[1..] == rest;
    assert (before + [line]) + [""] == EnsureRow(before + [line], |before| + 1);
  }

  lemma TypeFresh(letter: char -> bool, lines: seq<string>)
    requires lines != [] && forall i {:trigger lines[i]} :: 0 <= i < |lines| ==> CleanLine(lines[i])
    ensures Feed(letter, EMPTY, Join(lines)) == Buffer(Screen(lines, |lines| - 1, |lines[|lines| - 1]|), "")
  {
    assert [] + [""] == [""] && [] + lines == lines && "" + Join(lines) == Join(lines);
    TypeLines(letter, [], lines);
  }

  /** What rendering a snapshot in a fresh buffer leaves: the shown lines, cursor at the end. */
  lemma RenderSnapshot(letter: char -> bool, s: Screen)
    requires Clean(s)
    ensures var shown := s.lines[..LastShown(s.lines, s.row) + 1];
            Feed(letter, EMPTY, Snapshot(s)) == Buffer(Screen(shown, |shown| - 1, |shown[|shown| - 1]|), "")
  {
    var shown := s.lines[..LastShown(s.lines, s.row) + 1];
    forall i | 0 <= i < |shown| ensures CleanLine(shown[i]) { assert shown[i] == s.lines[i]; }
    TypeFresh(letter, shown);
    assert Snapshot(s) == Join(shown);
  }

  lemma RenderStable(letter: char -> bool, s: Screen)
    requires Clean(s)
    ensures Snapshot(Feed(letter, EMPTY, Snapshot(s)).screen) == Snapshot(s)
    ensures Feed(letter, EMPTY, Snapshot(s)).pending == ""
  {
    RenderSnapshot(letter, s);
    var shown := s.lines[..LastShown(s.lines, s.row) + 1];
    assert LastShown(shown, |shown| - 1) == |shown| - 1;
    assert shown[..|shown|] == shown;
  }

  /** Whatever was fed, rendering the snapshot in a fresh buffer gives that same snapshot. */
  lemma RenderIdempotent(letter: char -> bool, chunks: seq<string>)
    ensures var s := FeedAll(letter, EMPTY, chunks).screen;
            Snapshot(Feed(letter, EMPTY, Snapshot(s)).screen) == Snapshot(s)
  {
    FedIsClean(letter, chunks);
    RenderStable(letter, FeedAll(letter, EMPTY, chunks).screen);
  }

  // ---------------------------------------------------------------- the screen as a grid of cells

  /** The character shown at a position; beyond the stored text there are blanks. */
  function Cell(s: Screen, row: nat, col: nat): char {
    if row < |s.lines| && col < |s.lines[row]| then s.lines[row][col] else ' '
  }

  lemma WriteCell(s: Screen, c: char, row: nat, col: nat)
    requires OnLine(s)
    ensures var r := WriteChar(s, c);
            && Cell(r, row, col) == (if row == s.row && col == s.col then c else Cell(s, row, col))
            && r.row == s.row && r.col == s.col + 1
  {
  }

  lemma NewlineCell(s: Screen, row: nat, col: nat)
    ensures Cell(Newline(s), row, col) == Cell(s, row, col)
  {
  }

  /** Which cells an erase sequence blanks. */
  predicate Erased(s: Screen, final: char, mode: nat, row: nat, col: nat) {
    if final == 'K' then
      row == s.row && (mode == 2 || (mode == 0 && col >= s.col) || (mode == 1 && col < s.col))
    else
      final == 'J' && (mode == 2 || (mode == 0 && (row > s.row || (row == s.row && col >= s.col))))
  }

  /** Control sequences blank exactly the cells they erase and leave every other cell alone. */
  lemma DispatchCell(s: Screen, params: seq<nat>, final: char, row: nat, col: nat)
    requires OnLine(s)
    ensures Cell(Dispatch(s, params, final), row, col) ==
              if Erased(s, final, ParamOr(params, 0, 0), row, col) then ' ' else Cell(s, row, col)
  {
    if final == 'K' {
      EraseInLineCell(s, ParamOr(params, 0, 0), row, col);
    } else if final == 'J' {
      EraseDisplayCell(s, ParamOr(params, 0, 0), row, col);
    }
  }

  lemma EraseInLineCell(s: Screen, mode: nat, row: nat, col: nat)
    requires OnLine(s)
    ensures Cell(EraseInLine(s, mode), row, col) == if Erased(s, 'K', mode, row, col) then ' ' else Cell(s, row, col)
  {
  }

  /** Where the cursor is afterwards and how long the line: mode 1 pads a short one, mode 2 moves the cursor. */
  lemma EraseInLineShape(s: Screen, mode: nat)
    requires OnLine(s)
    ensures var r := EraseInLine(s, mode); var was, now := |s.lines[s.row]|, |r.lines[s.row]|;
            && r.row == s.row && |r.lines| == |s.lines| && r.col == (if mode == 2 then 0 else s.col)
            && (mode == 0 ==> now == if was < s.col then was else s.col)
            && (mode == 1 ==> now == if was < s.col then s.col else was)
            && (mode == 2 ==> now == 0)
            && (mode > 2 ==> now == was)
    ensures forall k {:trigger s.lines[k]} :: 0 <= k < |s.lines| && k != s.row ==>
              EraseInLine(s, mode).lines[k] == s.lines[k]
  {
  }

  lemma EraseDisplayCell(s: Screen, mode: nat, row: nat, col: nat)
    requires OnLine(s)
    ensures Cell(EraseDisplay(s, mode), row, col) == if Erased(s, 'J', mode, row, col) then ' ' else Cell(s, row, col)
  {
  }
}
