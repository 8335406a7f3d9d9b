/** Where the cursor goes and how many lines there are, for every character and control sequence. */
module PtyCursor {
  import opened Basics
  import opened PtyScreen
  import opened PtyTheorems
  import StreamModel

  function Max(a: nat, b: nat): nat { if a < b then b else a }

  function Min(a: nat, b: nat): nat { if a < b then a else b }

  /** `more` is `lines` made long enough to hold `count`, with empty lines at the end. */
  ghost predicate Extended(lines: seq<string>, more: seq<string>, count: nat) {
    && |more| == Max(|lines|, count) && more[..|lines|] == lines
    && forall k {:trigger more[k]} :: |lines| <= k < |more| ==> more[k] == ""
  }

  lemma EnsureExtends(lines: seq<string>, row: nat)
    ensures Extended(lines, EnsureRow(lines, row), row + 1)
  {
  }

  // ---------------------------------------------------------------- single characters

  lemma CharExact(s: Screen, c: char)
    requires OnLine(s)
    ensures var r := ApplyChar(s, c);
            && (c == '\r' ==> r == Screen(s.lines, s.row, 0))
            && (c == '\n' ==> r.row == s.row + 1 && r.col == 0 && Extended(s.lines, r.lines, s.row + 2))
            && (c == '\U{08}' ==> r.lines == s.lines && r.row == s.row && (r.col + 1 == s.col || r.col == s.col == 0))
            && (c == '\t' ==> r.lines == s.lines && r.row == s.row && r.col % 8 == 0 && s.col < r.col <= s.col + 8)
            && ((c < ' ' && c != '\r' && c != '\n' && c != '\U{08}' && c != '\t') || c == '\U{7F}' ==> r == s)
            && (c >= ' ' && c != '\U{7F}' ==>
                  && r.row == s.row && r.col == s.col + 1 && |r.lines| == |s.lines|
                  && |r.lines[s.row]| == Max(|s.lines[s.row]|, s.col + 1) && r.lines[s.row][s.col] == c)
  {
    EnsureExtends(s.lines, s.row + 1);
  }

  // ---------------------------------------------------------------- control sequences

  /** The distance of a move: a parameter that is missing or zero counts as one. */
  function Distance(params: seq<nat>): nat {
    if params == [] then 1 else Max(params[0], 1)
  }

  /** A position counted from one; missing and zero are the first. */
  function Place(params: seq<nat>, i: nat): nat {
    if |params| <= i || params[i] == 0 then 0 else params[i] - 1
  }

  /** The cursor is kept within the text of its line. */
  lemma UpAndDown(s: Screen, params: seq<nat>)
    requires OnLine(s)
    ensures var r, n := Dispatch(s, params, 'A'), Distance(params);
            && r.lines == s.lines && r.row + Min(n, s.row) == s.row && r.col == Min(s.col, |s.lines[r.row]|)
    ensures var r, n := Dispatch(s, params, 'B'), Distance(params);
            && r.row == s.row + n && Extended(s.lines, r.lines, s.row + n + 1)
            && r.col == Min(s.col, |r.lines[r.row]|)
  {
    EnsureExtends(s.lines, s.row + Distance(params));
  }

  /** Moves along the line change nothing else; to the right there is no limit. */
  lemma LeftAndRight(s: Screen, params: seq<nat>)
    requires OnLine(s)
    ensures Dispatch(s, params, 'C') == s.(col := s.col + Distance(params))
    ensures var r := Dispatch(s, params, 'D');
            r == s.(col := r.col) && r.col + Min(Distance(params), s.col) == s.col
    ensures Dispatch(s, params, 'G') == s.(col := Place(params, 0))
  {
  }

  lemma Placed(s: Screen, params: seq<nat>, final: char)
    requires OnLine(s) && (final == 'H' || final == 'f')
    ensures var r := Dispatch(s, params, final);
            r.row == Place(params, 0) && r.col == Place(params, 1) && Extended(s.lines, r.lines, Place(params, 0) + 1)
  {
    EnsureExtends(s.lines, Place(params, 0));
  }

  /** Erasing in the display: what lies behind the cursor, everything with the cursor sent home, or nothing. */
  lemma DisplayErased(s: Screen, params: seq<nat>)
    requires OnLine(s)
    ensures var r, mode := Dispatch(s, params, 'J'), if params == [] then 0 else params[0];
            && (mode == 0 ==>
                  && r.row == s.row && r.col == s.col && |r.lines| == |s.lines|
                  && (forall k {:trigger r.lines[k]} :: 0 <= k < s.row ==> r.lines[k] == s.lines[k])
                  && r.lines[s.row] == s.lines[s.row][..Min(s.col, |s.lines[s.row]|)]
                  && (forall k {:trigger r.lines[k]} :: s.row < k < |s.lines| ==> r.lines[k] == ""))
            && (mode == 2 ==> r == Screen([""], 0, 0))
            && (mode != 0 && mode != 2 ==> r == s)
  {
  }

  lemma LineErased(s: Screen, params: seq<nat>)
    requires OnLine(s)
    ensures var r, mode := Dispatch(s, params, 'K'), if params == [] then 0 else params[0];
            var was, now := s.lines[s.row], r.lines[s.row];
            && r.lines == s.lines[s.row := now] && r.row == s.row && r.col == (if mode == 2 then 0 else s.col)
            && (mode == 0 ==> now == was[..Min(s.col, |was|)])
            && (mode == 1 ==>
                  && |now| == Max(|was|, s.col) && now[s.col..] == was[Min(s.col, |was|)..]
                  && forall k {:trigger now[k]} :: 0 <= k < s.col ==> now[k] == ' ')
            && (mode == 2 ==> now == "")
            && (mode > 2 ==> now == was)
  {
    EraseInLineShape(s, if params == [] then 0 else params[0]);
  }

  /** Every other final character is without effect. */
  lemma OthersIgnored(s: Screen, params: seq<nat>, final: char)
    requires OnLine(s) && final != 'A' && final != 'B' && final != 'C' && final != 'D' && final != 'G'
    requires final != 'H' && final != 'f' && final != 'J' && final != 'K'
    ensures Dispatch(s, params, final) == s
  {
  }

  // ---------------------------------------------------------------- which sequences there are

  /** An operating system command may end at `k`: with BEL, or with ESC and a backslash. */
  predicate OscStop(d: string, k: nat) {
    k < |d| && (d[k] == '\U{07}' || (d[k] == '\U{1B}' && k + 1 < |d| && d[k + 1] == '\\'))
  }

  lemma {:induction false} OscExact(d: string)
    ensures forall k: nat {:trigger OscStop(d, k)} :: OscStop(d, k) ==>
              OscLength(d).Some? && OscLength(d).value <= k + (if d[k] == '\U{07}' then 1 else 2)
    ensures OscLength(d).Some? ==>
              var n := OscLength(d).value;
              (n >= 1 && OscStop(d, n - 1) && d[n - 1] == '\U{07}')
              || (n >= 2 && OscStop(d, n - 2) && d[n - 2] == '\U{1B}')
  {
    if d != "" && OscLength(d[1..]).Some? {
      OscExact(d[1..]);
      OscLater(d, OscLength(d[1..]).value - 1);
      if OscLength(d[1..]).value >= 2 {
        OscLater(d, OscLength(d[1..]).value - 2);
      }
    }
    forall k: nat | OscStop(d, k)
      ensures OscLength(d).Some? && OscLength(d).value <= k + (if d[k] == '\U{07}' then 1 else 2)
    {
      if k > 0 {
        OscExact(d[1..]);
        OscLater(d, k - 1);
      }
    }
  }

  lemma OscLater(d: string, k: nat)
    requires d != ""
    ensures OscStop(d[1..], k) <==> OscStop(d, k + 1)
  {
  }

  /** The final character of a control sequence. */
  ghost predicate CsiStop(letter: char -> bool, d: string, k: nat) {
    k < |d| && (letter(d[k]) || d[k] == '@' || d[k] == '`' || d[k] == '~')
  }

  /** A control sequence ends at its first letter, `@`, back quote or tilde. */
  lemma {:induction false} CsiExact(letter: char -> bool, d: string)
    ensures forall k: nat {:trigger CsiStop(letter, d, k)} :: CsiStop(letter, d, k) ==>
              CsiEnd(letter, d).Some? && CsiEnd(letter, d).value <= k
    ensures CsiEnd(letter, d).Some? ==> CsiStop(letter, d, CsiEnd(letter, d).value)
  {
    if d != "" {
      CsiExact(letter, d[1..]);
    }
    forall k: nat | CsiStop(letter, d, k)
      ensures CsiEnd(letter, d).Some? && CsiEnd(letter, d).value <= k
    {
      if k > 0 {
        assert CsiStop(letter, d[1..], k - 1);
      }
    }
  }

  /** A sequence with no final character but the last one. */
  lemma {:induction false} CsiComplete(letter: char -> bool, body: string, final: char, rest: string)
    requires (forall c :: c in body ==> !CsiFinal(letter, c)) && CsiFinal(letter, final)
    ensures CsiEnd(letter, body + [final] + rest) == Some(|body|)
  {
    if body != "" {
      assert body[0] in body;
      assert (body + [final] + rest)[1..] == body[1..] + [final] + rest;
      CsiComplete(letter, body[1..], final, rest);
    } else {
      assert body + [final] + rest == [final] + rest;
    }
  }

  /** In a stretch of output: a whole control sequence has the effect of its final character, at its place. */
  lemma CsiRuns(letter: char -> bool, s: Screen, body: string, final: char, rest: string)
    requires OnLine(s) && (forall c :: c in body ==> !CsiFinal(letter, c)) && CsiFinal(letter, final)
    ensures Run(letter, s, "\U{1B}[" + body + [final] + rest)
         == Run(letter, Dispatch(s, ParseParams(body), final), rest)
  {
    var d := "\U{1B}[" + body + [final] + rest;
    assert d[2..] == body + [final] + rest;
    CsiComplete(letter, body, final, rest);
    CsiApplies(s, d, |body| + 3);
    assert d[2..|body| + 2] == body && d[|body| + 2] == final && d[|body| + 3..] == rest;
  }

  /** Without a final character it waits for the rest, and so does a lone ESC. */
  lemma CsiHeld(letter: char -> bool, s: Screen, body: string)
    requires OnLine(s) && forall c :: c in body ==> !CsiFinal(letter, c)
    ensures Run(letter, s, "\U{1B}[" + body) == Buffer(s, "\U{1B}[" + body)
    ensures Run(letter, s, "\U{1B}") == Buffer(s, "\U{1B}")
  {
    var d := "\U{1B}[" + body;
    assert d[2..] == body;
    CsiExact(letter, body);
    if CsiEnd(letter, body).Some? {
      assert CsiStop(letter, body, CsiEnd(letter, body).value) && body[CsiEnd(letter, body).value] in body;
    }
  }

  /** ESC and a character other than `[` and `]` are passed over; so is a whole operating system command. */
  lemma OtherEscapesRun(letter: char -> bool, s: Screen, c: char, rest: string)
    requires OnLine(s) && c != '['
    ensures c != ']' ==> Run(letter, s, "\U{1B}" + [c] + rest) == Run(letter, s, rest)
    ensures c == ']' && OscLength(rest).Some? ==>
              Run(letter, s, "\U{1B}" + [c] + rest) == Run(letter, s, rest[OscLength(rest).value..])
    ensures c == ']' && OscLength(rest).None? ==> Run(letter, s, "\U{1B}" + [c] + rest) == Buffer(s, "\U{1B}]" + rest)
  {
    var d := "\U{1B}" + [c] + rest;
    assert d[2..] == rest && (c == ']' ==> d == "\U{1B}]" + rest);
    if c == ']' && OscLength(rest).Some? {
      assert d[OscLength(rest).value + 2..] == rest[OscLength(rest).value..];
    }
  }

  lemma CharRuns(letter: char -> bool, s: Screen, c: char, rest: string)
    requires OnLine(s) && c != ESC
    ensures Run(letter, s, [c] + rest) == Run(letter, ApplyChar(s, c), rest)
  {
    assert ([c] + rest)[1..] == rest;
  }

  // ---------------------------------------------------------------- parameters

  function Joined(fields: seq<string>): string
    requires fields != []
  {
    if |fields| == 1 then fields[0] else fields[0] + ";" + Joined(fields[1..])
  }

  lemma {:induction false} SplitField(field: string, rest: string)
    requires ';' !in field
    ensures Split(field) == [field] && Split(field + ";" + rest) == [field] + Split(rest)
  {
    if field == "" {
      assert (field + ";" + rest)[1..] == rest;
    } else {
      SplitField(field[1..], rest);
      assert (field + ";" + rest)[1..] == field[1..] + ";" + rest;
      assert [field[0]] + field[1..] == field;
    }
  }

  lemma {:induction false} SplitJoined(fields: seq<string>)
    requires fields != [] && forall field :: field in fields ==> ';' !in field
    ensures Split(Joined(fields)) == fields
  {
    if |fields| == 1 {
      SplitField(fields[0], "");
    } else {
      SplitField(fields[0], Joined(fields[1..]));
      SplitJoined(fields[1..]);
    }
  }

  lemma {:induction false} ParamsByField(fields: seq<string>)
    ensures |ParamsOf(fields)| == |fields|
    ensures forall k {:trigger fields[k]} :: 0 <= k < |fields| ==> ParamsOf(fields)[k] == ParamOf(fields[k])
  {
    if fields != [] {
      ParamsByField(Front(fields));
    }
  }

  lemma {:induction false} PrintedValue(n: nat)
    ensures AllDigits(StreamModel.Digits(n)) && Decimal(StreamModel.Digits(n)) == n
  {
    var text := StreamModel.Digits(n);
    if n >= 10 {
      PrintedValue(n / 10);
      assert text[..|text| - 1] == StreamModel.Digits(n / 10);
    } else {
      assert text[..0] == "" && Decimal("") == 0;
    }
  }

  /**
   Parameters are the fields between semicolons, by position: a printed number counts as that number, an
   empty field and one with anything but digits in it as 0.  Without any text there are none.
   */
  lemma ParamsExact(fields: seq<string>)
    requires fields != [] && forall field :: field in fields ==> ';' !in field
    ensures ParseParams("") == []
    ensures Joined(fields) != "" ==> |ParseParams(Joined(fields))| == |fields|
    ensures forall k, n: nat {:trigger fields[k], StreamModel.Digits(n)} ::
              0 <= k < |fields| && fields[k] == StreamModel.Digits(n) ==> ParseParams(Joined(fields))[k] == n
    ensures forall k {:trigger fields[k]} ::
              0 <= k < |fields| && Joined(fields) != ""
              && (fields[k] == "" || exists c :: c in fields[k] && !IsDigit(c)) ==>
                ParseParams(Joined(fields))[k] == 0
  {
    SplitJoined(fields);
    ParamsByField(fields);
    forall k, n: nat | 0 <= k < |fields| && fields[k] == StreamModel.Digits(n)
      ensures Joined(fields) != "" && ParamOf(fields[k]) == n
    {
      PrintedValue(n);
    }
  }

  // ---------------------------------------------------------------- what is shown

  /** The lines shown end at the cursor's line or further down, just before the first empty one. */
  lemma {:induction false} LastShownExact(lines: seq<string>, row: nat)
    requires row < |lines|
    ensures var end := LastShown(lines, row);
            && row <= end < |lines| && (forall k {:trigger lines[k]} :: row < k <= end ==> lines[k] != "")
            && (end + 1 == |lines| || lines[end + 1] == "")
    decreases |lines| - row
  {
    if row + 1 < |lines| && lines[row + 1] != "" {
      LastShownExact(lines, row + 1);
    }
  }

  /** A snapshot is its lines with one newline character between them and none at the end. */
  lemma {:induction false} JoinExact(lines: seq<string>)
    requires lines != []
    ensures |lines| == 1 ==> Join(lines) == lines[0]
    ensures |lines| > 1 ==> Join(lines) == Join(Front(lines)) + ['\n'] + Last(lines)
  {
    if |lines| > 2 {
      JoinExact(lines[1..]);
      assert Front(lines)[1..] == Front(lines[1..]) && Last(lines[1..]) == Last(lines);
      var first, middle, last := lines[0], Join(Front(lines[1..])), Last(lines);
      assert Join(Front(lines)) == first + "\n" + middle;
      assert first + "\n" + (middle + ['\n'] + last) == first + "\n" + middle + ['\n'] + last;
    } else if |lines| == 2 {
      assert Join(lines) == lines[0] + "\n" + lines[1];
    }
  }

  lemma TypeAt(letter: char -> bool, line: string, col: nat, c: char, rest: string, after: string)
    requires Printable(c) && after == PutInLine(line, col, c)
    ensures Run(letter, Screen([line], 0, col), [c] + rest) == Run(letter, Screen([after], 0, col + 1), rest)
  {
    CharRuns(letter, Screen([line], 0, col), c, rest);
    assert ApplyChar(Screen([line], 0, col), c).lines == [after];
  }

  lemma RightRuns(letter: char -> bool, rest: string)
    requires letter('C') && !letter('2')
    ensures Run(letter, Screen(["ab"], 0, 2), "\U{1B}[2C" + rest) == Run(letter, Screen(["ab"], 0, 4), rest)
  {
    var ab := Screen(["ab"], 0, 2);
    assert "\U{1B}[2C" == "\U{1B}[" + "2" + "C";
    CsiRuns(letter, ab, "2", 'C', rest);
    assert StreamModel.Digits(2) == "2" && Joined(["2"]) == "2";
    ParamsExact(["2"]);
    LeftAndRight(ab, ParseParams("2"));
  }

  lemma TypeAb(letter: char -> bool, rest: string)
    ensures Run(letter, FRESH, "ab" + rest) == Run(letter, Screen(["ab"], 0, 2), rest)
  {
    assert [] + [""] == [""] && [] + ["ab"] == ["ab"] && "" + "ab" == "ab";
    TypeText(letter, [], "", "ab", rest);
  }

  lemma TypeC(letter: char -> bool)
    ensures Run(letter, Screen(["ab"], 0, 4), "c") == Buffer(Screen(["ab  c"], 0, 5), "")
  {
    assert Blanks(2) == "  ";
    TypeAt(letter, "ab", 4, 'c', "", "ab  c");
    assert "c" + "" == "c";
  }

  /** Two to the right leave two blanks: the line reads "ab  c" and the cursor is behind it. */
  lemma MovedRight(letter: char -> bool)
    requires letter('C') && !letter('2')
    ensures Feed(letter, EMPTY, "ab\U{1B}[2Cc") == Buffer(Screen(["ab  c"], 0, 5), "")
  {
    var data := "ab\U{1B}[2Cc";
    assert "" + data == data && data == "ab" + ("\U{1B}[2C" + "c");
    TypeAb(letter, "\U{1B}[2C" + "c");
    RightRuns(letter, "c");
    TypeC(letter);
  }
}
