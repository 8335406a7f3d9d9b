/**
 The terminal screen of runtime/pty_display.py as a value, and what a stretch of output does to it.
 Control sequences follow section 5.4 of ECMA-48; cursor and erase functions its sections 8.3.21
 (CUP), 8.3.39 (ED) and 8.3.41 (EL), with the clamping of the code.  Which characters are letters
 is left to the parameter `letter`.
 */
module PtyScreen {
  import opened Basics

  const ESC := '\U{1B}'
  const BEL := '\U{07}'
  const DEL := '\U{7F}'
  const BACKSPACE := '\U{08}'
  const TAB_WIDTH: nat := 8

  datatype Screen = Screen(lines: seq<string>, row: nat, col: nat)

  const FRESH := Screen([""], 0, 0)

  /** The cursor is on an existing line. */
  predicate OnLine(s: Screen) {
    s.row < |s.lines|
  }

  // ---------------------------------------------------------------- lines

  function Take(line: string, n: nat): string {
    if n <= |line| then line[..n] else line
  }

  function Drop(line: string, n: nat): string {
    if n <= |line| then line[n..] else ""
  }

  function Blanks(n: nat): (b: string)
    ensures |b| == n && forall i :: 0 <= i < n ==> b[i] == ' '
  {
    if n == 0 then "" else Blanks(n - 1) + [' ']
  }

  function EmptyLines(n: nat): (lines: seq<string>)
    ensures |lines| == n && forall i :: 0 <= i < n ==> lines[i] == ""
  {
    if n == 0 then [] else EmptyLines(n - 1) + [""]
  }

  function EnsureRow(lines: seq<string>, row: nat): (r: seq<string>)
    ensures row < |r| && lines <= r
  {
    if row < |lines| then lines else lines + EmptyLines(row + 1 - |lines|)
  }

  function PutInLine(line: string, col: nat, c: char): string {
    if col >= |line| then line + Blanks(col - |line|) + [c]
    else line[..col] + [c] + line[col + 1..]
  }

  function SetLine(s: Screen, line: string): Screen
    requires OnLine(s)
  {
    s.(lines := s.lines[s.row := line])
  }

  // ---------------------------------------------------------------- single characters

  function WriteChar(s: Screen, c: char): (r: Screen)
    requires OnLine(s)
    ensures OnLine(r)
  {
    SetLine(s, PutInLine(s.lines[s.row], s.col, c)).(col := s.col + 1)
  }

  function Newline(s: Screen): (r: Screen)
    ensures OnLine(r)
  {
    Screen(EnsureRow(s.lines, s.row + 1), s.row + 1, 0)
  }

  predicate Printable(c: char) {
    c >= ' ' && c != DEL
  }

  function ApplyChar(s: Screen, c: char): (r: Screen)
    requires OnLine(s)
    ensures OnLine(r)
  {
    if c == '\r' then s.(col := 0)
    else if c == '\n' then Newline(s)
    else if c == BACKSPACE then s.(col := if s.col > 0 then s.col - 1 else 0)
    else if c == '\t' then s.(col := s.col + TAB_WIDTH - s.col % TAB_WIDTH)
    else if !Printable(c) then s
    else WriteChar(s, c)
  }

  // ---------------------------------------------------------------- escape sequences

  /** Length of an operating system command up to and including its terminator. */
  function OscLength(d: string): (n: Option<nat>)
    ensures n.Some? ==> 0 < n.value <= |d|
  {
    if d == "" then None
    else if d[0] == BEL then Some(1)
    else if d[0] == ESC && |d| > 1 && d[1] == '\\' then Some(2)
    else match OscLength(d[1..])
      case None => None
      case Some(n) => Some(n + 1)
  }

  predicate CsiFinal(letter: char -> bool, c: char) {
    letter(c) || c == '@' || c == '`' || c == '~'
  }

  /** Position of the final character of a control sequence. */
  function CsiEnd(letter: char -> bool, d: string): (n: Option<nat>)
    ensures n.Some? ==> n.value < |d|
  {
    if d == "" then None
    else if CsiFinal(letter, d[0]) then Some(0)
    else match CsiEnd(letter, d[1..])
      case None => None
      case Some(n) => Some(n + 1)
  }

  /** How much of `d`, which starts with ESC, is one complete escape sequence; 0 if it is not complete. */
  function EscapeLength(letter: char -> bool, d: string): (n: nat)
    requires d != "" && d[0] == ESC
    ensures n <= |d| && n != 1
  {
    if |d| < 2 then 0
    else if d[1] == ']' then
      match OscLength(d[2..]) case None => 0 case Some(n) => n + 2
    else if d[1] == '[' then
      match CsiEnd(letter, d[2..]) case None => 0 case Some(n) => n + 3
    else 2
  }

  function Split(body: string): (parts: seq<string>)
    ensures parts != []
  {
    if body == "" then [""]
    else if body[0] == ';' then [""] + Split(body[1..])
    else var rest := Split(body[1..]); [[body[0]] + rest[0]] + rest[1..]
  }

  predicate IsDigit(c: char) {
    '0' <= c <= '9'
  }

  predicate AllDigits(part: string) {
    forall i :: 0 <= i < |part| ==> IsDigit(part[i])
  }

  function Decimal(part: string): nat
    requires AllDigits(part)
  {
    if part == "" then 0
    else 10 * Decimal(part[..|part| - 1]) + (part[|part| - 1] as int - '0' as int)
  }

  function ParamOf(part: string): nat {
    if part == "" || !AllDigits(part) then 0 else Decimal(part)
  }

  function ParamsOf(parts: seq<string>): seq<nat> {
    if parts == [] then [] else ParamsOf(Front(parts)) + [ParamOf(Last(parts))]
  }

  function ParseParams(body: string): seq<nat> {
    if body == "" then [] else ParamsOf(Split(body))
  }

  function ParamOr(params: seq<nat>, i: nat, default: nat): nat {
    if i < |params| then params[i] else default
  }

  /** The distance of a cursor move: a missing or zero parameter means one. */
  function StepOf(params: seq<nat>): nat {
    if ParamOr(params, 0, 1) == 0 then 1 else ParamOr(params, 0, 1)
  }

  function Minus(a: nat, b: nat): nat {
    if a >= b then a - b else 0
  }

  function ClampCol(s: Screen): Screen
    requires OnLine(s)
  {
    s.(col := if s.col <= |s.lines[s.row]| then s.col else |s.lines[s.row]|)
  }

  function EraseInLine(s: Screen, mode: nat): (r: Screen)
    requires OnLine(s)
    ensures OnLine(r)
  {
    var line := s.lines[s.row];
    if mode == 0 then SetLine(s, Take(line, s.col))
    else if mode == 1 then SetLine(s, Blanks(s.col) + Drop(line, s.col))
    else if mode == 2 then SetLine(s, "").(col := 0)
    else s
  }

  function ClearBelow(lines: seq<string>, row: nat): (r: seq<string>)
    requires row < |lines|
    ensures |r| == |lines|
  {
    lines[..row + 1] + EmptyLines(|lines| - row - 1)
  }

  function EraseDisplay(s: Screen, mode: nat): (r: Screen)
    requires OnLine(s)
    ensures OnLine(r)
  {
    if mode == 0 then
      var cut := SetLine(s, Take(s.lines[s.row], s.col));
      cut.(lines := ClearBelow(cut.lines, s.row))
    else if mode == 2 then FRESH
    else s
  }

  /** The effect of a control sequence with parameters `params` and final character `final`. */
  function Dispatch(s: Screen, params: seq<nat>, final: char): (r: Screen)
    requires OnLine(s)
    ensures OnLine(r)
  {
    if final == 'A' then ClampCol(s.(row := Minus(s.row, StepOf(params))))
    else if final == 'B' then
      var row := s.row + StepOf(params);
      ClampCol(Screen(EnsureRow(s.lines, row), row, s.col))
    else if final == 'C' then s.(col := s.col + StepOf(params))
    else if final == 'D' then s.(col := Minus(s.col, StepOf(params)))
    else if final == 'G' then s.(col := StepOf(params) - 1)
    else if final == 'H' || final == 'f' then
      var row := Minus(ParamOr(params, 0, 1), 1);
      Screen(EnsureRow(s.lines, row), row, Minus(ParamOr(params, 1, 1), 1))
    else if final == 'K' then EraseInLine(s, ParamOr(params, 0, 0))
    else if final == 'J' then EraseDisplay(s, ParamOr(params, 0, 0))
    else s
  }

  /** The effect of one complete escape sequence: only control sequences have one. */
  function ApplyEscape(s: Screen, esc: string): (r: Screen)
    requires OnLine(s) && |esc| >= 2
    ensures OnLine(r)
  {
    if esc[1] == '[' && |esc| >= 3 then Dispatch(s, ParseParams(esc[2..|esc| - 1]), esc[|esc| - 1]) else s
  }

  // ---------------------------------------------------------------- output

  /** A screen and the start of an escape sequence that is not complete yet. */
  datatype Buffer = Buffer(screen: Screen, pending: string)

  const EMPTY := Buffer(FRESH, "")

  function Run(letter: char -> bool, s: Screen, d: string): (b: Buffer)
    requires OnLine(s)
    ensures OnLine(b.screen)
    decreases |d|
  {
    if d == "" then Buffer(s, "")
    else if d[0] == ESC then
      var n := EscapeLength(letter, d);
      if n == 0 then Buffer(s, d) else Run(letter, ApplyEscape(s, d[..n]), d[n..])
    else Run(letter, ApplyChar(s, d[0]), d[1..])
  }

  function Feed(letter: char -> bool, b: Buffer, chunk: string): (r: Buffer)
    requires OnLine(b.screen)
    ensures OnLine(r.screen)
  {
    if chunk == "" then b else Run(letter, b.screen, b.pending + chunk)
  }

  function Join(lines: seq<string>): string
    requires lines != []
  {
    if |lines| == 1 then lines[0] else lines[0] + "\n" + Join(lines[1..])
  }

  /** The last line shown: from the cursor line on, up to the first empty line. */
  function LastShown(lines: seq<string>, row: nat): (end: nat)
    requires row < |lines|
    ensures row <= end < |lines|
    decreases |lines| - row
  {
    if row + 1 < |lines| && lines[row + 1] != "" then LastShown(lines, row + 1) else row
  }

  function Snapshot(s: Screen): string
    requires OnLine(s)
  {
    Join(s.lines[..LastShown(s.lines, s.row) + 1])
  }
}
