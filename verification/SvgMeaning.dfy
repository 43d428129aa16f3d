/**
 What the SVG interpreter means: well-formed command lists are executed as written, when relative commands
 can be rewritten as absolute ones, and curves stay within their control points.
 */
module SvgMeaning {
  import opened Wrappers
  import opened Basics
  import opened PathGeometry
  import opened SvgParser

  datatype Command = Command(letter: Letter, args: seq<real>)

  predicate WellFormed(cmds: seq<Command>) {
    forall i :: 0 <= i < |cmds| ==> |cmds[i].args| == Arity(cmds[i].letter.verb)
  }

  function PerformAll(cmds: seq<Command>, k: real, s: State): State
    requires WellFormed(cmds)
    decreases |cmds|
  {
    if cmds == [] then s
    else
      assert forall i :: 0 <= i < |cmds[1..]| ==> cmds[1..][i] == cmds[i + 1];
      PerformAll(cmds[1..], k, Perform(cmds[0].letter, cmds[0].args, k, s))
  }

  // ---------------------------------------------------------------- written down and read back

  function Name(l: Letter): string {
    match l.verb
    case Move => if l.relative then "m" else "M"
    case Line => if l.relative then "l" else "L"
    case Horizontal => if l.relative then "h" else "H"
    case Vertical => if l.relative then "v" else "V"
    case Cubic => if l.relative then "c" else "C"
    case Quad => if l.relative then "q" else "Q"
    case Close => if l.relative then "z" else "Z"
  }

  function Texts(args: seq<real>, text: real -> string): (r: seq<string>)
    ensures |r| == |args|
  {
    if args == [] then [] else [text(args[0])] + Texts(args[1..], text)
  }

  function Words(cmds: seq<Command>, text: real -> string): seq<string> {
    if cmds == [] then [] else [Name(cmds[0].letter)] + Texts(cmds[0].args, text) + Words(cmds[1..], text)
  }

  /** `text` writes these numbers with digits, signs and points that `num` reads back. */
  predicate WritesArgs(args: seq<real>, text: real -> string, num: Numbers) {
    forall i :: 0 <= i < |args| ==> num(text(args[i])) == Some(args[i]) && Token(text(args[i]))
  }

  predicate Writes(cmds: seq<Command>, text: real -> string, num: Numbers) {
    forall i :: 0 <= i < |cmds| ==> WritesArgs(cmds[i].args, text, num)
  }

  lemma {:induction false} ReadsArgs(args: seq<real>, text: real -> string, num: Numbers, rest: seq<string>)
    requires WritesArgs(args, text, num)
    ensures Args(Texts(args, text) + rest, |args|, num) == Some(args)
  {
    if args != [] {
      hide Texts, Token;
      TextsSplit(args, text, rest);
      assert num(text(args[0])) == Some(args[0]);
      ReadsArgs(args[1..], text, num, rest);
      assert args == [args[0]] + args[1..];
    }
  }

  lemma {:induction false} TextsSplit(args: seq<real>, text: real -> string, rest: seq<string>)
    requires args != []
    ensures var tokens := Texts(args, text) + rest;
      tokens != [] && tokens[0] == text(args[0]) && tokens[1..] == Texts(args[1..], text) + rest
  {
  }

  /** `z` and `Z` are one command. */
  function Plain(l: Letter): Letter {
    if l.verb.Close? then Letter(Close, false) else l
  }

  lemma ReadsName(l: Letter)
    ensures LetterOf(Name(l)) == Some(Plain(l))
    ensures Token(Name(l))
  {
  }

  lemma PlainPerforms(l: Letter, a: seq<real>, k: real, s: State)
    requires |a| == Arity(l.verb)
    ensures Perform(Plain(l), a, k, s) == Perform(l, a, k, s)
  {
  }

  /** The token interpreter executes a well-formed command list command by command. */
  lemma {:induction false} InterpretsCommands(cmds: seq<Command>, text: real -> string, num: Numbers, k: real, s: State)
    requires WellFormed(cmds) && Writes(cmds, text, num)
    ensures Interpret(Words(cmds, text), k, num, s) == PerformAll(cmds, k, s)
    decreases |cmds|
  {
    hide Perform, LetterOf, Name;
    if cmds != [] {
      var c, rest := cmds[0], Words(cmds[1..], text);
      var tokens := Words(cmds, text);
      assert forall i :: 0 <= i < |cmds[1..]| ==> cmds[1..][i] == cmds[i + 1];
      assert tokens[0] == Name(c.letter) && tokens[1..] == Texts(c.args, text) + rest;
      ReadsName(c.letter);
      assert WritesArgs(c.args, text, num);
      ReadsArgs(c.args, text, num, rest);
      PlainPerforms(c.letter, c.args, k, s);
      assert tokens[1 + |c.args|..] == rest;
      assert Handle(tokens[0], tokens[1..], k, num, s) == (|c.args|, Perform(c.letter, c.args, k, s));
      InterpretsCommands(cmds[1..], text, num, k, Perform(c.letter, c.args, k, s));
    }
  }

  lemma {:induction false} WordsAreTokens(cmds: seq<Command>, text: real -> string, num: Numbers)
    requires Writes(cmds, text, num)
    ensures AllTokens(Words(cmds, text))
  {
    if cmds != [] {
      ReadsName(cmds[0].letter);
      assert WritesArgs(cmds[0].args, text, num);
      TextsAreTokens(cmds[0].args, text, num);
      WordsAreTokens(cmds[1..], text, num);
    }
  }

  lemma {:induction false} TextsAreTokens(args: seq<real>, text: real -> string, num: Numbers)
    requires WritesArgs(args, text, num)
    ensures AllTokens(Texts(args, text))
  {
    if args != [] {
      TextsAreTokens(args[1..], text, num);
      assert Token(text(args[0]));
    }
  }

  /** A path string written from commands is drawn as those commands say. */
  lemma DrawsCommands(cmds: seq<Command>, text: real -> string, num: Numbers, k: real)
    requires WellFormed(cmds) && Writes(cmds, text, num)
    ensures Interpret(TokensFrom(Spaced(Words(cmds, text)), ""), k, num, START) == PerformAll(cmds, k, START)
  {
    WordsAreTokens(cmds, text, num);
    TokenRoundTrip(Words(cmds, text));
    InterpretsCommands(cmds, text, num, k, START);
  }

  // ---------------------------------------------------------------- relative to absolute

  /** Where SVG says the pen is: current point, start of the subpath, whether anything was drawn, and
      whether the subpath began with a lower-case `m` after something was drawn. */
  datatype Cursor = Cursor(at: Pen, start: Pen, drawn: bool, late: bool)

  const HOME: Cursor := Cursor(ORIGIN, ORIGIN, false, false)

  /** The end point of a command, in its own units. */
  function EndOf(c: Command, at: Pen): Pen
    requires |c.args| == Arity(c.letter.verb) && !c.letter.verb.Close?
  {
    if c.letter.verb.Horizontal? then Pen(c.args[0] + if c.letter.relative then at.x else 0.0, at.y)
    else if c.letter.verb.Vertical? then Pen(at.x, c.args[0] + if c.letter.relative then at.y else 0.0)
    else Plus(Pen(c.args[|c.args| - 2], c.args[|c.args| - 1]), at, c.letter.relative)
  }

  function Advance(c: Command, r: Cursor): Cursor
    requires |c.args| == Arity(c.letter.verb)
  {
    if c.letter.verb.Close? then r.(at := r.start, drawn := true)
    else
      var p := EndOf(c, r.at);
      if c.letter.verb.Move? then Cursor(p, p, true, c.letter.relative && r.drawn) else r.(at := p, drawn := true)
  }

  function AdvanceAll(cmds: seq<Command>, r: Cursor): Cursor
    requires WellFormed(cmds)
    decreases |cmds|
  {
    if cmds == [] then r
    else
      assert forall i :: 0 <= i < |cmds[1..]| ==> cmds[1..][i] == cmds[i + 1];
      AdvanceAll(cmds[1..], Advance(cmds[0], r))
  }

  /** The absolute form of a command at the current point. */
  function Absolute(c: Command, at: Pen): (r: Command)
    requires |c.args| == Arity(c.letter.verb)
    ensures |r.args| == |c.args| && r.letter == Letter(c.letter.verb, false)
  {
    var a := c.args;
    Command(Letter(c.letter.verb, false),
      if !c.letter.relative then a
      else match c.letter.verb
        case Move => [a[0] + at.x, a[1] + at.y]
        case Line => [a[0] + at.x, a[1] + at.y]
        case Horizontal => [a[0] + at.x]
        case Vertical => [a[0] + at.y]
        case Cubic => [a[0] + at.x, a[1] + at.y, a[2] + at.x, a[3] + at.y, a[4] + at.x, a[5] + at.y]
        case Quad => [a[0] + at.x, a[1] + at.y, a[2] + at.x, a[3] + at.y]
        case Close => a)
  }

  function AbsoluteAll(cmds: seq<Command>, r: Cursor): (out: seq<Command>)
    requires WellFormed(cmds)
    ensures WellFormed(out) && |out| == |cmds|
    ensures forall i :: 0 <= i < |out| ==> !out[i].letter.relative
    decreases |cmds|
  {
    if cmds == [] then []
    else
      assert forall i :: 0 <= i < |cmds[1..]| ==> cmds[1..][i] == cmds[i + 1];
      [Absolute(cmds[0], r.at)] + AbsoluteAll(cmds[1..], Advance(cmds[0], r))
  }

  /** No `Z` closes a subpath that a late lower-case `m` began away from the origin. */
  predicate ClosesWell(cmds: seq<Command>, k: real, r: Cursor)
    requires WellFormed(cmds)
    decreases |cmds|
  {
    cmds == []
    || (assert forall i :: 0 <= i < |cmds[1..]| ==> cmds[1..][i] == cmds[i + 1];
        (cmds[0].letter.verb.Close? && r.late ==> Scaled(r.start, k) == ORIGIN)
        && ClosesWell(cmds[1..], k, Advance(cmds[0], r)))
  }

  /** No lower-case `l` is executed away from the origin. */
  predicate LinesFromOrigin(cmds: seq<Command>, k: real, r: Cursor)
    requires WellFormed(cmds)
    decreases |cmds|
  {
    cmds == []
    || (assert forall i :: 0 <= i < |cmds[1..]| ==> cmds[1..][i] == cmds[i + 1];
        (cmds[0].letter == Letter(Line, true) ==> Scaled(r.at, k) == ORIGIN)
        && LinesFromOrigin(cmds[1..], k, Advance(cmds[0], r)))
  }

  /** Here the interpreter does what SVG says: a close does not return from a late move to somewhere else
      than its start, and a relative line starts at the origin. */
  predicate AsPrescribed(c: Command, k: real, r: Cursor) {
    (c.letter.verb.Close? && r.late ==> Scaled(r.start, k) == ORIGIN)
    && (c.letter == Letter(Line, true) ==> Scaled(r.at, k) == ORIGIN)
  }

  /** The interpreter on the commands and on their absolute forms, side by side with SVG's cursor. */
  predicate Sync(s: State, t: State, r: Cursor, k: real) {
    s.path == t.path && s.at == t.at == Scaled(r.at, k) && t.first == Scaled(r.start, k)
    && s.first == (if r.late then ORIGIN else Scaled(r.start, k)) && r.drawn == (s.path != [])
  }

  /** Scaling after moving is moving after scaling. */
  lemma ScaledPlus(p: Pen, at: Pen, k: real)
    ensures Scaled(Plus(p, at, true), k) == Plus(Scaled(p, k), Scaled(at, k), true)
    ensures (p.x + at.x) * k == p.x * k + at.x * k && (p.y + at.y) * k == p.y * k + at.y * k
  {
  }

  /** The points that a command contributes are the same in both forms. */
  lemma SamePoints(c: Command, at: Pen, k: real, i: nat)
    requires |c.args| == Arity(c.letter.verb) && c.letter.relative && 2 * i + 1 < |c.args|
    requires !c.letter.verb.Horizontal? && !c.letter.verb.Vertical?
    ensures var (a, b) := (c.args, Absolute(c, at).args);
      Scaled(Pen(b[2 * i], b[2 * i + 1]), k) == Plus(Scaled(Pen(a[2 * i], a[2 * i + 1]), k), Scaled(at, k), true)
  {
    var (a, b) := (c.args, Absolute(c, at).args);
    ScaledPlus(Pen(a[2 * i], a[2 * i + 1]), at, k);
    assert i == 0 || i == 1 || i == 2;
    assert Pen(b[2 * i], b[2 * i + 1]) == Plus(Pen(a[2 * i], a[2 * i + 1]), at, true);
  }

  /** The pen positions of a command with points: its end is the last pair of numbers. */
  lemma StepSync(c: Command, k: real, s: State, t: State, r: Cursor)
    requires |c.args| == Arity(c.letter.verb) && Sync(s, t, r, k)
    requires AsPrescribed(c, k, r)
    ensures Sync(Perform(c.letter, c.args, k, s), Perform(Absolute(c, r.at).letter, Absolute(c, r.at).args, k, t),
                 Advance(c, r), k)
  {
    if c.letter.verb.Close? {
    } else if c.letter.verb.Horizontal? || c.letter.verb.Vertical? {
      AxisSync(c, k, s, t, r);
    } else if c.letter.verb.Cubic? || c.letter.verb.Quad? {
      CurveSync(c, k, s, t, r);
    } else {
      PointSync(c, k, s, t, r);
    }
  }

  lemma AxisSync(c: Command, k: real, s: State, t: State, r: Cursor)
    requires |c.args| == Arity(c.letter.verb) && Sync(s, t, r, k) && (c.letter.verb.Horizontal? || c.letter.verb.Vertical?)
    ensures Sync(Perform(c.letter, c.args, k, s), Perform(Absolute(c, r.at).letter, Absolute(c, r.at).args, k, t),
                 Advance(c, r), k)
  {
    AxisPoint(c, k, s, t, r);
    hide Scaled, EndOf;
  }

  lemma AxisPoint(c: Command, k: real, s: State, t: State, r: Cursor)
    requires |c.args| == Arity(c.letter.verb) && (c.letter.verb.Horizontal? || c.letter.verb.Vertical?)
    requires s.at == t.at == Scaled(r.at, k)
    ensures Perform(c.letter, c.args, k, s).at == Scaled(EndOf(c, r.at), k)
    ensures Perform(Letter(c.letter.verb, false), Absolute(c, r.at).args, k, t).at == Scaled(EndOf(c, r.at), k)
  {
    ScaledPlus(Pen(c.args[0], c.args[0]), r.at, k);
  }

  lemma PointSync(c: Command, k: real, s: State, t: State, r: Cursor)
    requires |c.args| == Arity(c.letter.verb) && Sync(s, t, r, k) && (c.letter.verb.Move? || c.letter.verb.Line?)
    requires AsPrescribed(c, k, r)
    ensures Sync(Perform(c.letter, c.args, k, s), Perform(Absolute(c, r.at).letter, Absolute(c, r.at).args, k, t),
                 Advance(c, r), k)
  {
    ScaledPlus(Pen(c.args[0], c.args[1]), r.at, k);
    if c.letter.relative { SamePoints(c, r.at, k, 0); }
    hide Scaled;
  }

  /** The last flattened point of a curve is exactly its end point. */
  lemma EndsAtEnd(p0: Pen, p1: Pen, p2: Pen, p3: Pen)
    ensures Flattened(p0, p1, p2, p3, SEGMENTS)[SEGMENTS - 1] == p3
  {
    assert SEGMENTS as real / SEGMENTS as real == 1.0;
    assert B0(1.0) == 0.0 && B1(1.0) == 0.0 && B2(1.0) == 0.0 && B3(1.0) == 1.0;
    assert CurvePoint(1.0, p0, p1, p2, p3) == p3;
  }

  lemma CurveSync(c: Command, k: real, s: State, t: State, r: Cursor)
    requires |c.args| == Arity(c.letter.verb) && Sync(s, t, r, k) && (c.letter.verb.Cubic? || c.letter.verb.Quad?)
    ensures Sync(Perform(c.letter, c.args, k, s), Perform(Absolute(c, r.at).letter, Absolute(c, r.at).args, k, t),
                 Advance(c, r), k)
  {
    var a, b := c.args, Absolute(c, r.at).args;
    var l := c.letter.relative;
    var n := |a| / 2 - 1;
    var q1, q2, q3 := Plus(Scaled(Pen(a[0], a[1]), k), s.at, l), Plus(Scaled(Pen(a[2 * n - 2], a[2 * n - 1]), k), s.at, l),
                      Plus(Scaled(Pen(a[2 * n], a[2 * n + 1]), k), s.at, l);
    if l {
      SamePoints(c, r.at, k, 0);
      SamePoints(c, r.at, k, n - 1);
      SamePoints(c, r.at, k, n);
    }
    assert q1 == Scaled(Pen(b[0], b[1]), k) && q2 == Scaled(Pen(b[2 * n - 2], b[2 * n - 1]), k)
        && q3 == Scaled(Pen(b[2 * n], b[2 * n + 1]), k);
    ScaledPlus(Pen(a[2 * n], a[2 * n + 1]), r.at, k);
    assert q3 == Scaled(EndOf(c, r.at), k);
    EndsAtEnd(s.at, q1, q2, q3);
    hide Flattened, Scaled;
    assert Perform(c.letter, a, k, s) == Drawn(s, q1, q2, q3);
    assert Perform(Letter(c.letter.verb, false), b, k, t) == Drawn(t, q1, q2, q3);
  }

  lemma {:induction false} PathGrows(cmds: seq<Command>, k: real, s: State)
    requires WellFormed(cmds)
    ensures |s.path| <= |PerformAll(cmds, k, s).path| && PerformAll(cmds, k, s).path[..|s.path|] == s.path
    decreases |cmds|
  {
    if cmds != [] {
      var s1 := Perform(cmds[0].letter, cmds[0].args, k, s);
      assert forall i :: 0 <= i < |cmds[1..]| ==> cmds[1..][i] == cmds[i + 1];
      StepGrows(cmds[0], k, s);
      PathGrows(cmds[1..], k, s1);
      var full := PerformAll(cmds, k, s).path;
      assert full[..|s.path|] == full[..|s1.path|][..|s.path|];
    }
  }

  lemma StepGrows(c: Command, k: real, s: State)
    requires |c.args| == Arity(c.letter.verb)
    ensures s.path < Perform(c.letter, c.args, k, s).path
  {
  }

  lemma {:induction false} KeepsSync(cmds: seq<Command>, k: real, s: State, t: State, r: Cursor)
    requires WellFormed(cmds) && Sync(s, t, r, k)
    ensures ClosesWell(cmds, k, r) && LinesFromOrigin(cmds, k, r) ==>
      Sync(PerformAll(cmds, k, s), PerformAll(AbsoluteAll(cmds, r), k, t), AdvanceAll(cmds, r), k)
    ensures !(ClosesWell(cmds, k, r) && LinesFromOrigin(cmds, k, r)) ==>
      PerformAll(cmds, k, s).path != PerformAll(AbsoluteAll(cmds, r), k, t).path
    decreases |cmds|
  {
    hide Perform, Absolute, Sync;
    if cmds != [] {
      var c, d, rest := cmds[0], Absolute(cmds[0], r.at), cmds[1..];
      assert forall i :: 0 <= i < |rest| ==> rest[i] == cmds[i + 1];
      var s1, t1 := Perform(c.letter, c.args, k, s), Perform(d.letter, d.args, k, t);
      var after := AbsoluteAll(rest, Advance(c, r));
      assert AbsoluteAll(cmds, r)[0] == d && AbsoluteAll(cmds, r)[1..] == after;
      if !AsPrescribed(c, k, r) {
        StepDiffers(c, k, s, t, r);
        PathGrows(rest, k, s1);
        PathGrows(after, k, t1);
      } else {
        StepSync(c, k, s, t, r);
        KeepsSync(rest, k, s1, t1, Advance(c, r));
      }
    }
  }

  lemma StepDiffers(c: Command, k: real, s: State, t: State, r: Cursor)
    requires |c.args| == Arity(c.letter.verb) && Sync(s, t, r, k) && !AsPrescribed(c, k, r)
    ensures var (s1, t1) := (Perform(c.letter, c.args, k, s), Perform(Absolute(c, r.at).letter, Absolute(c, r.at).args, k, t));
      |s1.path| == |t1.path| && s1.path != t1.path
  {
    var (s1, t1) := (Perform(c.letter, c.args, k, s), Perform(Absolute(c, r.at).letter, Absolute(c, r.at).args, k, t));
    var i := |s.path|;
    if c.letter.verb.Close? {
      assert s1.path[i] == ORIGIN && t1.path[i] == Scaled(r.start, k);
    } else {
      SamePoints(c, r.at, k, 0);
      assert s1.path[i] == Scaled(Pen(c.args[0], c.args[1]), k);
      assert t1.path[i] == Plus(s1.path[i], Scaled(r.at, k), true);
    }
  }

  /** Rewriting every relative command as its absolute form leaves the polyline unchanged at a scale exactly
      when no `Z` closes a subpath that a late lower-case `m` began away from the origin and no lower-case `l`
      is executed away from the origin. */
  lemma RelativeToAbsolute(cmds: seq<Command>, k: real)
    requires WellFormed(cmds)
    ensures PerformAll(AbsoluteAll(cmds, HOME), k, START).path == PerformAll(cmds, k, START).path
      <==> ClosesWell(cmds, k, HOME) && LinesFromOrigin(cmds, k, HOME)
  {
    assert Sync(START, START, HOME, k);
    KeepsSync(cmds, k, START, START, HOME);
  }

  /** Lower-case `m` occurs only while the path is still empty. */
  predicate EarlyMoves(cmds: seq<Command>) {
    forall i :: 0 < i < |cmds| ==> !(cmds[i].letter == Letter(Move, true))
  }

  lemma {:induction false} EarlyClosesWell(cmds: seq<Command>, k: real, r: Cursor)
    requires WellFormed(cmds) && !r.late && EarlyMoves(cmds)
    requires cmds != [] && cmds[0].letter == Letter(Move, true) ==> !r.drawn
    ensures ClosesWell(cmds, k, r)
    decreases |cmds|
  {
    if cmds != [] {
      var rest := cmds[1..];
      assert forall i :: 0 <= i < |rest| ==> rest[i] == cmds[i + 1];
      EarlyClosesWell(rest, k, Advance(cmds[0], r));
    }
  }

  /** With lower-case `m` only at the start, the rewriting is safe at a scale exactly when no lower-case `l` is
      executed away from the origin; then the current point after the commands is the one SVG prescribes, scaled. */
  lemma EarlyMovesSafe(cmds: seq<Command>, k: real)
    requires WellFormed(cmds) && EarlyMoves(cmds)
    ensures PerformAll(AbsoluteAll(cmds, HOME), k, START).path == PerformAll(cmds, k, START).path
      <==> LinesFromOrigin(cmds, k, HOME)
    ensures LinesFromOrigin(cmds, k, HOME) ==> PerformAll(cmds, k, START).at == Scaled(AdvanceAll(cmds, HOME).at, k)
  {
    EarlyClosesWell(cmds, k, HOME);
    assert Sync(START, START, HOME, k);
    KeepsSync(cmds, k, START, START, HOME);
  }

  lemma LastCommand(c: Command, k: real, s: State, r: Cursor)
    requires |c.args| == Arity(c.letter.verb)
    ensures PerformAll([c], k, s) == Perform(c.letter, c.args, k, s) && AdvanceAll([c], r) == Advance(c, r)
    ensures LinesFromOrigin([c], k, r) <==> (c.letter == Letter(Line, true) ==> Scaled(r.at, k) == ORIGIN)
  {
    assert [c][0] == c && [c][1..] == [];
  }

  /** A list of two commands, step by step. */
  lemma TwoCommands(a: Command, b: Command, k: real, s: State, r: Cursor)
    requires |a.args| == Arity(a.letter.verb) && |b.args| == Arity(b.letter.verb)
    ensures PerformAll([a, b], k, s) == Perform(b.letter, b.args, k, Perform(a.letter, a.args, k, s))
    ensures AdvanceAll([a, b], r) == Advance(b, Advance(a, r))
    ensures LinesFromOrigin([a, b], k, r) ==> (b.letter == Letter(Line, true) ==> Scaled(Advance(a, r).at, k) == ORIGIN)
  {
    hide Perform, Advance;
    var cmds := [a, b];
    assert cmds[0] == a && cmds[1] == b && cmds[1..] == [b];
    LastCommand(b, k, Perform(a.letter, a.args, k, s), Advance(a, r));
  }

  /** "M 10 0 l 5 5": the line goes to (5, 5), while SVG prescribes (15, 5). */
  lemma LowerLineIsAbsolute() returns (cmds: seq<Command>)
    ensures WellFormed(cmds) && EarlyMoves(cmds) && !LinesFromOrigin(cmds, 1.0, HOME)
    ensures PerformAll(cmds, 1.0, START).path == [Pen(10.0, 0.0), Pen(5.0, 5.0)]
    ensures AdvanceAll(cmds, HOME).at == Pen(15.0, 5.0)
  {
    var a, b := Command(Letter(Move, false), [10.0, 0.0]), Command(Letter(Line, true), [5.0, 5.0]);
    cmds := [a, b];
    TwoCommands(a, b, 1.0, START, HOME);
    assert Advance(a, HOME).at == Pen(10.0, 0.0) && Scaled(Pen(10.0, 0.0), 1.0) != ORIGIN;
    var s1 := Perform(a.letter, a.args, 1.0, START);
    assert s1.path == [Pen(10.0, 0.0)];
    assert Perform(b.letter, b.args, 1.0, s1).path == s1.path + [Pen(5.0, 5.0)];
  }

  /** "M 0 0 m 1 1 z": the close goes to the origin instead of (1, 1). */
  lemma LateMoveCloses() returns (cmds: seq<Command>)
    ensures WellFormed(cmds) && |cmds| == 3 && !ClosesWell(cmds, 1.0, HOME)
    ensures PerformAll(cmds, 1.0, START).at == ORIGIN && AdvanceAll(cmds, HOME).at == Pen(1.0, 1.0)
  {
    var a, b, c := Command(Letter(Move, false), [0.0, 0.0]), Command(Letter(Move, true), [1.0, 1.0]), Command(Letter(Close, true), []);
    cmds := [a, b, c];
    var r1, s1 := Advance(a, HOME), Perform(a.letter, a.args, 1.0, START);
    var r2, s2 := Advance(b, r1), Perform(b.letter, b.args, 1.0, s1);
    assert r2 == Cursor(Pen(1.0, 1.0), Pen(1.0, 1.0), true, true);
    assert Scaled(r2.start, 1.0) == Pen(1.0, 1.0);
    assert s2.first == ORIGIN;
    assert Perform(c.letter, c.args, 1.0, s2).at == ORIGIN && Advance(c, r2).at == Pen(1.0, 1.0);
    ThreeCommands(a, b, c, 1.0, START, HOME);
  }

  lemma ThreeCommands(a: Command, b: Command, c: Command, k: real, s: State, r: Cursor)
    requires WellFormed([a, b, c]) && |a.args| == Arity(a.letter.verb) && |b.args| == Arity(b.letter.verb)
    requires |c.args| == Arity(c.letter.verb)
    ensures var (s2, r2) := (Perform(b.letter, b.args, k, Perform(a.letter, a.args, k, s)), Advance(b, Advance(a, r)));
      && PerformAll([a, b, c], k, s) == Perform(c.letter, c.args, k, s2) && AdvanceAll([a, b, c], r) == Advance(c, r2)
      && (ClosesWell([a, b, c], k, r) ==> (c.letter.verb.Close? && r2.late ==> Scaled(r2.start, k) == ORIGIN))
  {
    hide Perform, Advance;
    var cmds, two := [a, b, c], [b, c];
    assert cmds[0] == a && cmds[1..] == two && two[0] == b && two[1..] == [c] && [c][0] == c && [c][1..] == [];
    TwoCommands(b, c, k, Perform(a.letter, a.args, k, s), Advance(a, r));
    assert WellFormed(two) && WellFormed([c]);
    assert ClosesWell([c], k, Advance(b, Advance(a, r)))
      ==> (c.letter.verb.Close? && Advance(b, Advance(a, r)).late ==> Scaled(Advance(b, Advance(a, r)).start, k) == ORIGIN);
    assert ClosesWell(two, k, Advance(a, r)) ==> ClosesWell([c], k, Advance(b, Advance(a, r)));
  }

  // ---------------------------------------------------------------- curves

  /** The weights of a cubic are not negative and add up to one. */
  lemma Weights(t: real)
    requires 0.0 <= t <= 1.0
    ensures B0(t) >= 0.0 && B1(t) >= 0.0 && B2(t) >= 0.0 && B3(t) >= 0.0
    ensures B0(t) + B1(t) + B2(t) + B3(t) == 1.0
  {
    var u := 1.0 - t;
    NonNegative(u, u);
    NonNegative(u * u, u);
    NonNegative(u * u, t);
    NonNegative(u, t);
    NonNegative(u * t, t);
    NonNegative(t, t);
    NonNegative(t * t, t);
    assert B1(t) == 3.0 * (u * u * t);
    assert B2(t) == 3.0 * (u * t * t);
    Expand(t);
  }

  lemma Expand(t: real)
    ensures B0(t) + B1(t) + B2(t) + B3(t) == 1.0
  {
    var t2 := t * t;
    var t3 := t2 * t;
    var u := 1.0 - t;
    assert u * u == 1.0 - 2.0 * t + t2;
    assert B0(t) == (1.0 - 2.0 * t + t2) * (1.0 - t);
    assert B0(t) == 1.0 - 3.0 * t + 3.0 * t2 - t3;
    assert B1(t) == 3.0 * (1.0 - 2.0 * t + t2) * t;
    assert B1(t) == 3.0 * t - 6.0 * t2 + 3.0 * t3;
    assert B2(t) == 3.0 * t2 - 3.0 * t3;
  }

  /** Four products that share a factor, with weights that add up to one. */
  lemma Shared(a: real, b: real, c: real, d: real, v: real)
    requires a + b + c + d == 1.0
    ensures Times(a, v) + Times(b, v) + Times(c, v) + Times(d, v) == v
  {
    TimesPlus(a, b, v);
    TimesPlus(a + b, c, v);
    TimesPlus(a + b + c, d, v);
    assert Times(1.0, v) == v;
    hide Times;
  }

  lemma Convex(w0: real, w1: real, w2: real, w3: real, a: real, b: real, c: real, d: real, lo: real, hi: real)
    requires w0 >= 0.0 && w1 >= 0.0 && w2 >= 0.0 && w3 >= 0.0 && w0 + w1 + w2 + w3 == 1.0
    requires lo <= a <= hi && lo <= b <= hi && lo <= c <= hi && lo <= d <= hi
    ensures lo <= Times(w0, a) + Times(w1, b) + Times(w2, c) + Times(w3, d) <= hi
  {
    hide Times;
    TimesOrder(w0, lo, a);
    TimesOrder(w0, a, hi);
    TimesOrder(w1, lo, b);
    TimesOrder(w1, b, hi);
    TimesOrder(w2, lo, c);
    TimesOrder(w2, c, hi);
    TimesOrder(w3, lo, d);
    TimesOrder(w3, d, hi);
    Shared(w0, w1, w2, w3, lo);
    Shared(w0, w1, w2, w3, hi);
  }

  lemma MixIs(t: real, a: real, b: real, c: real, d: real)
    ensures Mix(t, a, b, c, d) == Times(B0(t), a) + Times(B1(t), b) + Times(B2(t), c) + Times(B3(t), d)
  {
    hide B0, B1, B2, B3;
  }

  /** A weighted average lies between the extremes. */
  lemma MixBetween(t: real, a: real, b: real, c: real, d: real, lo: real, hi: real)
    requires 0.0 <= t <= 1.0 && lo <= a <= hi && lo <= b <= hi && lo <= c <= hi && lo <= d <= hi
    ensures lo <= Mix(t, a, b, c, d) <= hi
  {
    hide B0, B1, B2, B3, Times, Mix;
    Weights(t);
    MixIs(t, a, b, c, d);
    Convex(B0(t), B1(t), B2(t), B3(t), a, b, c, d, lo, hi);
  }

  predicate Within(p: Pen, lo: Pen, hi: Pen) {
    lo.x <= p.x <= hi.x && lo.y <= p.y <= hi.y
  }

  /** Every point of a flattened curve lies in each box that holds its control points, and the last is
      exactly the end point. */
  lemma CurveInBox(p0: Pen, p1: Pen, p2: Pen, p3: Pen, lo: Pen, hi: Pen, i: nat)
    requires Within(p0, lo, hi) && Within(p1, lo, hi) && Within(p2, lo, hi) && Within(p3, lo, hi) && i < SEGMENTS
    ensures Within(Flattened(p0, p1, p2, p3, SEGMENTS)[i], lo, hi)
    ensures Flattened(p0, p1, p2, p3, SEGMENTS)[SEGMENTS - 1] == p3
  {
    var t := (i + 1) as real / SEGMENTS as real;
    MixBetween(t, p0.x, p1.x, p2.x, p3.x, lo.x, hi.x);
    MixBetween(t, p0.y, p1.y, p2.y, p3.y, lo.y, hi.y);
    EndsAtEnd(p0, p1, p2, p3);
  }

  /** A curve point is found by halving at `t` three times, as de Casteljau does: it is the point at `t` between the
      two points at `t` between the three points at `t` between the neighbouring control points. */
  lemma CurveIsDeCasteljau(t: real, p0: Pen, p1: Pen, p2: Pen, p3: Pen)
    ensures CurvePoint(t, p0, p1, p2, p3) == Between(t,
      Between(t, Between(t, p0, p1), Between(t, p1, p2)), Between(t, Between(t, p1, p2), Between(t, p2, p3)))
  {
    hide Mix, Part;
    AxisIsDeCasteljau(t, p0.x, p1.x, p2.x, p3.x);
    AxisIsDeCasteljau(t, p0.y, p1.y, p2.y, p3.y);
  }

  /** The point at fraction `t` of the way. */
  function Between(t: real, p: Pen, q: Pen): Pen {
    Pen(Part(t, p.x, q.x), Part(t, p.y, q.y))
  }

  function Part(t: real, u: real, v: real): real {
    u + t * (v - u)
  }

  lemma AxisIsDeCasteljau(t: real, a: real, b: real, c: real, d: real)
    ensures var (abc, bcd) := (Part(t, Part(t, a, b), Part(t, b, c)), Part(t, Part(t, b, c), Part(t, c, d)));
      Mix(t, a, b, c, d) == Part(t, abc, bcd)
  {
    hide Mix, Part, Times;
    var (sq, u, v) := (Times(t, t), a - 2.0 * b + c, b - 2.0 * c + d);
    TwiceBetween(t, a, b, c);
    TwiceBetween(t, b, c, d);
    MixPowers(t, a, b, c, d);
    LastPart(t, a, b, Times(t, b - a), Times(t, c - b), Times(sq, u), Times(sq, v));
    TimesDifference(t, b - a, c - b);
    TimesDifference(sq, u, v);
    TimesDifference(Times(sq, t), u, v);
    Nested(t, u);
    Nested(t, v - u);
  }

  /** The third halving, with the products of the first two given. */
  lemma LastPart(t: real, a: real, b: real, x: real, y: real, p: real, q: real)
    ensures Part(t, a + 2.0 * x + p, b + 2.0 * y + q)
         == a + 2.0 * x + p + Times(t, b - a) + 2.0 * Times(t, y - x) + Times(t, q - p)
  {
    Distribute(t, b - a, 2.0 * (y - x) + (q - p));
    Distribute(t, 2.0 * (y - x), q - p);
    assert t * (2.0 * (y - x)) == 2.0 * (t * (y - x));
  }

  lemma TimesDifference(w: real, u: real, v: real)
    ensures Times(w, v - u) == Times(w, v) - Times(w, u)
  {
    Distribute(w, v, -u);
  }

  lemma Nested(t: real, w: real)
    ensures Times(t, Times(t, w)) == Times(Times(t, t), w) && Times(t, Times(Times(t, t), w)) == Times(Times(Times(t, t), t), w)
  {
  }

  lemma TwiceBetween(t: real, a: real, b: real, c: real)
    ensures Part(t, Part(t, a, b), Part(t, b, c)) == a + 2.0 * Times(t, b - a) + Times(Times(t, t), a - 2.0 * b + c)
  {
    var x, y := t * (b - a), t * (c - b);
    assert t * (b - a + y - x) == t * (b - a) + t * y - t * x;
    assert t * y == t * t * (c - b) && t * x == t * t * (b - a);
  }

  lemma MixPowers(t: real, a: real, b: real, c: real, d: real)
    ensures var (sq, u, v) := (Times(t, t), a - 2.0 * b + c, b - 2.0 * c + d);
      Mix(t, a, b, c, d) == a + 3.0 * Times(t, b - a) + 3.0 * Times(sq, u) + Times(Times(sq, t), v - u)
  {
    var t2, t3 := t * t, t * t * t;
    WeightPowers(t);
    assert (1.0 - 3.0 * t + 3.0 * t2 - t3) * a == a - 3.0 * (t * a) + 3.0 * (t2 * a) - t3 * a;
    assert (3.0 * t - 6.0 * t2 + 3.0 * t3) * b == 3.0 * (t * b) - 6.0 * (t2 * b) + 3.0 * (t3 * b);
    assert (3.0 * t2 - 3.0 * t3) * c == 3.0 * (t2 * c) - 3.0 * (t3 * c);
  }

  lemma WeightPowers(t: real)
    ensures var (t2, t3) := (t * t, t * t * t);
      B0(t) == 1.0 - 3.0 * t + 3.0 * t2 - t3 && B1(t) == 3.0 * t - 6.0 * t2 + 3.0 * t3 && B2(t) == 3.0 * t2 - 3.0 * t3
  {
    var t2 := t * t;
    var u := 1.0 - t;
    assert u * u == 1.0 - 2.0 * t + t2;
    assert B0(t) == (1.0 - 2.0 * t + t2) * (1.0 - t);
    assert B1(t) == 3.0 * (1.0 - 2.0 * t + t2) * t;
  }

  /** The point of the quadratic curve that section 9.3 of SVG 2 prescribes for `Q`, one coordinate. */
  function Quadratic(t: real, a: real, c: real, d: real): real {
    (1.0 - t) * (1.0 - t) * a + 2.0 * (1.0 - t) * t * c + t * t * d
  }

  /** `Q` is drawn as a cubic with its control point doubled, which is another curve: at a parameter strictly
      inside it meets the prescribed one exactly when the control point lies on the chord at that parameter. */
  lemma QuadIsNotQuadratic(t: real, a: real, c: real, d: real)
    requires 0.0 < t < 1.0
    ensures Mix(t, a, c, c, d) == Quadratic(t, a, c, d) <==> c == (1.0 - t) * a + t * d
  {
    QuadGap(t, a, c, d);
    var w, e := t * (1.0 - t), c - (1.0 - t) * a - t * d;
    WeightPositive(t);
    if w * e == 0.0 {
      assert w * e / w == e;
    }
  }

  /** What section 9.3 of SVG 2 prescribes for `Q`, as a point. */
  function QuadPoint(t: real, p0: Pen, p1: Pen, p2: Pen): Pen {
    Pen(Quadratic(t, p0.x, p1.x, p2.x), Quadratic(t, p0.y, p1.y, p2.y))
  }

  predicate Prescribed(p0: Pen, p1: Pen, p2: Pen, i: nat)
    requires i < SEGMENTS
  {
    Flattened(p0, p1, p1, p2, SEGMENTS)[i] == QuadPoint((i + 1) as real / SEGMENTS as real, p0, p1, p2)
  }

  /** One point that is drawn strictly inside the curve is a prescribed one exactly when the control point is
      on the chord there. */
  lemma PrescribedIff(p0: Pen, p1: Pen, p2: Pen, i: nat)
    requires i + 1 < SEGMENTS
    ensures var t := (i + 1) as real / SEGMENTS as real;
      Prescribed(p0, p1, p2, i) <==> p1 == Pen((1.0 - t) * p0.x + t * p2.x, (1.0 - t) * p0.y + t * p2.y)
  {
    hide Mix, Quadratic;
    var t := (i + 1) as real / SEGMENTS as real;
    QuadIsNotQuadratic(t, p0.x, p1.x, p2.x);
    QuadIsNotQuadratic(t, p0.y, p1.y, p2.y);
  }

  /** The eight points drawn for a `Q` are all on the prescribed curve exactly when its three points coincide:
      the first two of them already force that. */
  lemma QuadDrawnAsPrescribed(p0: Pen, p1: Pen, p2: Pen)
    ensures (forall i :: 0 <= i < SEGMENTS ==> Prescribed(p0, p1, p2, i)) <==> p0 == p1 == p2
  {
    hide Prescribed;
    PrescribedIff(p0, p1, p2, 0);
    PrescribedIff(p0, p1, p2, 1);
    if p0 == p1 == p2 {
      forall i | 0 <= i < SEGMENTS ensures Prescribed(p0, p1, p2, i) {
        if i + 1 < SEGMENTS { PrescribedIff(p0, p1, p2, i); } else { LastPrescribed(p0, p1, p2); }
      }
    }
  }

  lemma LastPrescribed(p0: Pen, p1: Pen, p2: Pen)
    ensures Prescribed(p0, p1, p2, SEGMENTS - 1)
  {
    EndsAtEnd(p0, p1, p1, p2);
    assert SEGMENTS as real / SEGMENTS as real == 1.0;
    assert QuadPoint(1.0, p0, p1, p2) == p2;
  }

  lemma WeightPositive(t: real)
    requires 0.0 < t < 1.0
    ensures t * (1.0 - t) > 0.0
  {
    MulStrict(0.0, t, 1.0 - t);
  }

  function Q0(t: real): real { (1.0 - t) * (1.0 - t) }
  function Q1(t: real): real { 2.0 * (1.0 - t) * t }
  function Q2(t: real): real { t * t }

  lemma QuadraticIs(t: real, a: real, c: real, d: real)
    ensures Quadratic(t, a, c, d) == Times(Q0(t), a) + Times(Q1(t), c) + Times(Q2(t), d)
  {
  }

  /** The weights of the doubled cubic less those of the quadratic. */
  lemma WeightGaps(t: real)
    ensures var (u, w) := (1.0 - t, t * (1.0 - t));
      B0(t) - Q0(t) == -(w * u) && B1(t) + B2(t) - Q1(t) == w && B3(t) - Q2(t) == -(w * t)
  {
    EndWeight(t);
    EndWeight(1.0 - t);
    MiddleWeight(t);
  }

  lemma EndWeight(t: real)
    ensures var u := 1.0 - t; u * u * u - u * u == -(t * u * u)
  {
    var u := 1.0 - t;
    var v := u * u;
    assert u * v == v - t * v;
  }

  lemma MiddleWeight(t: real)
    ensures var u := 1.0 - t; B1(t) + B2(t) - 2.0 * u * t == t * u
  {
    var u := 1.0 - t;
    var w := u * t;
    assert B1(t) == 3.0 * (u * w) && B2(t) == 3.0 * (t * w);
    assert u * w == w - t * w;
  }

  lemma QuadGap(t: real, a: real, c: real, d: real)
    ensures Mix(t, a, c, c, d) - Quadratic(t, a, c, d) == t * (1.0 - t) * (c - (1.0 - t) * a - t * d)
  {
    hide Mix, Quadratic;
    GapIs(t, t * (1.0 - t), 1.0 - t, a, c, d);
  }

  lemma GapIs(t: real, w: real, u: real, a: real, c: real, d: real)
    requires w == t * (1.0 - t) && u == 1.0 - t
    ensures Mix(t, a, c, c, d) - Quadratic(t, a, c, d) == Times(w, c - Times(u, a) - Times(t, d))
  {
    hide Times, Mix, Quadratic, B0, B1, B2, B3, Q0, Q1, Q2;
    MixIs(t, a, c, c, d);
    QuadraticIs(t, a, c, d);
    WeightGaps(t);
    EndGap(B0(t), Q0(t), w, u, a);
    EndGap(B3(t), Q2(t), w, t, d);
    MiddleGap(B1(t), B2(t), Q1(t), w, c);
    TimesSplit(w, c, Times(u, a), Times(t, d));
  }

  lemma EndGap(cubic: real, quad: real, w: real, s: real, v: real)
    requires cubic - quad == -(w * s)
    ensures Times(cubic, v) - Times(quad, v) == -Times(w, Times(s, v))
  {
    TimesMinus(quad, cubic, v);
    TimesNested(w, s, v);
    hide Times;
  }

  lemma MiddleGap(b1: real, b2: real, q: real, w: real, v: real)
    requires b1 + b2 - q == w
    ensures Times(b1, v) + Times(b2, v) - Times(q, v) == Times(w, v)
  {
    TimesPlus(b1, b2, v);
    TimesMinus(b1 + b2, q, v);
    hide Times;
  }

  // ---------------------------------------------------------------- what each letter draws

  /** These words read as these numbers. */
  predicate Reads(words: seq<string>, a: seq<real>, num: Numbers) {
    |words| == |a| && forall i :: 0 <= i < |a| ==> num(words[i]) == Some(a[i])
  }

  lemma {:induction false} ReadsAll(words: seq<string>, a: seq<real>, num: Numbers)
    requires Reads(words, a, num)
    ensures Args(words, |a|, num) == Some(a)
  {
    if a != [] {
      assert num(words[0]) == Some(a[0]);
      ReadsAll(words[1..], a[1..], num);
      assert a == [a[0]] + a[1..];
    }
  }

  lemma OneCommand(l: Letter, t: string, words: seq<string>, a: seq<real>, k: real, num: Numbers, s: State)
    requires LetterOf(t) == Some(l) && |a| == Arity(l.verb) && Reads(words, a, num)
    ensures Interpret([t] + words, k, num, s) == Perform(l, a, k, s)
  {
    hide LetterOf, Perform;
    var tokens := [t] + words;
    ReadsAll(words, a, num);
    assert tokens[0] == t && tokens[1..] == words;
    assert tokens[1 + |a|..] == [];
    assert Interpret([], k, num, Perform(l, a, k, s)) == Perform(l, a, k, s);
  }

  /** `M x y` goes to the scaled point and begins a subpath there; `m x y` counts from the current point, and a close
      returns there only if nothing was drawn before, else to the origin. */
  lemma MovesDraw(words: seq<string>, x: real, y: real, k: real, num: Numbers, s: State)
    requires Reads(words, [x, y], num)
    ensures var p := Pen(x * k, y * k); Interpret(["M"] + words, k, num, s) == State(p, p, s.path + [p])
    ensures var p := Pen(s.at.x + x * k, s.at.y + y * k);
      Interpret(["m"] + words, k, num, s) == State(p, if s.path == [] then p else Pen(0.0, 0.0), s.path + [p])
  {
    hide Scaled, Plus;
    PenAt(x, y, k, s.at);
    OneCommand(Letter(Move, false), "M", words, [x, y], k, num, s);
    OneCommand(Letter(Move, true), "m", words, [x, y], k, num, s);
  }

  /** `L` and `l` both go to the scaled point; the other four letters change one coordinate; a close returns. */
  lemma LinesDraw(words: seq<string>, x: real, y: real, k: real, num: Numbers, s: State)
    requires Reads(words, [x, y], num)
    ensures var p := Pen(x * k, y * k);
      Interpret(["L"] + words, k, num, s) == Interpret(["l"] + words, k, num, s) == State(p, s.first, s.path + [p])
  {
    hide Scaled;
    PenAt(x, y, k, s.at);
    OneCommand(Letter(Line, false), "L", words, [x, y], k, num, s);
    OneCommand(Letter(Line, true), "l", words, [x, y], k, num, s);
  }

  lemma AxesDraw(words: seq<string>, v: real, k: real, num: Numbers, s: State)
    requires Reads(words, [v], num)
    ensures var p := Pen(v * k, s.at.y); Interpret(["H"] + words, k, num, s) == State(p, s.first, s.path + [p])
    ensures var p := Pen(s.at.x + v * k, s.at.y); Interpret(["h"] + words, k, num, s) == State(p, s.first, s.path + [p])
    ensures var p := Pen(s.at.x, v * k); Interpret(["V"] + words, k, num, s) == State(p, s.first, s.path + [p])
    ensures var p := Pen(s.at.x, s.at.y + v * k); Interpret(["v"] + words, k, num, s) == State(p, s.first, s.path + [p])
  {
    OneCommand(Letter(Horizontal, false), "H", words, [v], k, num, s);
    OneCommand(Letter(Horizontal, true), "h", words, [v], k, num, s);
    OneCommand(Letter(Vertical, false), "V", words, [v], k, num, s);
    OneCommand(Letter(Vertical, true), "v", words, [v], k, num, s);
  }

  lemma ClosesDraw(k: real, num: Numbers, s: State)
    ensures Interpret(["Z"], k, num, s) == Interpret(["z"], k, num, s) == State(s.first, s.first, s.path + [s.first])
  {
    assert ["Z"] + [] == ["Z"] && ["z"] + [] == ["z"];
    OneCommand(Letter(Close, false), "Z", [], [], k, num, s);
    OneCommand(Letter(Close, false), "z", [], [], k, num, s);
  }

  /** The state after a curve: eight points at even parameters, the last of them the end point. */
  predicate DrawsCurve(r: State, s: State, p1: Pen, p2: Pen, p3: Pen) {
    var p0 := s.at;
    r == State(p3, s.first, s.path + [
      CurvePoint(0.125, p0, p1, p2, p3), CurvePoint(0.25, p0, p1, p2, p3), CurvePoint(0.375, p0, p1, p2, p3),
      CurvePoint(0.5, p0, p1, p2, p3), CurvePoint(0.625, p0, p1, p2, p3), CurvePoint(0.75, p0, p1, p2, p3),
      CurvePoint(0.875, p0, p1, p2, p3), p3])
  }

  lemma DrawnCurve(s: State, p1: Pen, p2: Pen, p3: Pen)
    ensures DrawsCurve(Drawn(s, p1, p2, p3), s, p1, p2, p3)
  {
    hide CurvePoint;
    EndsAtEnd(s.at, p1, p2, p3);
    var p0, points := s.at, Flattened(s.at, p1, p2, p3, SEGMENTS);
    Eighths();
    assert points == [points[0], points[1], points[2], points[3], points[4], points[5], points[6], points[7]];
  }

  lemma Eighths()
    ensures 1 as real / 8 as real == 0.125 && 2 as real / 8 as real == 0.25 && 3 as real / 8 as real == 0.375
         && 4 as real / 8 as real == 0.5 && 5 as real / 8 as real == 0.625 && 6 as real / 8 as real == 0.75
         && 7 as real / 8 as real == 0.875
  {
  }

  lemma PenAt(x: real, y: real, k: real, at: Pen)
    ensures Plus(Scaled(Pen(x, y), k), at, false) == Scaled(Pen(x, y), k) == Pen(x * k, y * k)
    ensures Plus(Scaled(Pen(x, y), k), at, true) == Pen(at.x + x * k, at.y + y * k)
  {
  }

  /** `C` draws the cubic through two scaled control points to the scaled end, `c` the same from the current point. */
  lemma CubicsDraw(words: seq<string>, a: seq<real>, k: real, num: Numbers, s: State)
    requires |a| == 6 && Reads(words, a, num)
    ensures DrawsCurve(Interpret(["C"] + words, k, num, s), s, Pen(a[0] * k, a[1] * k), Pen(a[2] * k, a[3] * k), Pen(a[4] * k, a[5] * k))
    ensures DrawsCurve(Interpret(["c"] + words, k, num, s), s, Pen(s.at.x + a[0] * k, s.at.y + a[1] * k),
                       Pen(s.at.x + a[2] * k, s.at.y + a[3] * k), Pen(s.at.x + a[4] * k, s.at.y + a[5] * k))
  {
    OneCommand(Letter(Cubic, false), "C", words, a, k, num, s);
    OneCommand(Letter(Cubic, true), "c", words, a, k, num, s);
    CubicIs(a, k, s);
  }

  lemma CubicIs(a: seq<real>, k: real, s: State)
    requires |a| == 6
    ensures DrawsCurve(Perform(Letter(Cubic, false), a, k, s), s, Pen(a[0] * k, a[1] * k), Pen(a[2] * k, a[3] * k), Pen(a[4] * k, a[5] * k))
    ensures DrawsCurve(Perform(Letter(Cubic, true), a, k, s), s, Pen(s.at.x + a[0] * k, s.at.y + a[1] * k),
                       Pen(s.at.x + a[2] * k, s.at.y + a[3] * k), Pen(s.at.x + a[4] * k, s.at.y + a[5] * k))
  {
    PenAt(a[0], a[1], k, s.at);
    PenAt(a[2], a[3], k, s.at);
    PenAt(a[4], a[5], k, s.at);
    CubicDrawn(a, Pen(a[0] * k, a[1] * k), Pen(a[2] * k, a[3] * k), Pen(a[4] * k, a[5] * k), false, k, s);
    CubicDrawn(a, Pen(s.at.x + a[0] * k, s.at.y + a[1] * k), Pen(s.at.x + a[2] * k, s.at.y + a[3] * k),
               Pen(s.at.x + a[4] * k, s.at.y + a[5] * k), true, k, s);
    hide DrawsCurve, Drawn, Scaled, Plus;
  }

  lemma CubicDrawn(a: seq<real>, p1: Pen, p2: Pen, p3: Pen, relative: bool, k: real, s: State)
    requires |a| == 6 && p1 == Plus(Scaled(Pen(a[0], a[1]), k), s.at, relative)
    requires p2 == Plus(Scaled(Pen(a[2], a[3]), k), s.at, relative) && p3 == Plus(Scaled(Pen(a[4], a[5]), k), s.at, relative)
    ensures DrawsCurve(Perform(Letter(Cubic, relative), a, k, s), s, p1, p2, p3)
  {
    hide DrawsCurve, Drawn, Scaled, Plus;
    DrawnCurve(s, p1, p2, p3);
  }

  /** `Q` and `q` draw the cubic with their one control point used twice. */
  lemma QuadsDraw(words: seq<string>, a: seq<real>, k: real, num: Numbers, s: State)
    requires |a| == 4 && Reads(words, a, num)
    ensures var c := Pen(a[0] * k, a[1] * k);
      DrawsCurve(Interpret(["Q"] + words, k, num, s), s, c, c, Pen(a[2] * k, a[3] * k))
    ensures var c := Pen(s.at.x + a[0] * k, s.at.y + a[1] * k);
      DrawsCurve(Interpret(["q"] + words, k, num, s), s, c, c, Pen(s.at.x + a[2] * k, s.at.y + a[3] * k))
  {
    OneCommand(Letter(Quad, false), "Q", words, a, k, num, s);
    OneCommand(Letter(Quad, true), "q", words, a, k, num, s);
    QuadIs(a, k, s);
  }

  lemma QuadIs(a: seq<real>, k: real, s: State)
    requires |a| == 4
    ensures var c := Pen(a[0] * k, a[1] * k);
      DrawsCurve(Perform(Letter(Quad, false), a, k, s), s, c, c, Pen(a[2] * k, a[3] * k))
    ensures var c := Pen(s.at.x + a[0] * k, s.at.y + a[1] * k);
      DrawsCurve(Perform(Letter(Quad, true), a, k, s), s, c, c, Pen(s.at.x + a[2] * k, s.at.y + a[3] * k))
  {
    PenAt(a[0], a[1], k, s.at);
    PenAt(a[2], a[3], k, s.at);
    QuadDrawn(a, Pen(a[0] * k, a[1] * k), Pen(a[2] * k, a[3] * k), false, k, s);
    QuadDrawn(a, Pen(s.at.x + a[0] * k, s.at.y + a[1] * k), Pen(s.at.x + a[2] * k, s.at.y + a[3] * k), true, k, s);
    hide DrawsCurve, Drawn, Scaled, Plus;
  }

  lemma QuadDrawn(a: seq<real>, c: Pen, p: Pen, relative: bool, k: real, s: State)
    requires |a| == 4 && c == Plus(Scaled(Pen(a[0], a[1]), k), s.at, relative)
    requires p == Plus(Scaled(Pen(a[2], a[3]), k), s.at, relative)
    ensures DrawsCurve(Perform(Letter(Quad, relative), a, k, s), s, c, c, p)
  {
    hide DrawsCurve, Drawn, Scaled, Plus;
    DrawnCurve(s, c, c, p);
  }

  /** A command that is cut short draws nothing and ends the path; an abandoned `M` moves the close point to the
      origin, an abandoned `m` to the current point. */
  lemma CutShort(t: string, words: seq<string>, a: seq<real>, k: real, num: Numbers, s: State)
    requires Reads(words, a, num)
    requires ((t == "M" || t == "m" || t == "L" || t == "l") && |a| < 2) || (t in {"H", "h", "V", "v"} && |a| < 1)
             || ((t == "C" || t == "c") && |a| < 6) || ((t == "Q" || t == "q") && |a| < 4)
    ensures Interpret([t] + words, k, num, s)
         == if t == "M" then s.(first := Pen(0.0, 0.0)) else if t == "m" then s.(first := s.at) else s
  {
    LetterNeeds(t, |a|);
    Ends(t, words, a, LetterOf(t).value, k, num, s);
    hide Interpret;
  }

  lemma LetterNeeds(t: string, n: nat)
    requires ((t == "M" || t == "m" || t == "L" || t == "l") && n < 2) || (t in {"H", "h", "V", "v"} && n < 1)
             || ((t == "C" || t == "c") && n < 6) || ((t == "Q" || t == "q") && n < 4)
    ensures var l := LetterOf(t);
      l.Some? && n < Arity(l.value.verb) && (l.value.verb.Move? <==> t == "M" || t == "m")
      && (l.value.verb.Move? ==> (l.value.relative <==> t == "m"))
  {
  }

  lemma Ends(t: string, words: seq<string>, a: seq<real>, l: Letter, k: real, num: Numbers, s: State)
    requires Reads(words, a, num) && LetterOf(t) == Some(l) && |a| < Arity(l.verb)
    ensures Interpret([t] + words, k, num, s) == Abandoned(l, s)
  {
    hide LetterOf, Abandoned, Perform;
    var tokens := [t] + words;
    TooShort(words, a, Arity(l.verb), num);
    assert tokens[0] == t && tokens[1..] == words && tokens[1 + |words|..] == [];
    assert Interpret([], k, num, Abandoned(l, s)) == Abandoned(l, s);
  }

  lemma {:induction false} TooShort(words: seq<string>, a: seq<real>, n: nat, num: Numbers)
    requires Reads(words, a, num) && |a| < n
    ensures Args(words, n, num).None?
  {
    if a != [] {
      assert num(words[0]) == Some(a[0]);
      TooShort(words[1..], a[1..], n - 1, num);
    }
  }

  /** Each point is moved to its place with the y axis turned over, rounded, brought within 200 on either side, and
      rounded again. */
  lemma MotionPoints(path: seq<Pen>, ox: real, oy: real, maxPoints: nat, rnd: real -> real, i: nat)
    requires i < |path| && i < maxPoints
    ensures var (q, x, y) := (Clamped(PlaceAll(path, ox, oy, rnd), maxPoints, rnd), rnd(ox + path[i].x), rnd(oy - path[i].y));
      && |q| == (if |path| < maxPoints then |path| else maxPoints)
      && q[i].x == rnd(if x > 200.0 then 200.0 else if x < -200.0 then -200.0 else x)
      && q[i].y == rnd(if y > 200.0 then 200.0 else if y < -200.0 then -200.0 else y)
      && q[i].z == rnd(0.0) && !q[i].penUp
  {
    hide Clamped, PlaceAll;
  }
}
