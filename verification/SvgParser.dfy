/**
 The SVG path interpreter: tokens, the command handlers with their abort rules, and curve flattening.
 Reading a number off a token is a function `num`; rounding to two decimals is a function `rnd`.
 */
module SvgParser {
  import opened Wrappers
  import opened PathGeometry

  // ---------------------------------------------------------------- tokens

  predicate IsLetter(c: char) {
    'a' <= c <= 'z' || 'A' <= c <= 'Z'
  }

  predicate IsBlank(c: char) {
    c == ',' || c == ' ' || c == '\t' || c == '\n' || c == '\r'
  }

  predicate IsNumeric(c: char) {
    c == '-' || c == '.' || '0' <= c <= '9'
  }

  function Pending(current: string): seq<string> {
    if current == "" then [] else [current]
  }

  /** The tokens of `d` when `current` has been read already; other characters are skipped. */
  function TokensFrom(d: string, current: string): seq<string>
    decreases |d|
  {
    if d == "" then Pending(current)
    else if IsLetter(d[0]) then Pending(current) + [[d[0]]] + TokensFrom(d[1..], "")
    else if IsBlank(d[0]) then Pending(current) + TokensFrom(d[1..], "")
    else if IsNumeric(d[0]) then TokensFrom(d[1..], current + [d[0]])
    else TokensFrom(d[1..], current)
  }

  method Tokenize(d: string) returns (tokens: seq<string>)
    ensures tokens == TokensFrom(d, "")
  {
    tokens := [];
    var current := "";
    assert d[0..] == d;
    for i := 0 to |d|
      invariant TokensFrom(d, "") == tokens + TokensFrom(d[i..], current)
    {
      ghost var rest := TokensFrom(d[i + 1..], "");
      assert d[i..][1..] == d[i + 1..];
      assert tokens + (Pending(current) + [[d[i]]] + rest) == tokens + Pending(current) + [[d[i]]] + rest;
      assert tokens + (Pending(current) + rest) == tokens + Pending(current) + rest;
      if IsLetter(d[i]) {
        if current != "" {
          tokens := tokens + [current];
          current := "";
        }
        tokens := tokens + [[d[i]]];
      } else if IsBlank(d[i]) {
        if current != "" {
          tokens := tokens + [current];
          current := "";
        }
      } else if IsNumeric(d[i]) {
        current := current + [d[i]];
      }
    }
    if current != "" { tokens := tokens + [current]; }
  }

  /** A token the tokenizer can give: one letter, or digits, signs and points. */
  predicate Token(t: string) {
    (|t| == 1 && IsLetter(t[0])) || (t != "" && forall i :: 0 <= i < |t| ==> IsNumeric(t[i]))
  }

  predicate AllTokens(tokens: seq<string>) {
    forall i :: 0 <= i < |tokens| ==> Token(tokens[i])
  }

  function Spaced(tokens: seq<string>): string {
    if tokens == [] then "" else tokens[0] + " " + Spaced(tokens[1..])
  }

  lemma {:induction false} ReadNumeric(t: string, rest: string, current: string)
    requires forall i :: 0 <= i < |t| ==> IsNumeric(t[i])
    ensures TokensFrom(t + rest, current) == TokensFrom(rest, current + t)
    decreases |t|
  {
    if t == "" {
      assert t + rest == rest && current + t == current;
    } else {
      assert (t + rest)[1..] == t[1..] + rest;
      ReadNumeric(t[1..], rest, current + [t[0]]);
      assert current + [t[0]] + t[1..] == current + t;
    }
  }

  lemma BlankNext(rest: string, current: string)
    ensures TokensFrom(" " + rest, current) == Pending(current) + TokensFrom(rest, "")
  {
    assert (" " + rest)[1..] == rest;
  }

  /** One token and the blank after it. */
  lemma ReadToken(t: string, rest: string)
    requires Token(t)
    ensures TokensFrom(t + (" " + rest), "") == [t] + TokensFrom(rest, "")
  {
    BlankNext(rest, "");
    BlankNext(rest, t);
    assert Pending("") + TokensFrom(rest, "") == TokensFrom(rest, "");
    if |t| == 1 && IsLetter(t[0]) {
      assert (t + (" " + rest))[1..] == " " + rest;
      assert [t[0]] == t;
    } else {
      ReadNumeric(t, " " + rest, "");
      assert "" + t == t;
    }
  }

  /** Writing tokens with blanks between them and reading them back gives the same tokens. */
  lemma {:induction false} TokenRoundTrip(tokens: seq<string>)
    requires AllTokens(tokens)
    ensures TokensFrom(Spaced(tokens), "") == tokens
  {
    hide TokensFrom, Spaced, AllTokens;
    if tokens == [] {
      NoTokens();
    } else {
      FirstToken(tokens);
      TokenRoundTrip(tokens[1..]);
      ReadToken(tokens[0], Spaced(tokens[1..]));
      assert tokens == [tokens[0]] + tokens[1..];
    }
  }

  lemma NoTokens()
    ensures TokensFrom(Spaced([]), "") == []
  {
  }

  lemma FirstToken(tokens: seq<string>)
    requires AllTokens(tokens) && tokens != []
    ensures Token(tokens[0]) && AllTokens(tokens[1..])
    ensures Spaced(tokens) == tokens[0] + (" " + Spaced(tokens[1..]))
  {
    hide Token;
    assert tokens[0] + " " + Spaced(tokens[1..]) == tokens[0] + (" " + Spaced(tokens[1..]));
  }

  function Joined(tokens: seq<string>): string {
    if tokens == [] then "" else tokens[0] + Joined(tokens[1..])
  }

  /** The characters of a path that count: ASCII letters, digits, signs and points. */
  function Counted(d: string): string {
    if d == "" then ""
    else (if 'a' <= d[0] <= 'z' || 'A' <= d[0] <= 'Z' || '0' <= d[0] <= '9' || d[0] == '-' || d[0] == '.' then [d[0]] else "")
         + Counted(d[1..])
  }

  lemma {:induction false} JoinedConcat(a: seq<string>, b: seq<string>)
    ensures Joined(a + b) == Joined(a) + Joined(b)
  {
    if a == [] {
      assert a + b == b;
    } else {
      assert (a + b)[1..] == a[1..] + b;
      JoinedConcat(a[1..], b);
    }
  }

  lemma JoinedPending(current: string)
    ensures Joined(Pending(current)) == current
  {
    if current != "" { assert [current][1..] == []; }
  }

  /** The tokens are the counted characters of the path, in order, none lost and none added. */
  lemma {:induction false} TokensKeepCharacters(d: string, current: string)
    ensures Joined(TokensFrom(d, current)) == current + Counted(d)
    decreases |d|
  {
    JoinedPending(current);
    if d != "" {
      var c, rest := d[0], d[1..];
      TokensKeepCharacters(rest, "");
      TokensKeepCharacters(rest, current + [c]);
      TokensKeepCharacters(rest, current);
      JoinedConcat(Pending(current), [[c]]);
      JoinedConcat(Pending(current) + [[c]], TokensFrom(rest, ""));
      JoinedConcat(Pending(current), TokensFrom(rest, ""));
      assert [[c]][1..] == [] && Joined([[c]]) == [c];
    }
  }

  /** Two numbers are one token unless a letter or a comma, blank, tab or line break stands between them. */
  lemma NumbersApart(a: string, c: char, b: string)
    requires a != "" && b != ""
    requires forall i :: 0 <= i < |a| ==> '0' <= a[i] <= '9' || a[i] == '-' || a[i] == '.'
    requires forall i :: 0 <= i < |b| ==> '0' <= b[i] <= '9' || b[i] == '-' || b[i] == '.'
    ensures TokensFrom(a + ([c] + b), "")
         == if 'a' <= c <= 'z' || 'A' <= c <= 'Z' then [a, [c], b]
            else if c == ',' || c == ' ' || c == '\t' || c == '\n' || c == '\r' then [a, b]
            else if '0' <= c <= '9' || c == '-' || c == '.' then [a + [c] + b]
            else [a + b]
  {
    ReadNumeric(a, [c] + b, "");
    assert "" + a == a && ([c] + b)[1..] == b && b + "" == b;
    ReadNumeric(b, "", "");
    ReadNumeric(b, "", a);
    ReadNumeric(b, "", a + [c]);
    assert "" + b == b;
  }

  // ---------------------------------------------------------------- the pen

  datatype Pen = Pen(x: real, y: real)

  /** The current point, the point a close returns to, and the polyline so far, before placing. */
  datatype State = State(at: Pen, first: Pen, path: seq<Pen>)

  const ORIGIN: Pen := Pen(0.0, 0.0)
  const START: State := State(ORIGIN, ORIGIN, [])
  const SEGMENTS: nat := 8

  function Scaled(p: Pen, k: real): Pen {
    Pen(p.x * k, p.y * k)
  }

  /** Relative coordinates count from `base`, absolute ones from the origin. */
  function Plus(p: Pen, base: Pen, relative: bool): Pen {
    if relative then Pen(p.x + base.x, p.y + base.y) else p
  }

  function B0(t: real): real { (1.0 - t) * (1.0 - t) * (1.0 - t) }
  function B1(t: real): real { 3.0 * (1.0 - t) * (1.0 - t) * t }
  function B2(t: real): real { 3.0 * (1.0 - t) * t * t }
  function B3(t: real): real { t * t * t }

  function Mix(t: real, a: real, b: real, c: real, d: real): real {
    B0(t) * a + B1(t) * b + B2(t) * c + B3(t) * d
  }

  function CurvePoint(t: real, p0: Pen, p1: Pen, p2: Pen, p3: Pen): Pen {
    Pen(Mix(t, p0.x, p1.x, p2.x, p3.x), Mix(t, p0.y, p1.y, p2.y, p3.y))
  }

  /** The points at 1/8, 2/8, ..., n/8 of the curve. */
  function Flattened(p0: Pen, p1: Pen, p2: Pen, p3: Pen, n: nat): (r: seq<Pen>)
    ensures |r| == n
    ensures forall i :: 0 <= i < n ==> r[i] == CurvePoint((i + 1) as real / SEGMENTS as real, p0, p1, p2, p3)
  {
    seq(n, i requires 0 <= i < n => CurvePoint((i + 1) as real / SEGMENTS as real, p0, p1, p2, p3))
  }

  method BezierToPolyline(p0: Pen, p1: Pen, p2: Pen, p3: Pen) returns (points: seq<Pen>)
    ensures points == Flattened(p0, p1, p2, p3, SEGMENTS)
  {
    hide CurvePoint;
    points := [];
    for i := 1 to SEGMENTS + 1
      invariant points == Flattened(p0, p1, p2, p3, i - 1)
    {
      points := points + [CurvePoint(i as real / SEGMENTS as real, p0, p1, p2, p3)];
    }
  }

  // ---------------------------------------------------------------- handlers

  type Numbers = string -> Option<real>

  /** The first `n` tokens as numbers; None when one is missing or is no number. */
  function Args(tokens: seq<string>, n: nat, num: Numbers): (r: Option<seq<real>>)
    ensures r.Some? ==> |r.value| == n <= |tokens|
    decreases n
  {
    if n == 0 then Some([])
    else if tokens == [] || num(tokens[0]).None? then None
    else
      var rest := Args(tokens[1..], n - 1, num);
      if rest.None? then None else Some([num(tokens[0]).value] + rest.value)
  }

  datatype Verb = Move | Line | Horizontal | Vertical | Cubic | Quad | Close

  datatype Letter = Letter(verb: Verb, relative: bool)

  function LetterOf(t: string): Option<Letter> {
    if t == "M" then Some(Letter(Move, false)) else if t == "m" then Some(Letter(Move, true))
    else if t == "L" then Some(Letter(Line, false)) else if t == "l" then Some(Letter(Line, true))
    else if t == "H" then Some(Letter(Horizontal, false)) else if t == "h" then Some(Letter(Horizontal, true))
    else if t == "V" then Some(Letter(Vertical, false)) else if t == "v" then Some(Letter(Vertical, true))
    else if t == "C" then Some(Letter(Cubic, false)) else if t == "c" then Some(Letter(Cubic, true))
    else if t == "Q" then Some(Letter(Quad, false)) else if t == "q" then Some(Letter(Quad, true))
    else if t == "Z" || t == "z" then Some(Letter(Close, false))
    else None
  }

  function Arity(v: Verb): nat {
    match v
    case Move => 2 case Line => 2 case Horizontal => 1 case Vertical => 1 case Cubic => 6 case Quad => 4 case Close => 0
  }

  /** What a command with its numbers does to the state.  A lower-case `l` is handled as an absolute line:
      the handler it shares with the moves takes only `m` for relative. */
  function Perform(l: Letter, a: seq<real>, k: real, s: State): State
    requires |a| == Arity(l.verb)
  {
    match l.verb
    case Move =>
      var p := Plus(Scaled(Pen(a[0], a[1]), k), s.at, l.relative);
      State(p, if !l.relative || s.path == [] then p else ORIGIN, s.path + [p])
    case Line =>
      var p := Scaled(Pen(a[0], a[1]), k);
      State(p, s.first, s.path + [p])
    case Horizontal =>
      var p := Pen(a[0] * k + if l.relative then s.at.x else 0.0, s.at.y);
      State(p, s.first, s.path + [p])
    case Vertical =>
      var p := Pen(s.at.x, a[0] * k + if l.relative then s.at.y else 0.0);
      State(p, s.first, s.path + [p])
    case Cubic =>
      var p1 := Plus(Scaled(Pen(a[0], a[1]), k), s.at, l.relative);
      var p2 := Plus(Scaled(Pen(a[2], a[3]), k), s.at, l.relative);
      var p3 := Plus(Scaled(Pen(a[4], a[5]), k), s.at, l.relative);
      Drawn(s, p1, p2, p3)
    case Quad =>
      var p1 := Plus(Scaled(Pen(a[0], a[1]), k), s.at, l.relative);
      var p3 := Plus(Scaled(Pen(a[2], a[3]), k), s.at, l.relative);
      Drawn(s, p1, p1, p3)
    case Close => State(s.first, s.first, s.path + [s.first])
  }

  function Drawn(s: State, p1: Pen, p2: Pen, p3: Pen): State {
    var points := Flattened(s.at, p1, p2, p3, SEGMENTS);
    State(points[SEGMENTS - 1], s.first, s.path + points)
  }

  /** An abandoned move: the close point is lost, for an absolute one to the origin. */
  function Abandoned(l: Letter, s: State): State {
    if l.verb.Move? then s.(first := if l.relative then s.at else ORIGIN) else s
  }

  /** One command from its letter: how many tokens it takes, all of them when it is cut short. */
  function Handle(t: string, rest: seq<string>, k: real, num: Numbers, s: State): (r: (nat, State))
    ensures r.0 <= |rest|
  {
    var l := LetterOf(t);
    if l.None? then (0, s)
    else
      var a := Args(rest, Arity(l.value.verb), num);
      if a.None? then (|rest|, Abandoned(l.value, s)) else (Arity(l.value.verb), Perform(l.value, a.value, k, s))
  }

  function Interpret(tokens: seq<string>, k: real, num: Numbers, s: State): State
    decreases |tokens|
  {
    if tokens == [] then s
    else
      var (n, s1) := Handle(tokens[0], tokens[1..], k, num, s);
      Interpret(tokens[1 + n..], k, num, s1)
  }

  // ---------------------------------------------------------------- placing and clamping

  const MAX_WORKSPACE_MM: real := 200.0

  function Place(p: Pen, ox: real, oy: real, rnd: real -> real): Point {
    Point(rnd(ox + p.x), rnd(oy - p.y), 0.0, false)
  }

  function PlaceAll(path: seq<Pen>, ox: real, oy: real, rnd: real -> real): (r: seq<Point>)
    ensures |r| == |path| && forall i :: 0 <= i < |r| ==> r[i] == Place(path[i], ox, oy, rnd)
  {
    seq(|path|, i requires 0 <= i < |path| => Place(path[i], ox, oy, rnd))
  }

  lemma PlaceBoth(a: seq<Pen>, b: seq<Pen>, ox: real, oy: real, rnd: real -> real)
    ensures PlaceAll(a + b, ox, oy, rnd) == PlaceAll(a, ox, oy, rnd) + PlaceAll(b, ox, oy, rnd)
  {
    hide Place;
  }

  function Bounded(v: real): (r: real)
    ensures -MAX_WORKSPACE_MM <= r <= MAX_WORKSPACE_MM
    ensures -MAX_WORKSPACE_MM <= v <= MAX_WORKSPACE_MM ==> r == v
  {
    if v > MAX_WORKSPACE_MM then MAX_WORKSPACE_MM else if v < -MAX_WORKSPACE_MM then -MAX_WORKSPACE_MM else v
  }

  function ClampPoint(p: Point, rnd: real -> real): Point {
    Point(rnd(Bounded(p.x)), rnd(Bounded(p.y)), rnd(p.z), false)
  }

  function Clamped(path: seq<Point>, maxPoints: nat, rnd: real -> real): (r: seq<Point>)
    ensures |r| == if |path| < maxPoints then |path| else maxPoints
    ensures forall i :: 0 <= i < |r| ==> r[i] == ClampPoint(path[i], rnd)
  {
    seq(if |path| < maxPoints then |path| else maxPoints,
        i requires 0 <= i < (if |path| < maxPoints then |path| else maxPoints) => ClampPoint(path[i], rnd))
  }

  method ClampPath(path: seq<Point>, maxPoints: nat, rnd: real -> real) returns (result: seq<Point>)
    ensures result == Clamped(path, maxPoints, rnd)
  {
    result := [];
    var n := if |path| < maxPoints then |path| else maxPoints;
    for i := 0 to n
      invariant |result| == i && forall j :: 0 <= j < i ==> result[j] == ClampPoint(path[j], rnd)
    {
      result := result + [ClampPoint(path[i], rnd)];
    }
  }

  /** The token loop: `path` is placed and rounded as it grows, `s` is the state behind it. */
  method SvgPathToMotion(d: string, ox: real, oy: real, k: real, maxPoints: nat, num: Numbers, rnd: real -> real)
    returns (result: seq<Point>)
    ensures result == Clamped(PlaceAll(Interpret(TokensFrom(d, ""), k, num, START).path, ox, oy, rnd), maxPoints, rnd)
  {
    hide Handle, Place, ClampPoint, TokensFrom, LetterOf, PlaceAll;
    var tokens := Tokenize(d);
    var path: seq<Point> := [];
    var s := START;
    var i := 0;
    assert tokens[0..] == tokens;
    while i < |tokens|
      invariant 0 <= i <= |tokens|
      invariant Interpret(tokens, k, num, START) == Interpret(tokens[i..], k, num, s)
      invariant path == PlaceAll(s.path, ox, oy, rnd)
    {
      var t := tokens[i];
      ghost var rest := tokens[i..];
      i := i + 1;
      assert rest[1..] == tokens[i..];
      var n, s1, added := RunHandler(tokens, i, t, k, num, s);
      assert rest[1 + n..] == tokens[i + n..];
      i := i + n;
      PlaceBoth(s.path, added, ox, oy, rnd);
      path := path + PlaceAll(added, ox, oy, rnd);
      s := s1;
    }
    result := ClampPath(path, maxPoints, rnd);
  }

  /** Dispatch on the command letter; `added` is what the handler appends to the path. */
  method RunHandler(tokens: seq<string>, i: nat, t: string, k: real, num: Numbers, s: State)
    returns (n: nat, s1: State, added: seq<Pen>)
    requires i <= |tokens|
    ensures (n, s1) == Handle(t, tokens[i..], k, num, s) && s1.path == s.path + added
  {
    var l := LetterOf(t);
    if l.None? { return 0, s, []; }
    var a := ParseArgs(tokens, i, Arity(l.value.verb), num);
    if a.None? { return |tokens| - i, Abandoned(l.value, s), []; }
    if l.value.verb.Cubic? || l.value.verb.Quad? {
      var v := a.value;
      var p1 := Plus(Scaled(Pen(v[0], v[1]), k), s.at, l.value.relative);
      var p2 := if l.value.verb.Quad? then p1 else Plus(Scaled(Pen(v[2], v[3]), k), s.at, l.value.relative);
      var p3 := Plus(Scaled(Pen(v[|v| - 2], v[|v| - 1]), k), s.at, l.value.relative);
      added := BezierToPolyline(s.at, p1, p2, p3);
      s1 := State(added[SEGMENTS - 1], s.first, s.path + added);
    } else {
      s1 := Perform(l.value, a.value, k, s);
      added := [s1.path[|s.path|]];
    }
    n := Arity(l.value.verb);
  }

  method ParseArgs(tokens: seq<string>, start: nat, count: nat, num: Numbers) returns (values: Option<seq<real>>)
    requires start <= |tokens|
    ensures values == Args(tokens[start..], count, num)
  {
    if start + count > |tokens| {
      TooFew(tokens[start..], count, num);
      return None;
    }
    var list: seq<real> := [];
    for j := 0 to count
      invariant |list| == j
      invariant Args(tokens[start..], count, num) == After(list, Args(tokens[start + j..], count - j, num))
    {
      assert tokens[start + j..][1..] == tokens[start + j + 1..];
      var v := num(tokens[start + j]);
      if v.None? { return None; }
      AfterOne(list, v.value, Args(tokens[start + j + 1..], count - j - 1, num));
      list := list + [v.value];
    }
    assert list + [] == list;
    return Some(list);
  }

  function After(list: seq<real>, o: Option<seq<real>>): (r: Option<seq<real>>)
    ensures list == [] ==> r == o
  {
    if o.None? then None
    else
      assert list == [] ==> list + o.value == o.value;
      Some(list + o.value)
  }

  lemma AfterOne(list: seq<real>, v: real, o: Option<seq<real>>)
    ensures o.None? ==> After(list, None) == After(list + [v], o)
    ensures o.Some? ==> After(list, Some([v] + o.value)) == After(list + [v], o)
  {
    if o.Some? { assert list + ([v] + o.value) == list + [v] + o.value; }
  }

  lemma {:induction false} TooFew(tokens: seq<string>, n: nat, num: Numbers)
    requires n > |tokens|
    ensures Args(tokens, n, num).None?
    decreases n
  {
    if tokens != [] && num(tokens[0]).Some? { TooFew(tokens[1..], n - 1, num); }
  }
}
