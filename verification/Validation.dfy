/**
 Parameter validation: the profile limits, the path, feed and move checks, and the two entry points
 that use them, task creation with a device profile and the pop gate without one.
 */
module Validation {
  import opened Wrappers
  import opened Motion

  const MAX_POINT_COORD: real := 500.0
  const MIN_POINT_COORD: real := -500.0
  const MAX_FEED: real := 2000.0
  const MIN_FEED: real := 1.0
  const MAX_REL_STEP: real := 1.0
  const MAX_PATH_POINTS: nat := 200

  datatype Code = BadParams | MissingPath | UnsupportedCapability

  datatype Checked = Ok(params: Params) | Err(code: Code)

  /** A device profile; construction guarantees a positive feed limit and at least one point. */
  datatype Profile = Profile(workspace: map<Key, Json>, maxFeed: real, maxPathPoints: nat) {
    predicate Valid() {
      maxFeed > 0.0 && maxPathPoints >= 1
    }
  }

  // ---------------------------------------------------------------- numbers

  /** isinstance(j, (int, float)), with the value; a bool is an int. */
  function Numeric(j: Json): Reading {
    match j
    case JNum(n) => Finite(n)
    case JBool(b) => Finite(if b then 1.0 else 0.0)
    case JNaN => NaN
    case JInfinity(neg) => Infinity(neg)
    case _ => NotANumber
  }

  /** float(j) */
  function ToFloat(j: Json): Reading {
    if j.JStr? then j.reading else Numeric(j)
  }

  /** r > limit, false for NaN. */
  predicate Above(r: Reading, limit: real) {
    (r.Finite? && r.number > limit) || (r.Infinity? && !r.negative)
  }

  function Get(p: Params, k: Key, default: Json): Json {
    if k in p then p[k] else default
  }

  predicate Truthy(j: Json) {
    match j
    case JNull => false
    case JBool(b) => b
    case JNum(n) => n != 0.0
    case JNaN => true
    case JInfinity(_) => true
    case JStr(s, _) => s != ""
    case JArr(items) => items != []
    case JObj(fields) => fields != map[]
  }

  const AXES: seq<Key> := [X, Y, Z]

  // ---------------------------------------------------------------- profile limits

  predicate BoundsOk(p: Profile, axes: seq<Key>) {
    axes == [] || (axes[0] in p.workspace && Numeric(p.workspace[axes[0]]).Finite?
                   && Numeric(p.workspace[axes[0]]).number > 0.0 && BoundsOk(p, axes[1..]))
  }

  /** One coordinate against the profile's workspace. */
  predicate AxisInside(p: Profile, axis: Key, value: Json) {
    Numeric(value).Finite? && axis in p.workspace && Numeric(p.workspace[axis]).Finite?
    && 0.0 <= Numeric(value).number <= Numeric(p.workspace[axis]).number
  }

  predicate PointInside(p: Profile, point: Params) {
    forall k :: k in AXES ==> AxisInside(p, k, Get(point, k, JNum(0.0)))
  }

  predicate PointsInside(p: Profile, path: seq<Json>) {
    forall i :: 0 <= i < |path| ==> path[i].JObj? && PointInside(p, path[i].fields)
  }

  function ProfileLimitError(params: Params, profile: Option<Profile>): Option<Code> {
    if profile.None? then None
    else
      var p, path := profile.value, Get(params, Path, JNull);
      if !BoundsOk(p, AXES) then Some(BadParams)
      else if path.JArr? && |path.items| > p.maxPathPoints then Some(BadParams)
      else if Above(Numeric(Get(params, Feed, JNull)), p.maxFeed) then Some(BadParams)
      else if path.JArr? && !PointsInside(p, path.items) then Some(BadParams)
      else None
  }

  // ---------------------------------------------------------------- run_path

  predicate CoordOk(j: Json) {
    Numeric(j).Finite? && MIN_POINT_COORD <= Numeric(j).number <= MAX_POINT_COORD
  }

  predicate PointOk(j: Json) {
    j.JObj? && forall k :: k in AXES ==> CoordOk(Get(j.fields, k, JNum(0.0)))
  }

  predicate PointsOk(path: seq<Json>) {
    forall i :: 0 <= i < |path| ==> PointOk(path[i])
  }

  function ParseFeed(raw: Json): Option<real> {
    var r := ToFloat(if raw.JNull? then JNum(500.0) else raw);
    if r.Finite? && MIN_FEED <= r.number <= MAX_FEED then Some(r.number) else None
  }

  /** str(j), for the texts that reach a device; the text of another value is not spelled out. */
  function AsText(j: Json): Json {
    if j.JStr? then j else JStr("", NotANumber)
  }

  function ValidateRunPath(params: Params, profile: Option<Profile>): Checked {
    var limit := ProfileLimitError(params, profile);
    if limit.Some? then Err(limit.value)
    else
      var path := Get(params, Path, JNull);
      if !path.JArr? || path.items == [] then Err(MissingPath)
      else if |path.items| > MAX_PATH_POINTS then Err(BadParams)
      else if !PointsOk(path.items) then Err(BadParams)
      else
        var feed := ParseFeed(Get(params, Feed, JNum(500.0)));
        if feed.None? then Err(BadParams)
        else Ok(map[Path := path, Feed := JNum(feed.value),
                    SourceCapability := AsText(Get(params, SourceCapability, JStr("unknown", NotANumber)))])
  }

  // ---------------------------------------------------------------- moves

  /** A move scalar: a finite number that is no bool. */
  function AxisScalar(params: Params, key: Key): Option<real> {
    var raw := Get(params, key, JNum(0.0));
    if raw.JNum? then Some(raw.number) else None
  }

  predicate MoveAxisOk(params: Params, axis: Key, profile: Option<Profile>) {
    var v := AxisScalar(params, axis);
    v.Some? && MIN_POINT_COORD <= v.value <= MAX_POINT_COORD
    && (profile.None? || AxisInside(profile.value, axis, JNum(v.value)))
  }

  function MoveAbsAxes(params: Params, axes: seq<Key>, profile: Option<Profile>, sanitized: Params): Option<Params>
    decreases |axes|
  {
    if axes == [] then Some(sanitized)
    else if !MoveAxisOk(params, axes[0], profile) then None
    else MoveAbsAxes(params, axes[1..], profile, sanitized[axes[0] := JNum(AxisScalar(params, axes[0]).value)])
  }

  function AbsAxes(params: Params): seq<Key> {
    if Z in params then [X, Y, Z] else [X, Y]
  }

  function Name(name: string): Json {
    JStr(name, NotANumber)
  }

  function WithFeed(sanitized: Option<Params>, raw: Json): Checked {
    if sanitized.None? then Err(BadParams)
    else
      var feed := ParseFeed(raw);
      if feed.None? then Err(BadParams) else Ok(sanitized.value[Feed := JNum(feed.value)])
  }

  function ValidateMoveAbs(params: Params, profile: Option<Profile>): Checked {
    WithFeed(MoveAbsAxes(params, AbsAxes(params), profile, map[SourceCapability := Name("move_abs")]),
             Get(params, Feed, JNum(1000.0)))
  }

  predicate StepOk(params: Params, axis: Key) {
    var v := AxisScalar(params, axis);
    v.Some? && -MAX_REL_STEP <= v.value <= MAX_REL_STEP
  }

  const STEPS: seq<Key> := [DX, DY, DZ]

  function StepOf(params: Params, axis: Key): real {
    AxisScalar(params, axis).GetOr(0.0)
  }

  function MoveRelAxes(params: Params, axes: seq<Key>, sanitized: Params, nonZero: bool): Option<(Params, bool)>
    decreases |axes|
  {
    if axes == [] then Some((sanitized, nonZero))
    else if !StepOk(params, axes[0]) then None
    else
      var v := StepOf(params, axes[0]);
      MoveRelAxes(params, axes[1..], sanitized[axes[0] := JNum(v)], nonZero || v != 0.0)
  }

  function ValidateMoveRel(params: Params): Checked {
    var r := MoveRelAxes(params, STEPS, map[SourceCapability := Name("move_rel")], false);
    if r.None? || !r.value.1 then Err(BadParams)
    else WithFeed(Some(r.value.0), Get(params, Feed, JNum(800.0)))
  }

  /** The axis loop of an absolute move. */
  method CheckMoveAbs(params: Params, profile: Option<Profile>) returns (r: Checked)
    ensures r == ValidateMoveAbs(params, profile)
  {
    var sanitized: Params := map[SourceCapability := Name("move_abs")];
    var axes := AbsAxes(params);
    assert axes[0..] == axes;
    for i := 0 to |axes|
      invariant MoveAbsAxes(params, axes, profile, map[SourceCapability := Name("move_abs")])
             == MoveAbsAxes(params, axes[i..], profile, sanitized)
    {
      assert axes[i..][1..] == axes[i + 1..];
      var v := AxisScalar(params, axes[i]);
      if v.None? || v.value < MIN_POINT_COORD || v.value > MAX_POINT_COORD { return Err(BadParams); }
      if profile.Some? {
        var bound := Numeric(Get(profile.value.workspace, axes[i], JNull));
        if !bound.Finite? || v.value < 0.0 || v.value > bound.number { return Err(BadParams); }
      }
      sanitized := sanitized[axes[i] := JNum(v.value)];
    }
    var feed := ParseFeed(Get(params, Feed, JNum(1000.0)));
    if feed.None? { return Err(BadParams); }
    r := Ok(sanitized[Feed := JNum(feed.value)]);
  }

  /** The axis loop of a jog; a missing dz is zero. */
  method CheckMoveRel(params: Params) returns (r: Checked)
    ensures r == ValidateMoveRel(params)
  {
    ghost var start: Params := map[SourceCapability := Name("move_rel")];
    var sanitized: Params := map[SourceCapability := Name("move_rel")];
    var nonZero := false;
    assert STEPS[0..] == STEPS;
    for i := 0 to 3
      invariant MoveRelAxes(params, STEPS, start, false) == MoveRelAxes(params, STEPS[i..], sanitized, nonZero)
    {
      var axis := STEPS[i];
      assert STEPS[i..][1..] == STEPS[i + 1..];
      if axis == DZ && DZ !in params {
        sanitized := sanitized[axis := JNum(0.0)];
      } else {
        var v := AxisScalar(params, axis);
        if v.None? || v.value < -MAX_REL_STEP || v.value > MAX_REL_STEP { return Err(BadParams); }
        if v.value != 0.0 { nonZero := true; }
        sanitized := sanitized[axis := JNum(v.value)];
      }
    }
    if !nonZero { return Err(BadParams); }
    var feed := ParseFeed(Get(params, Feed, JNum(800.0)));
    if feed.None? { return Err(BadParams); }
    r := Ok(sanitized[Feed := JNum(feed.value)]);
  }

  // ---------------------------------------------------------------- capabilities

  predicate IsControl(c: Capability) {
    c in {Home, Pause, Resume, Stop, Estop, GetDeviceInfo}
  }

  predicate IsMove(c: Capability) {
    c == MoveAbs || c == MoveRel
  }

  predicate Generates(c: Capability) {
    c in {WriteText, DrawGenerated, Handwriting}
  }

  /** The parameters a capability needs besides path and feed; None for an unknown capability. */
  function Required(c: Capability): Option<set<Key>> {
    if c == RunPath || IsControl(c) then Some({})
    else if c == WriteText || c == Handwriting then Some({Text})
    else if c == DrawGenerated then Some({Prompt})
    else if c == MoveAbs then Some({X, Y})
    else if c == MoveRel then Some({DX, DY})
    else None
  }

  predicate HasImage(p: Params) {
    Truthy(Get(p, ImageUrl, JNull)) || Truthy(Get(p, ImageUrlCamel, JNull))
    || Truthy(Get(p, GalleryImageId, JNull)) || Truthy(Get(p, GalleryImageIdCamel, JNull))
  }

  predicate FieldPresent(c: Capability, k: Key, p: Params) {
    k in p && ((c == DrawGenerated && k == Prompt && HasImage(p)) || Truthy(p[k]))
  }

  predicate Private(k: Key) {
    k.OtherKey? && k.name != "" && k.name[0] == '_'
  }

  predicate Copied(p: Params, k: Key) {
    k in p && k != Path && k != Feed && !Private(k) && (p[k].JStr? || !Numeric(p[k]).NotANumber?)
  }

  /** Strings are cut to their limit; nothing reads a number off a copied text. */
  function CopyOf(k: Key, j: Json): Json {
    var limit := if k == PreviewSvg then 8192 else 120;
    if j.JStr? && |j.text| > limit then JStr(j.text[..limit], NotANumber) else j
  }

  function CopiesOf(p: Params, keys: set<Key>): Params {
    map k | k in keys && Copied(p, k) :: CopyOf(k, p[k])
  }

  function WithScalars(p: Params, sanitized: Params): Params {
    sanitized + CopiesOf(p, p.Keys)
  }

  lemma CopyOneMore(p: Params, sanitized: Params, keys: set<Key>, k: Key)
    ensures sanitized + CopiesOf(p, keys + {k})
      == if Copied(p, k) then (sanitized + CopiesOf(p, keys))[k := CopyOf(k, p[k])] else sanitized + CopiesOf(p, keys)
  {
    hide CopyOf;
    if Copied(p, k) {
      assert CopiesOf(p, keys + {k}) == CopiesOf(p, keys)[k := CopyOf(k, p[k])];
    } else {
      assert CopiesOf(p, keys + {k}) == CopiesOf(p, keys);
    }
  }

  /** Copy the scalar parameters one by one, in whatever order they come. */
  method CopyScalarParams(params: Params, sanitized: Params) returns (out: Params)
    ensures out == WithScalars(params, sanitized)
  {
    hide CopyOf, CopiesOf;
    out := sanitized;
    var rest := params.Keys;
    ghost var done: set<Key> := {};
    NoCopies(params, sanitized);
    while rest != {}
      invariant rest <= params.Keys && done == params.Keys - rest
      invariant out == sanitized + CopiesOf(params, done)
      decreases |rest|
    {
      var k :| k in rest;
      rest := rest - {k};
      CopyOneMore(params, sanitized, done, k);
      done := done + {k};
      if k != Path && k != Feed && !Private(k) {
        if params[k].JStr? || !Numeric(params[k]).NotANumber? {
          out := out[k := CopyOf(k, params[k])];
        }
      }
    }
    assert done == params.Keys;
  }

  lemma NoCopies(p: Params, sanitized: Params)
    ensures sanitized + CopiesOf(p, {}) == sanitized
  {
    assert CopiesOf(p, {}) == map[];
  }

  /** The feed of a generated path is clamped, with 500 for anything unreadable. */
  function ClampFeed(raw: Json): (f: real)
    ensures 1.0 <= f <= 2000.0
    ensures raw.JNum? || (raw.JStr? && raw.reading.Finite?) ==>
      var v := if raw.JNum? then raw.number else raw.reading.number;
      if v < 1.0 then f == 1.0 else if v > 2000.0 then f == 2000.0 else f == v
    ensures raw.JBool? ==> f == 1.0
    ensures !raw.JNum? && !raw.JBool? && !(raw.JStr? && raw.reading.Finite?) ==> f == 500.0
  {
    var r := if raw.JNull? then Finite(500.0) else ToFloat(raw);
    var f := if r.Finite? then r.number else 500.0;
    if f < MIN_FEED then MIN_FEED else if f > MAX_FEED then MAX_FEED else f
  }

  predicate HasPath(p: Params) {
    Path in p && p[Path].JArr? && p[Path].items != []
  }

  function NameOf(c: Capability): string {
    match c
    case RunPath => "run_path" case WriteText => "write_text" case DrawGenerated => "draw_generated"
    case DrawImage => "draw_image" case DrawFromImage => "draw_from_image" case Handwriting => "handwriting"
    case Home => "home" case MoveAbs => "move_abs" case MoveRel => "move_rel" case Pause => "pause"
    case Resume => "resume" case Stop => "stop" case Estop => "estop" case GetDeviceInfo => "get_device_info"
    case OtherCapability(name) => name
  }

  /** The part of a generated task that is kept: the clamped feed, and a path that passes the checks. */
  function ValidateGenerated(c: Capability, params: Params, profile: Option<Profile>): Checked {
    var base: Params := map[Feed := JNum(ClampFeed(Get(params, Feed, JNull))),
                            SourceCapability := AsText(Get(params, SourceCapability, Name(NameOf(c))))];
    if !HasPath(params) then Ok(base)
    else
      var checked := ValidateRunPath(params, profile);
      if checked.Err? then checked else Ok(base[Path := checked.params[Path]])
  }

  function ValidateCapability(c: Capability, params: Params, profile: Option<Profile>): Checked {
    var required := Required(c);
    if required.None? then Err(UnsupportedCapability)
    else if IsControl(c) then Ok(map[SourceCapability := AsText(Get(params, SourceCapability, Name(NameOf(c))))])
    else if c == MoveAbs then ValidateMoveAbs(params, profile)
    else if c == MoveRel then ValidateMoveRel(params)
    else
      var checked := if Generates(c) then ValidateGenerated(c, params, profile) else ValidateRunPath(params, profile);
      if checked.Err? then checked
      else if exists k :: k in required.value && !FieldPresent(c, k, params) then Err(BadParams)
      else Ok(WithScalars(params, checked.params))
  }

  // ---------------------------------------------------------------- the pop gate

  predicate Allowlisted(c: Capability) {
    c in {RunPath, WriteText, DrawGenerated, DrawImage, DrawFromImage, Handwriting, Home, MoveAbs, MoveRel, Pause, Resume,
          Stop, Estop, GetDeviceInfo}
  }

  /** validate_task_schema: an allowlisted capability, both ids present, and parameters that validate again. */
  predicate GateAccepts(body: Body, idsPresent: bool) {
    Allowlisted(body.capability) && idsPresent && ValidateCapability(body.capability, body.params, None).Ok?
  }

  // ---------------------------------------------------------------- creation

  /** Feed and path length cut to the profile before validation. */
  function ClampToProfile(params: Params, p: Profile): Params {
    var fed := if Above(Numeric(Get(params, Feed, JNull)), p.maxFeed) then params[Feed := JNum(p.maxFeed)] else params;
    if Path in fed && fed[Path].JArr? && |fed[Path].items| > p.maxPathPoints
    then fed[Path := JArr(fed[Path].items[..p.maxPathPoints])] else fed
  }

  /** Drawing intents are sent to the device as run_path. */
  function Assembled(c: Capability, sanitized: Params): Body {
    Body(if IsControl(c) || IsMove(c) then c else RunPath, sanitized)
  }

  function Constrained(body: Body, p: Profile): Body {
    body.(params := ClampToProfile(body.params, p))
  }

  /** The creation chain from the built parameters on. */
  function Create(c: Capability, params: Params, p: Profile): Option<Body> {
    var checked := ValidateCapability(c, ClampToProfile(params, p), Some(p));
    if checked.Err? then None else Some(Constrained(Assembled(c, checked.params), p))
  }

  /** The task dictionary that apply_profile_constraints changes in place. */
  class MotionTask {
    var body: Body

    constructor (body: Body)
      ensures this.body == body
    {
      this.body := body;
    }

    method CapFeed(limit: real) returns (capped: bool)
      modifies this
      ensures capped == Above(Numeric(Get(old(body).params, Feed, JNull)), limit)
      ensures body == old(body).(params := if capped then old(body).params[Feed := JNum(limit)] else old(body).params)
    {
      capped := Above(Numeric(Get(body.params, Feed, JNull)), limit);
      if capped { body := body.(params := body.params[Feed := JNum(limit)]); }
    }

    method ApplyProfileConstraints(p: Profile)
      modifies this
      ensures body == Constrained(old(body), p)
    {
      if Path in body.params && body.params[Path].JArr? && |body.params[Path].items| > p.maxPathPoints {
        body := body.(params := body.params[Path := JArr(body.params[Path].items[..p.maxPathPoints])]);
      }
      var _ := CapFeed(p.maxFeed);
    }
  }

  // ---------------------------------------------------------------- creation implies the gate

  /** A checked path is accepted again without a profile, as it is. */
  lemma RunPathAgain(params: Params, path: Json, feed: real)
    requires path.JArr? && path.items != [] && |path.items| <= MAX_PATH_POINTS && PointsOk(path.items)
    requires Path in params && params[Path] == path && Feed in params && params[Feed] == JNum(feed)
    requires MIN_FEED <= feed <= MAX_FEED
    ensures var r := ValidateCapability(RunPath, params, None);
      r.Ok? && Path in r.params && r.params[Path] == path && Feed in r.params && r.params[Feed] == JNum(feed)
  {
    hide PointsOk, NameOf, CopyOf;
  }

  lemma ConstrainedFeed(params: Params, p: Profile, feed: real)
    requires Feed in params && params[Feed] == JNum(feed)
    requires Path in params && params[Path].JArr? ==> |params[Path].items| <= p.maxPathPoints
    ensures ClampToProfile(params, p) == params[Feed := JNum(if feed > p.maxFeed then p.maxFeed else feed)]
  {
  }

  /** What validation with a profile has established about a path task. */
  predicate PathTaskOk(s: Params, p: Profile) {
    HasPath(s) && |s[Path].items| <= MAX_PATH_POINTS && |s[Path].items| <= p.maxPathPoints && PointsOk(s[Path].items)
    && PointsInside(p, s[Path].items) && BoundsOk(p, AXES)
    && Feed in s && s[Feed].JNum? && MIN_FEED <= s[Feed].number <= MAX_FEED
  }

  lemma ValidatedPath(c: Capability, params: Params, p: Profile)
    requires c == RunPath || Generates(c)
    requires ValidateCapability(c, params, Some(p)).Ok?
    ensures HasPath(params) ==> PathTaskOk(ValidateCapability(c, params, Some(p)).params, p)
    ensures !HasPath(params) ==> Path !in ValidateCapability(c, params, Some(p)).params
    ensures c == RunPath ==> HasPath(params)
  {
    hide PointsOk, PointsInside, BoundsOk, ValidateCapability, ValidateRunPath, ValidateGenerated, WithScalars;
    var base := PathCapability(c, params, p);
    ScalarsSpare(params, base);
    if c == RunPath { RunPathChecked(params, p); } else { GeneratedChecked(c, params, p); }
  }

  /** A drawing capability is its path check with the scalars copied over. */
  lemma PathCapability(c: Capability, params: Params, p: Profile) returns (base: Params)
    requires c == RunPath || Generates(c)
    requires ValidateCapability(c, params, Some(p)).Ok?
    ensures (if Generates(c) then ValidateGenerated(c, params, Some(p)) else ValidateRunPath(params, Some(p))) == Ok(base)
    ensures ValidateCapability(c, params, Some(p)).params == WithScalars(params, base)
  {
    hide ValidateGenerated, ValidateRunPath, WithScalars, NameOf, FieldPresent;
    base := (if Generates(c) then ValidateGenerated(c, params, Some(p)) else ValidateRunPath(params, Some(p))).params;
  }

  predicate SameKey(a: Params, b: Params, k: Key) {
    (k in a <==> k in b) && (k in a ==> a[k] == b[k])
  }

  /** The copied scalars are neither path nor feed. */
  lemma ScalarsSpare(params: Params, base: Params)
    ensures SameKey(WithScalars(params, base), base, Path) && SameKey(WithScalars(params, base), base, Feed)
  {
    hide CopyOf;
  }

  lemma RunPathChecked(params: Params, p: Profile)
    requires ValidateRunPath(params, Some(p)).Ok?
    ensures var s := ValidateRunPath(params, Some(p)).params;
      var feed := ParseFeed(Get(params, Feed, JNum(500.0)));
      PathTaskOk(s, p) && HasPath(params) && s[Path] == params[Path] && feed.Some? && s[Feed] == JNum(feed.value)
  {
    hide PointsOk, PointsInside, BoundsOk;
  }

  lemma GeneratedChecked(c: Capability, params: Params, p: Profile)
    requires ValidateGenerated(c, params, Some(p)).Ok?
    ensures var s := ValidateGenerated(c, params, Some(p)).params;
      if HasPath(params) then PathTaskOk(s, p) && s[Path] == params[Path] else Path !in s
  {
    hide PointsOk, PointsInside, BoundsOk, NameOf, ValidateRunPath;
    if HasPath(params) { RunPathChecked(params, p); }
  }

  /** A created drawing task passes the gate exactly when it has a path and the profile allows the least feed;
      then the gate leaves path and feed alone, and they satisfy the profile. */
  lemma PathTaskAtGate(c: Capability, params: Params, p: Profile)
    requires p.Valid() && (c == RunPath || Generates(c)) && Create(c, params, p).Some?
    ensures var body := Create(c, params, p).value;
      GateAccepts(body, true) <==> HasPath(params) && p.maxFeed >= MIN_FEED
    ensures var body := Create(c, params, p).value;
      GateAccepts(body, true) ==> SameAtGate(body) && MeetsProfile(body, p)
  {
    hide PointsOk, PointsInside, BoundsOk, ValidateCapability;
    var clamped := ClampToProfile(params, p);
    ValidatedPath(c, clamped, p);
    var s := ValidateCapability(c, clamped, Some(p)).params;
    assert HasPath(clamped) == HasPath(params);
    var body := Create(c, params, p).value;
    if HasPath(params) {
      var feed := s[Feed].number;
      ConstrainedFeed(s, p, feed);
      var last := if feed > p.maxFeed then p.maxFeed else feed;
      if p.maxFeed >= MIN_FEED { RunPathAgain(body.params, s[Path], last); } else { RunPathRefused(body.params, last); }
    } else {
      RunPathRefused(body.params, MAX_FEED);
    }
  }

  lemma RunPathRefused(params: Params, feed: real)
    requires !HasPath(params) || (Feed in params && params[Feed] == JNum(feed) && feed < MIN_FEED)
    ensures ValidateCapability(RunPath, params, None).Err?
  {
    hide PointsOk, NameOf, FieldPresent, WithScalars;
  }

  /** The gate's own result carries the same path, coordinates and feed as the task. */
  predicate SameAtGate(body: Body) {
    var r := ValidateCapability(body.capability, body.params, None);
    r.Ok? && forall k :: k in {Path, Feed, X, Y, Z, DX, DY, DZ} && k in body.params && Relevant(body.capability, k) ==>
      k in r.params && r.params[k] == body.params[k]
  }

  /** The keys that say where and how fast a capability moves. */
  predicate Relevant(c: Capability, k: Key) {
    match c
    case RunPath => k == Path || k == Feed
    case MoveAbs => k in {X, Y, Z, Feed}
    case MoveRel => k in {DX, DY, DZ, Feed}
    case _ => false
  }

  predicate MoveInside(p: Profile, params: Params) {
    X in params && Y in params && AxisInside(p, X, params[X]) && AxisInside(p, Y, params[Y])
    && (Z in params ==> AxisInside(p, Z, params[Z]))
  }

  predicate FeedWithin(p: Profile, params: Params) {
    Feed in params && params[Feed].JNum? && params[Feed].number <= p.maxFeed
  }

  predicate TargetOk(params: Params, profile: Option<Profile>) {
    MoveAxisOk(params, X, profile) && MoveAxisOk(params, Y, profile) && (Z in params ==> MoveAxisOk(params, Z, profile))
  }

  function Target(params: Params): Params {
    var flat: Params := map[SourceCapability := Name("move_abs"), X := JNum(StepOf(params, X)), Y := JNum(StepOf(params, Y))];
    if Z in params then flat[Z := JNum(StepOf(params, Z))] else flat
  }

  /** The axis loop in closed form. */
  lemma MoveAbsResult(params: Params, profile: Option<Profile>)
    ensures ValidateMoveAbs(params, profile)
      == WithFeed(if TargetOk(params, profile) then Some(Target(params)) else None, Get(params, Feed, JNum(1000.0)))
  {
    hide MoveAxisOk, AxisScalar;
    var start: Params := map[SourceCapability := Name("move_abs")];
    var axes := AbsAxes(params);
    AxisValues(params, profile, X);
    AxisValues(params, profile, Y);
    AxisValues(params, profile, Z);
    var one := start[X := JNum(StepOf(params, X))];
    var two := one[Y := JNum(StepOf(params, Y))];
    if Z in params {
      assert axes[1..] == [Y, Z] && [Y, Z][1..] == [Z] && [Z][1..] == [];
      assert MoveAbsAxes(params, [Z], profile, two)
        == if MoveAxisOk(params, Z, profile) then Some(two[Z := JNum(StepOf(params, Z))]) else None;
      assert MoveAbsAxes(params, [Y, Z], profile, one)
        == if MoveAxisOk(params, Y, profile) then MoveAbsAxes(params, [Z], profile, two) else None;
      assert two[Z := JNum(StepOf(params, Z))] == Target(params);
    } else {
      assert axes[1..] == [Y] && [Y][1..] == [];
      assert MoveAbsAxes(params, [Y], profile, one) == if MoveAxisOk(params, Y, profile) then Some(two) else None;
      assert two == Target(params);
    }
  }

  predicate JogOk(params: Params) {
    StepOk(params, DX) && StepOk(params, DY) && StepOk(params, DZ)
    && !(StepOf(params, DX) == 0.0 && StepOf(params, DY) == 0.0 && StepOf(params, DZ) == 0.0)
  }

  function Jog(params: Params): Params {
    map[SourceCapability := Name("move_rel"), DX := JNum(StepOf(params, DX)), DY := JNum(StepOf(params, DY)),
        DZ := JNum(StepOf(params, DZ))]
  }

  /** The jog loop in closed form. */
  lemma MoveRelResult(params: Params)
    ensures ValidateMoveRel(params)
      == WithFeed(if JogOk(params) then Some(Jog(params)) else None, Get(params, Feed, JNum(800.0)))
  {
    hide StepOk, StepOf;
    var start: Params := map[SourceCapability := Name("move_rel")];
    var one := start[DX := JNum(StepOf(params, DX))];
    var two := one[DY := JNum(StepOf(params, DY))];
    var n := StepOf(params, DX) != 0.0 || StepOf(params, DY) != 0.0;
    assert STEPS[1..] == [DY, DZ] && [DY, DZ][1..] == [DZ] && [DZ][1..] == [];
    assert MoveRelAxes(params, [DZ], two, n)
      == if StepOk(params, DZ) then Some((two[DZ := JNum(StepOf(params, DZ))], n || StepOf(params, DZ) != 0.0)) else None;
    assert two[DZ := JNum(StepOf(params, DZ))] == Jog(params);
  }

  lemma AxisValues(params: Params, profile: Option<Profile>, axis: Key)
    ensures MoveAxisOk(params, axis, profile) ==> AxisScalar(params, axis) == Some(StepOf(params, axis))
  {
  }

  /** An axis that a profile accepts lies in its workspace and is accepted again without it. */
  lemma AxisAgain(params: Params, again: Params, axis: Key, p: Profile)
    requires MoveAxisOk(params, axis, Some(p)) && axis in again && again[axis] == JNum(StepOf(params, axis))
    ensures AxisInside(p, axis, again[axis]) && MoveAxisOk(again, axis, None) && StepOf(again, axis) == StepOf(params, axis)
  {
  }

  lemma MoveCapability(params: Params, profile: Option<Profile>)
    ensures ValidateCapability(MoveAbs, params, profile) == ValidateMoveAbs(params, profile)
    ensures ValidateCapability(MoveRel, params, profile) == ValidateMoveRel(params)
  {
    hide ValidateMoveAbs, ValidateMoveRel, NameOf, FieldPresent, WithScalars;
  }

  /** A feed that was read once is read again as it is, unless it was cut below the least one. */
  lemma FeedAgain(raw: Json, limit: real)
    requires ParseFeed(raw).Some?
    ensures var feed := ParseFeed(raw).value; var last := if feed > limit then limit else feed;
      ParseFeed(JNum(last)) == (if last < MIN_FEED then None else Some(last)) && (last >= MIN_FEED <==> limit >= MIN_FEED)
  {
  }

  /** What is left of a feed that validation read, after the cut to the profile. */
  function CutFeed(raw: Json, p: Profile): real
    requires ParseFeed(raw).Some?
  {
    if ParseFeed(raw).value > p.maxFeed then p.maxFeed else ParseFeed(raw).value
  }

  lemma MoveAbsCreated(params: Params, p: Profile)
    requires Create(MoveAbs, params, p).Some?
    ensures var clamped := ClampToProfile(params, p);
      var raw := Get(clamped, Feed, JNum(1000.0));
      TargetOk(clamped, Some(p)) && ParseFeed(raw).Some?
      && Create(MoveAbs, params, p) == Some(Body(MoveAbs, Target(clamped)[Feed := JNum(CutFeed(raw, p))]))
  {
    hide TargetOk, ParseFeed, ValidateMoveAbs, ValidateCapability, Get;
    var clamped := ClampToProfile(params, p);
    MoveCapability(clamped, Some(p));
    MoveAbsResult(clamped, Some(p));
    var s := ValidateMoveAbs(clamped, Some(p)).params;
    ConstrainedFeed(s, p, s[Feed].number);
    var last := JNum(CutFeed(Get(clamped, Feed, JNum(1000.0)), p));
    assert s[Feed := last] == Target(clamped)[Feed := last];
  }

  lemma MoveRelCreated(params: Params, p: Profile)
    requires Create(MoveRel, params, p).Some?
    ensures var clamped := ClampToProfile(params, p);
      var raw := Get(clamped, Feed, JNum(800.0));
      JogOk(clamped) && ParseFeed(raw).Some?
      && Create(MoveRel, params, p) == Some(Body(MoveRel, Jog(clamped)[Feed := JNum(CutFeed(raw, p))]))
  {
    hide JogOk, ParseFeed, ValidateMoveRel, ValidateCapability, Get;
    var clamped := ClampToProfile(params, p);
    MoveCapability(clamped, Some(p));
    MoveRelResult(clamped);
    var s := ValidateMoveRel(clamped).params;
    ConstrainedFeed(s, p, s[Feed].number);
    var last := JNum(CutFeed(Get(clamped, Feed, JNum(800.0)), p));
    assert s[Feed := last] == Jog(clamped)[Feed := last];
  }

  /** An accepted target lies in the workspace and is accepted again without the profile. */
  lemma TargetAgain(params: Params, p: Profile, feed: real)
    requires TargetOk(params, Some(p))
    ensures var again := Target(params)[Feed := JNum(feed)];
      MoveInside(p, again) && TargetOk(again, None) && Target(again) == Target(params)
  {
    hide MoveAxisOk, AxisInside, StepOf;
    var again := Target(params)[Feed := JNum(feed)];
    AxisAgain(params, again, X, p);
    AxisAgain(params, again, Y, p);
    if Z in params { AxisAgain(params, again, Z, p); }
  }

  lemma MoveAbsAtGate(params: Params, p: Profile)
    requires p.Valid() && Create(MoveAbs, params, p).Some?
    ensures var body := Create(MoveAbs, params, p).value;
      (GateAccepts(body, true) <==> p.maxFeed >= MIN_FEED) && MoveInside(p, body.params) && FeedWithin(p, body.params)
      && (GateAccepts(body, true) ==> SameAtGate(body))
  {
    hide Create, TargetOk, Target, MoveInside, ParseFeed, ValidateMoveAbs, ValidateCapability;
    var clamped := ClampToProfile(params, p);
    var raw := Get(clamped, Feed, JNum(1000.0));
    MoveAbsCreated(params, p);
    var again := Create(MoveAbs, params, p).value.params;
    TargetAgain(clamped, p, CutFeed(raw, p));
    FeedAgain(raw, p.maxFeed);
    MoveCapability(again, None);
    MoveAbsResult(again, None);
  }

  lemma MoveRelAtGate(params: Params, p: Profile)
    requires p.Valid() && Create(MoveRel, params, p).Some?
    ensures var body := Create(MoveRel, params, p).value;
      (GateAccepts(body, true) <==> p.maxFeed >= MIN_FEED) && FeedWithin(p, body.params)
      && (GateAccepts(body, true) ==> SameAtGate(body))
  {
    hide Create, JogOk, Jog, ParseFeed, ValidateMoveRel, ValidateCapability;
    var clamped := ClampToProfile(params, p);
    var raw := Get(clamped, Feed, JNum(800.0));
    MoveRelCreated(params, p);
    var again := Create(MoveRel, params, p).value.params;
    JogAgain(clamped, CutFeed(raw, p));
    FeedAgain(raw, p.maxFeed);
    MoveCapability(again, None);
    MoveRelResult(again);
  }

  lemma JogAgain(params: Params, feed: real)
    requires JogOk(params)
    ensures var again := Jog(params)[Feed := JNum(feed)]; JogOk(again) && Jog(again) == Jog(params)
  {
  }

  /** The condition under which the pop gate keeps a created task. */
  predicate Passes(c: Capability, params: Params, p: Profile) {
    IsControl(c) || (p.maxFeed >= MIN_FEED && (IsMove(c) || HasPath(params)))
  }

  /** The task meets the profile's workspace, point and feed limits. */
  predicate MeetsProfile(body: Body, p: Profile) {
    if body.capability == RunPath then ProfileLimitError(body.params, Some(p)).None? && FeedWithin(p, body.params)
    else if body.capability == MoveAbs then MoveInside(p, body.params) && FeedWithin(p, body.params)
    else if body.capability == MoveRel then FeedWithin(p, body.params)
    else true
  }

  /** Every task that the creation chain accepts passes the pop gate exactly under `Passes`; then it meets the
      profile and the gate reads the same path, coordinates and feed. */
  lemma CreationImpliesGate(c: Capability, params: Params, p: Profile)
    requires p.Valid() && Create(c, params, p).Some?
    ensures var body := Create(c, params, p).value;
      (GateAccepts(body, true) <==> Passes(c, params, p))
      && (GateAccepts(body, true) ==> MeetsProfile(body, p) && SameAtGate(body))
  {
    hide ValidateRunPath, ValidateGenerated, ValidateMoveAbs, ValidateMoveRel, ProfileLimitError, ClampToProfile, WithScalars;
    if c == MoveAbs {
      MoveAbsAtGate(params, p);
    } else if c == MoveRel {
      MoveRelAtGate(params, p);
    } else if !IsControl(c) {
      PathTaskAtGate(c, params, p);
    }
  }

  /** The feed that a run_path request asks for: 500 when there is none, and a text is read as a number. */
  function AskedFeed(params: Params): Reading {
    var raw := Get(params, Feed, JNull);
    if raw.JNull? then Finite(500.0) else ToFloat(raw)
  }

  /** A run_path that is accepted has, before the profile constraints are applied, a feed above the profile exactly
      when its feed is a text or is missing and asks for more; the constraints then cut it. */
  lemma TextFeedSlipsThrough(p: Profile, params: Params)
    requires p.Valid() && Create(RunPath, params, p).Some?
    ensures var s := ValidateCapability(RunPath, ClampToProfile(params, p), Some(p)).params;
      var raw := Get(params, Feed, JNull);
      Feed in s && s[Feed].JNum?
      && (s[Feed].number > p.maxFeed <==> (raw.JNull? || raw.JStr?) && Above(AskedFeed(params), p.maxFeed))
    ensures Above(AskedFeed(params), p.maxFeed) ==> Create(RunPath, params, p).value.params[Feed] == JNum(p.maxFeed)
  {
    hide PointsOk, PointsInside, BoundsOk, ValidateCapability, ValidateRunPath, WithScalars;
    var clamped := ClampToProfile(params, p);
    var raw, fed := Get(params, Feed, JNull), Get(clamped, Feed, JNull);
    assert fed == if Above(Numeric(raw), p.maxFeed) then JNum(p.maxFeed) else raw;
    var base := PathCapability(RunPath, clamped, p);
    ScalarsSpare(clamped, base);
    RunPathChecked(clamped, p);
    var s := ValidateCapability(RunPath, clamped, Some(p)).params;
    assert s[Feed] == JNum(ParseFeed(Get(clamped, Feed, JNum(500.0))).value);
    ConstrainedFeed(s, p, s[Feed].number);
  }

  // ---------------------------------------------------------------- exactly which requests become tasks

  /** The value is this number; a truth value counts as one or zero. */
  predicate IsNumber(j: Json, v: real) {
    (j.JNum? && j.number == v) || (j.JBool? && v == if j.flag then 1.0 else 0.0)
  }

  /** The coordinate is a number from zero to the side of the workspace and at most 500. */
  ghost predicate FitsAxis(p: Profile, k: Key, j: Json) {
    k in p.workspace && exists v, w :: IsNumber(j, v) && IsNumber(p.workspace[k], w) && 0.0 <= v <= w && v <= 500.0
  }

  ghost predicate HasSide(p: Profile, k: Key) {
    k in p.workspace && exists w :: IsNumber(p.workspace[k], w) && w > 0.0
  }

  /** A point is an object; a coordinate that is missing is zero. */
  ghost predicate FitsPoint(p: Profile, j: Json) {
    j.JObj? && FitsAxis(p, X, if X in j.fields then j.fields[X] else JNum(0.0))
    && FitsAxis(p, Y, if Y in j.fields then j.fields[Y] else JNum(0.0))
    && FitsAxis(p, Z, if Z in j.fields then j.fields[Z] else JNum(0.0))
  }

  /** The feed that a request ends up with, None when it is refused: a number above the profile is cut to it, a text is
      read as it is, none is the default; what remains must lie from 1 to 2000. */
  function FeedFor(params: Params, limit: real, default: real): Option<real> {
    var raw := if Feed in params then params[Feed] else JNum(default);
    var feed :=
      match raw
      case JNull => Some(500.0)
      case JStr(_, reading) => if reading.Finite? then Some(reading.number) else None
      case JNum(n) => Some(if n > limit && Feed in params then limit else n)
      case JBool(b) => Some(if b && limit < 1.0 then limit else if b then 1.0 else 0.0)
      case JInfinity(negative) => if negative then None else Some(limit)
      case _ => None;
    if feed.Some? && 1.0 <= feed.value <= 2000.0 then feed else None
  }

  /** The path that is left when it is cut to the profile has 1 to 200 points, all inside a workspace with three
      positive sides. */
  ghost predicate DrawablePath(params: Params, p: Profile) {
    HasSide(p, X) && HasSide(p, Y) && HasSide(p, Z)
    && Path in params && params[Path].JArr? && params[Path].items != []
    && (|params[Path].items| <= 200 || p.maxPathPoints <= 200)
    && forall i :: 0 <= i < |params[Path].items| && i < p.maxPathPoints ==> FitsPoint(p, params[Path].items[i])
  }

  lemma NumericIs(j: Json, v: real)
    ensures IsNumber(j, v) <==> Numeric(j) == Finite(v)
  {
  }

  lemma AxisIs(p: Profile, k: Key, j: Json)
    ensures FitsAxis(p, k, j) <==> AxisInside(p, k, j) && CoordOk(j)
  {
    if AxisInside(p, k, j) && CoordOk(j) {
      var v, w := Numeric(j).number, Numeric(p.workspace[k]).number;
      NumericIs(j, v);
      NumericIs(p.workspace[k], w);
    }
    if FitsAxis(p, k, j) {
      var v, w :| IsNumber(j, v) && IsNumber(p.workspace[k], w) && 0.0 <= v <= w && v <= 500.0;
      NumericIs(j, v);
      NumericIs(p.workspace[k], w);
    }
  }

  lemma SideIs(p: Profile, k: Key)
    ensures HasSide(p, k) <==> k in p.workspace && Numeric(p.workspace[k]).Finite? && Numeric(p.workspace[k]).number > 0.0
  {
    if k in p.workspace && Numeric(p.workspace[k]).Finite? { NumericIs(p.workspace[k], Numeric(p.workspace[k]).number); }
    if HasSide(p, k) {
      var w :| IsNumber(p.workspace[k], w) && w > 0.0;
      NumericIs(p.workspace[k], w);
    }
  }

  lemma SidesAre(p: Profile)
    ensures BoundsOk(p, AXES) <==> HasSide(p, X) && HasSide(p, Y) && HasSide(p, Z)
  {
    hide HasSide;
    SideIs(p, X);
    SideIs(p, Y);
    SideIs(p, Z);
    assert AXES[1..] == [Y, Z] && [Y, Z][1..] == [Z] && [Z][1..] == [];
    assert BoundsOk(p, [Z]) <==> HasSide(p, Z);
    assert BoundsOk(p, [Y, Z]) <==> HasSide(p, Y) && HasSide(p, Z);
  }

  lemma PointIs(p: Profile, j: Json)
    ensures FitsPoint(p, j) <==> j.JObj? && PointInside(p, j.fields) && PointOk(j)
  {
    hide FitsAxis, AxisInside, CoordOk;
    if j.JObj? {
      AxisIs(p, X, Get(j.fields, X, JNum(0.0)));
      AxisIs(p, Y, Get(j.fields, Y, JNum(0.0)));
      AxisIs(p, Z, Get(j.fields, Z, JNum(0.0)));
      assert forall k :: k in AXES <==> k == X || k == Y || k == Z;
    }
  }

  lemma FeedIs(params: Params, p: Profile, default: real)
    requires 1.0 <= default <= 2000.0
    ensures ParseFeed(Get(ClampToProfile(params, p), Feed, JNum(default))) == FeedFor(params, p.maxFeed, default)
  {
  }

  /** The feed check of the profile never fails after the cut. */
  lemma CutPasses(params: Params, p: Profile)
    ensures !Above(Numeric(Get(ClampToProfile(params, p), Feed, JNull)), p.maxFeed)
    ensures var raw := Get(params, Path, JNull);
      Get(ClampToProfile(params, p), Path, JNull)
      == if raw.JArr? && |raw.items| > p.maxPathPoints then JArr(raw.items[..p.maxPathPoints]) else raw
  {
  }

  lemma PathIs(items: seq<Json>, p: Profile)
    ensures PointsInside(p, items) && PointsOk(items) <==> forall i :: 0 <= i < |items| ==> FitsPoint(p, items[i])
  {
    hide FitsPoint, PointInside, PointOk;
    forall i | 0 <= i < |items| ensures FitsPoint(p, items[i]) <==> items[i].JObj? && PointInside(p, items[i].fields) && PointOk(items[i]) {
      PointIs(p, items[i]);
    }
  }

  /** The path check of a cut request, as a condition on the request. */
  lemma RunPathCheckedIff(params: Params, p: Profile)
    requires p.Valid()
    ensures var r := ValidateRunPath(ClampToProfile(params, p), Some(p));
      && (r.Ok? <==> DrawablePath(params, p) && FeedFor(params, p.maxFeed, 500.0).Some?)
      && (r.Ok? ==> r.params[Feed] == JNum(FeedFor(params, p.maxFeed, 500.0).value)
                    && r.params[Path].items == params[Path].items[..if |params[Path].items| < p.maxPathPoints
                                                                    then |params[Path].items| else p.maxPathPoints])
  {
    hide PointsInside, PointsOk, BoundsOk, HasSide, FitsPoint, ParseFeed, Above, FeedFor, ClampToProfile;
    var cut := ClampToProfile(params, p);
    CutPasses(params, p);
    FeedIs(params, p, 500.0);
    SidesAre(p);
    var raw := Get(params, Path, JNull);
    if raw.JArr? {
      var items := Get(cut, Path, JNull).items;
      PathIs(items, p);
      assert raw.items[..|raw.items|] == raw.items;
    }
  }

  function Least(a: real, b: real): real {
    if a < b then a else b
  }

  /** The task draws these points, cut to the profile. */
  predicate DrawsItems(made: Params, items: seq<Json>, p: Profile) {
    Path in made && made[Path] == JArr(items[..if |items| < p.maxPathPoints then |items| else p.maxPathPoints])
  }

  /** A run_path request becomes a task exactly when its path is drawable and its feed passes; the task has that path,
      cut to the profile, and that feed, cut to the profile. */
  lemma RunPathCreatedIff(params: Params, p: Profile)
    requires p.Valid()
    ensures var (body, feed) := (Create(RunPath, params, p), FeedFor(params, p.maxFeed, 500.0));
      && (body.Some? <==> DrawablePath(params, p) && feed.Some?)
      && (body.Some? ==>
            body.value.capability == RunPath && DrawsItems(body.value.params, params[Path].items, p)
            && Feed in body.value.params && body.value.params[Feed] == JNum(Least(p.maxFeed, feed.value)))
  {
    hide ValidateRunPath, ClampToProfile, DrawablePath, FeedFor;
    RunPathCheckedIff(params, p);
    RunPathIs(params, p);
  }

  lemma RunPathIs(params: Params, p: Profile)
    requires p.Valid()
    ensures var (checked, body) := (ValidateRunPath(ClampToProfile(params, p), Some(p)), Create(RunPath, params, p));
      && (body.Some? <==> checked.Ok?)
      && (checked.Ok? ==> Path in checked.params && checked.params[Path].JArr? && Feed in checked.params && checked.params[Feed].JNum?)
      && (body.Some? ==>
            body.value.capability == RunPath && Path in body.value.params && body.value.params[Path] == checked.params[Path]
            && Feed in body.value.params
            && body.value.params[Feed] == JNum(if checked.params[Feed].number > p.maxFeed then p.maxFeed else checked.params[Feed].number))
  {
    hide PointsInside, PointsOk, BoundsOk;
    var cut := ClampToProfile(params, p);
    var checked := ValidateRunPath(cut, Some(p));
    if checked.Ok? {
      RunPathChecked(cut, p);
      ScalarsSpare(cut, checked.params);
      hide ClampToProfile, ValidateRunPath, WithScalars, NameOf;
      var s := WithScalars(cut, checked.params);
      ConstrainedFeed(s, p, s[Feed].number);
    }
  }

  /** A drawing capability needs its text or prompt, and with a path everything that run_path needs; an image stands in
      for a prompt. */
  ghost predicate SaysWhat(c: Capability, params: Params) {
    if c == DrawGenerated
    then
      Prompt in params
      && (Given(params, Prompt) || Given(params, ImageUrl) || Given(params, ImageUrlCamel) || Given(params, GalleryImageId)
          || Given(params, GalleryImageIdCamel))
    else Given(params, Text)
  }

  /** The value is there and says something: it is not null, false, zero or empty. */
  ghost predicate Given(params: Params, k: Key) {
    k in params && params[k] != JNull && params[k] != JBool(false) && params[k] != JNum(0.0) && params[k] != JArr([])
    && params[k] != JObj(map[]) && !(params[k].JStr? && params[k].text == "")
  }

  lemma GivenIs(params: Params, k: Key)
    ensures Given(params, k) <==> Truthy(Get(params, k, JNull))
  {
  }

  lemma SaysWhatIs(c: Capability, params: Params)
    ensures SaysWhat(c, params)
      <==> if c == DrawGenerated then Prompt in params && (Truthy(params[Prompt]) || HasImage(params))
           else Text in params && Truthy(params[Text])
  {
    hide Truthy, Given;
    GivenIs(params, Text);
    GivenIs(params, Prompt);
    GivenIs(params, ImageUrl);
    GivenIs(params, ImageUrlCamel);
    GivenIs(params, GalleryImageId);
    GivenIs(params, GalleryImageIdCamel);
    assert !Truthy(JNull) by { NullSaysNothing(); }
  }

  lemma NullSaysNothing()
    ensures !Truthy(JNull)
  {
  }

  lemma GeneratedCreatedIff(c: Capability, params: Params, p: Profile)
    requires p.Valid() && (c == WriteText || c == DrawGenerated || c == Handwriting)
    ensures var (body, feed) := (Create(c, params, p), FeedFor(params, p.maxFeed, 500.0));
      body.Some? <==> SaysWhat(c, params)
                      && (Path in params && params[Path].JArr? && params[Path].items != [] ==> DrawablePath(params, p) && feed.Some?)
  {
    var cut := ClampToProfile(params, p);
    RunPathCheckedIff(params, p);
    SaysIs(c, params, p);
    hide ClampToProfile, DrawablePath, FeedFor, ValidateRunPath, SaysWhat, FieldPresent, WithScalars, NameOf, ClampFeed;
    assert HasPath(cut) == HasPath(params) by { CutHasPath(params, p); }
  }

  lemma CutHasPath(params: Params, p: Profile)
    requires p.Valid()
    ensures HasPath(ClampToProfile(params, p)) == HasPath(params)
  {
  }

  /** The required field, of the cut request. */
  lemma SaysIs(c: Capability, params: Params, p: Profile)
    requires c == WriteText || c == DrawGenerated || c == Handwriting
    ensures var cut := ClampToProfile(params, p);
      SaysWhat(c, params) <==> !(exists k :: k in Required(c).value && !FieldPresent(c, k, cut))
  {
    SaysWhatIs(c, params);
    hide Truthy, SaysWhat;
    var cut := ClampToProfile(params, p);
    assert forall k :: k in {Text, Prompt, ImageUrl, ImageUrlCamel, GalleryImageId, GalleryImageIdCamel} ==>
      (k in cut <==> k in params) && (k in params ==> cut[k] == params[k]);
    assert HasImage(cut) == HasImage(params);
    if c == DrawGenerated {
      assert Required(c).value == {Prompt};
      assert FieldPresent(c, Prompt, cut) == SaysWhat(c, params);
    } else {
      assert Required(c).value == {Text};
      assert FieldPresent(c, Text, cut) == SaysWhat(c, params);
    }
  }

  /** A generated drawing is sent as run_path, with its path, if it brings one, cut to the profile, and the clamped feed,
      cut to the profile. */
  lemma GeneratedMade(c: Capability, params: Params, p: Profile)
    requires p.Valid() && (c == WriteText || c == DrawGenerated || c == Handwriting) && Create(c, params, p).Some?
    ensures var (body, raw) := (Create(c, params, p).value, if Feed in params then params[Feed] else JNull);
      && body.capability == RunPath && Feed in body.params
      && body.params[Feed] == JNum(Least(p.maxFeed, if raw == JInfinity(false) then 2000.0 else ClampFeed(raw)))
      && (Path in body.params <==> Path in params && params[Path].JArr? && params[Path].items != [])
      && (Path in body.params ==> DrawsItems(body.params, params[Path].items, p))
  {
    var cut := ClampToProfile(params, p);
    var base := PathCapability(c, cut, p);
    var checked := ValidateCapability(c, cut, Some(p)).params;
    assert checked == WithScalars(cut, base);
    ScalarsSpare(cut, base);
    GeneratedChecked(c, cut, p);
    ConstrainedFeed(checked, p, ClampFeed(Get(cut, Feed, JNull)));
    CutFeedOnce(params, p);
    CutHasPath(params, p);
    if HasPath(params) { CutItems(params, p); }
    hide ClampToProfile, ValidateCapability, WithScalars, ClampFeed, ValidateGenerated;
  }

  lemma CutItems(params: Params, p: Profile)
    requires HasPath(params)
    ensures ClampToProfile(params, p)[Path].items
         == params[Path].items[..if |params[Path].items| < p.maxPathPoints then |params[Path].items| else p.maxPathPoints]
  {
  }

  lemma CutFeedOnce(params: Params, p: Profile)
    requires p.Valid()
    ensures var raw := if Feed in params then params[Feed] else JNull;
      Least(p.maxFeed, ClampFeed(Get(ClampToProfile(params, p), Feed, JNull)))
      == Least(p.maxFeed, if raw == JInfinity(false) then 2000.0 else ClampFeed(raw))
  {
  }

  /** A coordinate of an absolute move is a plain number inside the workspace; a missing one is zero. */
  ghost predicate FitsTarget(params: Params, k: Key, p: Profile) {
    var j := if k in params then params[k] else JNum(0.0);
    j.JNum? && FitsAxis(p, k, j)
  }

  /** An absolute move becomes a task exactly when its coordinates fit and its feed passes. */
  lemma MoveAbsCreatedIff(params: Params, p: Profile)
    requires p.Valid()
    ensures Create(MoveAbs, params, p).Some?
      <==> FitsTarget(params, X, p) && FitsTarget(params, Y, p) && (Z in params ==> FitsTarget(params, Z, p))
           && FeedFor(params, p.maxFeed, 1000.0).Some?
  {
    hide ClampToProfile, FitsTarget, FeedFor, ParseFeed, MoveAxisOk, ValidateCapability, ValidateMoveAbs, Target;
    var cut := ClampToProfile(params, p);
    MoveCapability(cut, Some(p));
    MoveAbsResult(cut, Some(p));
    FeedIs(params, p, 1000.0);
    CutKeeps(params, p);
    TargetIs(cut, X, p);
    TargetIs(cut, Y, p);
    TargetIs(cut, Z, p);
    SameTarget(params, cut, p);
  }

  lemma CutKeeps(params: Params, p: Profile)
    ensures forall k :: k != Feed && k != Path ==> SameKey(ClampToProfile(params, p), params, k)
  {
  }

  lemma SameTarget(params: Params, cut: Params, p: Profile)
    requires SameKey(cut, params, X) && SameKey(cut, params, Y) && SameKey(cut, params, Z)
    ensures FitsTarget(cut, X, p) == FitsTarget(params, X, p) && FitsTarget(cut, Y, p) == FitsTarget(params, Y, p)
    ensures FitsTarget(cut, Z, p) == FitsTarget(params, Z, p)
  {
    hide FitsAxis;
  }

  lemma TargetIs(params: Params, k: Key, p: Profile)
    ensures MoveAxisOk(params, k, Some(p)) <==> FitsTarget(params, k, p)
  {
    AxisIs(p, k, Get(params, k, JNum(0.0)));
    hide FitsAxis;
  }

  /** A step of a jog is a plain number of at most one millimetre; a missing one is zero. */
  predicate FitsStep(params: Params, k: Key) {
    k in params ==> params[k].JNum? && -1.0 <= params[k].number <= 1.0
  }

  predicate Moves(params: Params, k: Key) {
    k in params && params[k].JNum? && params[k].number != 0.0
  }

  /** A jog becomes a task exactly when its steps fit, one of them moves, and its feed passes. */
  lemma MoveRelCreatedIff(params: Params, p: Profile)
    requires p.Valid()
    ensures Create(MoveRel, params, p).Some?
      <==> FitsStep(params, DX) && FitsStep(params, DY) && FitsStep(params, DZ)
           && (Moves(params, DX) || Moves(params, DY) || Moves(params, DZ)) && FeedFor(params, p.maxFeed, 800.0).Some?
  {
    hide ClampToProfile, FeedFor, ParseFeed, ValidateCapability, ValidateMoveRel, Jog;
    var cut := ClampToProfile(params, p);
    MoveCapability(cut, Some(p));
    MoveRelResult(cut);
    FeedIs(params, p, 800.0);
    CutKeeps(params, p);
    assert SameKey(cut, params, DX) && SameKey(cut, params, DY) && SameKey(cut, params, DZ);
  }

  /** The value that a request gives for an axis; a missing one is zero. */
  function GivenOr0(params: Params, k: Key): Json {
    if k in params then params[k] else JNum(0.0)
  }

  /** The coordinates or steps of a request, with the name of the move. */
  function MoveOf(c: Capability, params: Params): Params {
    if c == MoveRel
    then map[SourceCapability := JStr("move_rel", NotANumber), DX := GivenOr0(params, DX), DY := GivenOr0(params, DY),
             DZ := GivenOr0(params, DZ)]
    else
      var flat := map[SourceCapability := JStr("move_abs", NotANumber), X := GivenOr0(params, X), Y := GivenOr0(params, Y)];
      if Z in params then flat[Z := params[Z]] else flat
  }

  /** A move task has exactly the coordinates or steps of its request, and the feed, cut to the profile. */
  lemma MovesMade(c: Capability, params: Params, p: Profile)
    requires (c == MoveAbs || c == MoveRel) && Create(c, params, p).Some?
    ensures var feed := FeedFor(params, p.maxFeed, if c == MoveAbs then 1000.0 else 800.0);
      && feed.Some?
      && Create(c, params, p).value == Body(c, MoveOf(c, params)[Feed := JNum(Least(p.maxFeed, feed.value))])
  {
    var cut := ClampToProfile(params, p);
    CutKeeps(params, p);
    FeedIs(params, p, if c == MoveAbs then 1000.0 else 800.0);
    hide ClampToProfile, FeedFor, ParseFeed, Create, MoveOf, Target, Jog, TargetOk, JogOk;
    if c == MoveAbs {
      MoveAbsCreated(params, p);
      TargetMade(params, cut, p);
    } else {
      MoveRelCreated(params, p);
      JogMade(params, cut);
    }
  }

  lemma TargetMade(params: Params, cut: Params, p: Profile)
    requires TargetOk(cut, Some(p)) && forall k :: k != Feed && k != Path ==> SameKey(cut, params, k)
    ensures Target(cut) == MoveOf(MoveAbs, params)
  {
    hide AxisInside;
    assert SameKey(cut, params, X) && SameKey(cut, params, Y) && SameKey(cut, params, Z);
  }

  lemma JogMade(params: Params, cut: Params)
    requires JogOk(cut) && forall k :: k != Feed && k != Path ==> SameKey(cut, params, k)
    ensures Jog(cut) == MoveOf(MoveRel, params)
  {
    assert SameKey(cut, params, DX) && SameKey(cut, params, DY) && SameKey(cut, params, DZ);
  }

  /** Control requests always become tasks; image drawings and unknown capabilities never do. */
  lemma OthersCreatedIff(c: Capability, params: Params, p: Profile)
    requires c != RunPath && c != WriteText && c != DrawGenerated && c != Handwriting && c != MoveAbs && c != MoveRel
    ensures Create(c, params, p).Some?
      <==> c == Home || c == Pause || c == Resume || c == Stop || c == Estop || c == GetDeviceInfo
  {
    hide ClampToProfile, NameOf;
  }

  /** The allowlist never refuses what validates: the gate accepts a task exactly when both ids are there and its
      parameters validate. */
  lemma GateIs(body: Body, idsPresent: bool)
    ensures GateAccepts(body, idsPresent) <==> idsPresent && ValidateCapability(body.capability, body.params, None).Ok?
  {
    hide ValidateRunPath, ValidateGenerated, ValidateMoveAbs, ValidateMoveRel, WithScalars, FieldPresent, NameOf;
  }

  /** The source that a created task names: a text that the request gives, or else its own capability. */
  predicate NamesSource(c: Capability, params: Params, made: Params) {
    var given := SourceCapability in params && params[SourceCapability].JStr? && |params[SourceCapability].text| <= 120;
    && SourceCapability in made
    && (c != MoveAbs && c != MoveRel && given ==>
          made[SourceCapability].JStr? && made[SourceCapability].text == params[SourceCapability].text)
    && (SourceCapability !in params || c == MoveAbs || c == MoveRel ==>
          made[SourceCapability].JStr?
          && made[SourceCapability].text ==
             if c == RunPath then "unknown" else if c == WriteText then "write_text"
             else if c == DrawGenerated then "draw_generated" else if c == Handwriting then "handwriting"
             else if c == MoveAbs then "move_abs" else if c == MoveRel then "move_rel" else if c == Home then "home"
             else if c == Pause then "pause" else if c == Resume then "resume" else if c == Stop then "stop"
             else if c == Estop then "estop" else "get_device_info")
  }

  lemma SourceAgain(c: Capability, params: Params, made: Params, params1: Params, made1: Params)
    requires NamesSource(c, params, made) && SameKey(params, params1, SourceCapability) && SameKey(made, made1, SourceCapability)
    ensures NamesSource(c, params1, made1)
  {
  }

  lemma CreatedNamesSource(c: Capability, params: Params, p: Profile)
    requires Create(c, params, p).Some?
    ensures NamesSource(c, params, Create(c, params, p).value.params)
  {
    var cut := ClampToProfile(params, p);
    CutKeeps(params, p);
    var checked := ValidateCapability(c, cut, Some(p)).params;
    CutKeeps(checked, p);
    if c == MoveAbs || c == MoveRel {
      MoveNamesSource(c, cut, Some(p));
    } else if IsControl(c) {
      ControlNamesSource(c, cut, Some(p));
    } else {
      DrawingNamesSource(c, cut, p);
    }
    SourceAgain(c, cut, checked, params, ClampToProfile(checked, p));
  }

  lemma MoveNamesSource(c: Capability, params: Params, profile: Option<Profile>)
    requires (c == MoveAbs || c == MoveRel) && ValidateCapability(c, params, profile).Ok?
    ensures NamesSource(c, params, ValidateCapability(c, params, profile).params)
  {
    hide MoveAbsAxes, MoveRelAxes, MoveAxisOk, ParseFeed, ValidateCapability, ValidateMoveAbs, ValidateMoveRel;
    MoveCapability(params, profile);
    MoveAbsResult(params, profile);
    MoveRelResult(params);
  }

  lemma ControlNamesSource(c: Capability, params: Params, profile: Option<Profile>)
    requires IsControl(c)
    ensures ValidateCapability(c, params, profile).Ok? && NamesSource(c, params, ValidateCapability(c, params, profile).params)
  {
  }

  lemma DrawingNamesSource(c: Capability, params: Params, p: Profile)
    requires !IsControl(c) && !IsMove(c) && ValidateCapability(c, params, Some(p)).Ok?
    ensures NamesSource(c, params, ValidateCapability(c, params, Some(p)).params)
  {
    hide ValidateCapability, ValidateRunPath, ValidateGenerated;
    assert c == RunPath || Generates(c) by { Known(c, params, p); }
    var base := PathCapability(c, params, p);
    BaseNamesSource(c, params, p, base);
  }

  lemma BaseNamesSource(c: Capability, params: Params, p: Profile, base: Params)
    requires (if Generates(c) then ValidateGenerated(c, params, Some(p)) else ValidateRunPath(params, Some(p))) == Ok(base)
    ensures SourceCapability in base
    ensures base[SourceCapability]
         == AsText(Get(params, SourceCapability, if Generates(c) then Name(NameOf(c)) else JStr("unknown", NotANumber)))
  {
    hide PointsOk, ProfileLimitError, ParseFeed, AsText, NameOf;
  }

  lemma Known(c: Capability, params: Params, p: Profile)
    requires ValidateCapability(c, params, Some(p)).Ok? && !IsControl(c) && !IsMove(c)
    ensures c == RunPath || Generates(c)
  {
  }

  /** Of the other parameters a drawing task keeps the texts, cut to 120 characters, 8192 for a preview, and the
      numbers; names that begin with an underscore are dropped. */
  lemma ScalarsKept(params: Params, base: Params, k: Key)
    requires k != Path && k != Feed && k in params && k !in base
    ensures var r := WithScalars(params, base);
      var private := k.OtherKey? && k.name != "" && k.name[0] == '_';
      && (private || params[k].JNull? || params[k].JArr? || params[k].JObj? ==> k !in r)
      && (!private && params[k].JStr? ==>
            k in r && r[k].JStr?
            && r[k].text == params[k].text[..if |params[k].text| < (if k == PreviewSvg then 8192 else 120) then |params[k].text|
                                             else if k == PreviewSvg then 8192 else 120])
      && (!private && (params[k].JNum? || params[k].JBool? || params[k].JNaN? || params[k].JInfinity?) ==>
            k in r && r[k] == params[k])
  {
    if params[k].JStr? { assert params[k].text[..|params[k].text|] == params[k].text; }
  }
}
