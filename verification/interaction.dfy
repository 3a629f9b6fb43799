/**
 The viewer's interaction state and the two steps of every iteration of
 `App.run` (main.py): first the discrete events queued for the frame (view
 keys, Tab, R, Escape, window close), then the adjustment driven by the keys
 currently held, applied to the one transform vector the transform mode
 selects.

 Vector components are `real`, so every increment below is exact; the source
 uses Python floats, where for instance ten steps of 0.1 need not add up to 1.0.
 */
module Interaction {

  /** A 3-vector: one of translation, rotation (degrees per axis) or scale. */
  datatype Vec3 = Vec3(x: real, y: real, z: real)

  /** The model transform of the glyph. */
  datatype Pose = Pose(translation: Vec3, rotation: Vec3, scale: Vec3)

  /**
   The interaction state. `viewMode`: 0 perspective, 1 front (Oxy), 2 top (Oxz),
   3 side (Oyz). `transformMode`: 0 translate, 1 rotate, 2 scale. Both are plain
   integers as in the source; `Valid` states their ranges.
   */
  datatype State = State(viewMode: int, transformMode: int, pose: Pose, running: bool)

  /** Both modes are in range. */
  predicate Valid(s: State) {
    0 <= s.viewMode < 4 && 0 <= s.transformMode < 3
  }

  /** The pose set at start-up and restored by R (main.py:107-109, 252-255). */
  const ResetPose := Pose(Vec3(0.0, 0.0, -10.0), Vec3(0.0, 0.0, 0.0), Vec3(1.0, 1.0, 1.0))

  /** The state on entering the frame loop (main.py:107-113, 222). */
  function Initial(): (s: State)
    ensures Valid(s) && s.running
    ensures s.viewMode == 0 && s.transformMode == 0
  {
    State(0, 0, ResetPose, true)
  }

  // ---------------------------------------------------------------------------
  // Discrete events
  // ---------------------------------------------------------------------------

  /** The keys whose key-down events the viewer reacts to; every other key is `OtherKey`. */
  datatype Key = Escape | Key1 | Key2 | Key3 | Key4 | Tab | KeyR | OtherKey

  /** An event taken from the queue in one frame. */
  datatype Event = Quit | KeyDown(key: Key) | OtherEvent

  /** The event ends the loop after the current frame: window close or Escape. */
  predicate Stops(ev: Event) {
    ev == Quit || ev == KeyDown(Escape)
  }

  /** The event is a press of one of the view keys 1-4. */
  predicate SelectsView(ev: Event) {
    ev.KeyDown? && ev.key in {Key1, Key2, Key3, Key4}
  }

  /** The view mode a view key selects: keys 1, 2, 3, 4 give modes 0, 1, 2, 3. */
  function ViewOf(ev: Event): (m: int)
    requires SelectsView(ev)
    ensures 0 <= m < 4
  {
    match ev.key
    case Key1 => 0
    case Key2 => 1
    case Key3 => 2
    case Key4 => 3
  }

  /** One event (main.py:238-255). */
  function HandleEvent(s: State, ev: Event): (r: State)
    ensures Valid(s) ==> Valid(r)
    ensures r.running == (s.running && !Stops(ev))
    ensures r.pose == s.pose || r.pose == ResetPose
  {
    match ev
    case Quit => s.(running := false)
    case OtherEvent => s
    case KeyDown(k) =>
      match k
      case Escape => s.(running := false)
      case Key1 => s.(viewMode := 0)
      case Key2 => s.(viewMode := 1)
      case Key3 => s.(viewMode := 2)
      case Key4 => s.(viewMode := 3)
      case Tab => s.(transformMode := (s.transformMode + 1) % 3)
      case KeyR => s.(pose := ResetPose)
      case OtherKey => s
  }

  /** The events of one frame, in queue order. */
  function ApplyEvents(s: State, evs: seq<Event>): (r: State)
    ensures Valid(s) ==> Valid(r)
    ensures r.running ==> s.running
    decreases |evs|
  {
    if |evs| == 0 then s else ApplyEvents(HandleEvent(s, evs[0]), evs[1..])
  }

  /** Keys 1-4 select view modes 0-3 and change nothing else. */
  lemma ViewKeys(s: State)
    ensures HandleEvent(s, KeyDown(Key1)) == s.(viewMode := 0)
    ensures HandleEvent(s, KeyDown(Key2)) == s.(viewMode := 1)
    ensures HandleEvent(s, KeyDown(Key3)) == s.(viewMode := 2)
    ensures HandleEvent(s, KeyDown(Key4)) == s.(viewMode := 3)
  {
  }

  /** Window close and Escape only clear `running`. */
  lemma StopKeys(s: State)
    ensures HandleEvent(s, Quit) == s.(running := false)
    ensures HandleEvent(s, KeyDown(Escape)) == s.(running := false)
  {
  }

  /** Tab moves the transform mode to the next one modulo 3 and changes nothing else. */
  lemma TabCycles(s: State)
    ensures HandleEvent(s, KeyDown(Tab)) == s.(transformMode := (s.transformMode + 1) % 3)
    ensures 0 <= HandleEvent(s, KeyDown(Tab)).transformMode < 3
  {
  }

  /** Three Tab presses bring a state with a valid transform mode back to itself. */
  lemma ThreeTabs(s: State)
    requires 0 <= s.transformMode < 3
    ensures ApplyEvents(s, [KeyDown(Tab), KeyDown(Tab), KeyDown(Tab)]) == s
  {
    var tab := KeyDown(Tab);
    var s1 := HandleEvent(s, tab);
    var s2 := HandleEvent(s1, tab);
    var s3 := HandleEvent(s2, tab);
    assert [tab, tab, tab][1..] == [tab, tab];
    assert [tab, tab][1..] == [tab];
    assert [tab][1..] == [];
    assert ApplyEvents(s, [tab, tab, tab]) == s3;
  }

  /**
   R puts the pose back to the start-up pose whatever it was, leaves both modes
   and `running` alone, and pressing it again changes nothing.
   */
  lemma ResetKey(s: State)
    ensures HandleEvent(s, KeyDown(KeyR)).pose == Initial().pose
    ensures HandleEvent(s, KeyDown(KeyR)) == Initial().(viewMode := s.viewMode, transformMode := s.transformMode, running := s.running)
    ensures HandleEvent(HandleEvent(s, KeyDown(KeyR)), KeyDown(KeyR)) == HandleEvent(s, KeyDown(KeyR))
  {
  }

  /** After a frame's events the loop keeps running iff it was running and no event stopped it. */
  lemma {:induction false} EventsRunning(s: State, evs: seq<Event>)
    ensures ApplyEvents(s, evs).running <==> s.running && forall i :: 0 <= i < |evs| ==> !Stops(evs[i])
    decreases |evs|
  {
    if |evs| > 0 {
      EventsRunning(HandleEvent(s, evs[0]), evs[1..]);
      assert forall i :: 1 <= i < |evs| ==> evs[i] == evs[1..][i - 1];
    }
  }

  /**
   After a frame's events the view mode is the one chosen by the last view key
   among them, or the old one when there was none.
   */
  lemma {:induction false} EventsView(s: State, evs: seq<Event>)
    ensures (forall i :: 0 <= i < |evs| ==> !SelectsView(evs[i])) ==> ApplyEvents(s, evs).viewMode == s.viewMode
    ensures forall i :: 0 <= i < |evs| && SelectsView(evs[i]) && (forall j :: i < j < |evs| ==> !SelectsView(evs[j])) ==>
      ApplyEvents(s, evs).viewMode == ViewOf(evs[i])
    decreases |evs|
  {
    if |evs| > 0 {
      var s1 := HandleEvent(s, evs[0]);
      var rest := evs[1..];
      EventsView(s1, rest);
      assert forall i :: 1 <= i < |evs| ==> evs[i] == rest[i - 1];
      forall i | 0 <= i < |evs| && SelectsView(evs[i]) && (forall j :: i < j < |evs| ==> !SelectsView(evs[j]))
        ensures ApplyEvents(s, evs).viewMode == ViewOf(evs[i])
      {
        if i == 0 {
          assert forall j :: 0 <= j < |rest| ==> !SelectsView(rest[j]) by {
            forall j | 0 <= j < |rest| ensures !SelectsView(rest[j]) {
              assert rest[j] == evs[j + 1];
            }
          }
        } else {
          assert rest[i - 1] == evs[i];
          assert forall j :: i - 1 < j < |rest| ==> !SelectsView(rest[j]) by {
            forall j | i - 1 < j < |rest| ensures !SelectsView(rest[j]) {
              assert rest[j] == evs[j + 1];
            }
          }
        }
      }
    }
  }

  /**
   After a frame's events the transform mode has advanced by the number of Tab
   presses among them, modulo 3 (and is untouched when there were none).
   */
  lemma {:induction false} EventsTabs(s: State, evs: seq<Event>)
    ensures var c := multiset(evs)[KeyDown(Tab)];
      ApplyEvents(s, evs).transformMode == if c == 0 then s.transformMode else (s.transformMode + c) % 3
    decreases |evs|
  {
    if |evs| > 0 {
      var s1 := HandleEvent(s, evs[0]);
      var rest := evs[1..];
      EventsTabs(s1, rest);
      assert evs == [evs[0]] + rest;
      assert multiset(evs) == multiset([evs[0]]) + multiset(rest);
      var c1 := multiset(rest)[KeyDown(Tab)];
      var m := s.transformMode;
      if evs[0] == KeyDown(Tab) {
        assert multiset(evs)[KeyDown(Tab)] == c1 + 1;
        assert s1.transformMode == (m + 1) % 3;
        ModThreeShift(m, c1);
      } else {
        assert multiset(evs)[KeyDown(Tab)] == c1;
        assert s1.transformMode == m;
      }
    }
  }

  /** Advancing modulo 3 once and then `c` more times is advancing `c + 1` times. */
  lemma ModThreeShift(m: int, c: nat)
    ensures ((m + 1) % 3 + c) % 3 == (m + c + 1) % 3
    ensures c == 0 ==> (m + 1) % 3 == (m + c + 1) % 3
  {
    var q := (m + 1) / 3;
    assert m + 1 == 3 * q + (m + 1) % 3;
    assert (m + c + 1) == 3 * q + ((m + 1) % 3 + c);
  }

  /** After a frame's events the pose is the reset pose if R was among them, and unchanged otherwise. */
  lemma {:induction false} EventsPose(s: State, evs: seq<Event>)
    ensures ApplyEvents(s, evs).pose == if KeyDown(KeyR) in evs then ResetPose else s.pose
    decreases |evs|
  {
    if |evs| > 0 {
      var s1 := HandleEvent(s, evs[0]);
      EventsPose(s1, evs[1..]);
      assert evs == [evs[0]] + evs[1..];
      assert KeyDown(KeyR) in evs <==> evs[0] == KeyDown(KeyR) || KeyDown(KeyR) in evs[1..];
    }
  }

  // ---------------------------------------------------------------------------
  // Held keys
  // ---------------------------------------------------------------------------

  /** Which of the six adjustment keys are held in this frame. */
  datatype HeldKeys = HeldKeys(left: bool, right: bool, up: bool, down: bool, pageUp: bool, pageDown: bool)

  /** No adjustment key is held. */
  predicate NoneHeld(k: HeldKeys) {
    !k.left && !k.right && !k.up && !k.down && !k.pageUp && !k.pageDown
  }

  // Per-frame increments (main.py:259-261).
  const TranslateStep := 0.1
  const RotateStep := 2.0
  const ScaleStep := 0.05

  /** `v` decreased by `step` if `dec` is held, then increased by `step` if `inc` is held. */
  function Adjust(v: real, dec: bool, inc: bool, step: real): real {
    var v1 := if dec then v - step else v;
    if inc then v1 + step else v1
  }

  /**
   The layout shared by translate and scale: left/right on x, down/up on y,
   page-down/page-up on z (main.py:264-269, 280-285).
   */
  function Slide(v: Vec3, k: HeldKeys, step: real): Vec3 {
    Vec3(Adjust(v.x, k.left, k.right, step), Adjust(v.y, k.down, k.up, step), Adjust(v.z, k.pageDown, k.pageUp, step))
  }

  /**
   The rotate layout: up/down on x (up decreases), left/right on y,
   page-up/page-down on z (page-up decreases) (main.py:272-277).
   */
  function Turn(v: Vec3, k: HeldKeys): Vec3 {
    Vec3(Adjust(v.x, k.up, k.down, RotateStep), Adjust(v.y, k.left, k.right, RotateStep), Adjust(v.z, k.pageUp, k.pageDown, RotateStep))
  }

  /** The held-key step of one frame: only the vector selected by the transform mode moves (main.py:263-285). */
  function HeldStep(s: State, k: HeldKeys): (r: State)
    ensures r.viewMode == s.viewMode && r.transformMode == s.transformMode && r.running == s.running
    ensures s.transformMode != 0 ==> r.pose.translation == s.pose.translation
    ensures s.transformMode != 1 ==> r.pose.rotation == s.pose.rotation
    ensures s.transformMode != 2 ==> r.pose.scale == s.pose.scale
    ensures NoneHeld(k) ==> r == s
  {
    var p := s.pose;
    if s.transformMode == 0 then s.(pose := p.(translation := Slide(p.translation, k, TranslateStep)))
    else if s.transformMode == 1 then s.(pose := p.(rotation := Turn(p.rotation, k)))
    else if s.transformMode == 2 then s.(pose := p.(scale := Slide(p.scale, k, ScaleStep)))
    else s
  }

  /** +1 when only `inc` is held, -1 when only `dec` is held, 0 when both or neither are. */
  function Dir(dec: bool, inc: bool): real {
    (if inc then 1.0 else 0.0) - (if dec then 1.0 else 0.0)
  }

  /** Direction of a translate or scale adjustment for the held keys. */
  function SlideDirection(k: HeldKeys): Vec3 {
    Vec3(Dir(k.left, k.right), Dir(k.down, k.up), Dir(k.pageDown, k.pageUp))
  }

  /** Direction of a rotate adjustment for the held keys. */
  function TurnDirection(k: HeldKeys): Vec3 {
    Vec3(Dir(k.up, k.down), Dir(k.left, k.right), Dir(k.pageUp, k.pageDown))
  }

  function Plus(a: Vec3, b: Vec3): Vec3 {
    Vec3(a.x + b.x, a.y + b.y, a.z + b.z)
  }

  function Times(c: real, v: Vec3): Vec3 {
    Vec3(c * v.x, c * v.y, c * v.z)
  }

  /** Each held key moves its component by exactly one step; a key and its opposite cancel. */
  lemma AdjustIsStep(v: real, dec: bool, inc: bool, step: real)
    ensures Adjust(v, dec, inc, step) == v + step * Dir(dec, inc)
  {
  }

  /**
   One held-key step adds the step size times the key direction to the vector
   the mode selects: 0.1 for translate, 2.0 degrees for rotate, 0.05 for scale.
   */
  lemma HeldStepIncrement(s: State, k: HeldKeys)
    ensures s.transformMode == 0 ==>
      HeldStep(s, k).pose == s.pose.(translation := Plus(s.pose.translation, Times(TranslateStep, SlideDirection(k))))
    ensures s.transformMode == 1 ==>
      HeldStep(s, k).pose == s.pose.(rotation := Plus(s.pose.rotation, Times(RotateStep, TurnDirection(k))))
    ensures s.transformMode == 2 ==>
      HeldStep(s, k).pose == s.pose.(scale := Plus(s.pose.scale, Times(ScaleStep, SlideDirection(k))))
    ensures !(0 <= s.transformMode < 3) ==> HeldStep(s, k) == s
  {
  }

  /** `n` consecutive frames with the same keys held and no events. */
  function HoldFor(s: State, k: HeldKeys, n: nat): State
    decreases n
  {
    if n == 0 then s else HoldFor(HeldStep(s, k), k, n - 1)
  }

  /** Adding `a` times a vector and then `b` times it is adding `a + b` times it. */
  lemma PlusTimes(v: Vec3, d: Vec3, a: real, b: real)
    ensures Plus(Plus(v, Times(a, d)), Times(b, d)) == Plus(v, Times(a + b, d))
  {
    assert a * d.x + b * d.x == (a + b) * d.x;
    assert a * d.y + b * d.y == (a + b) * d.y;
    assert a * d.z + b * d.z == (a + b) * d.z;
  }

  /**
   Holding the same keys for `n` frames moves the selected vector by exactly `n`
   times the one-frame increment, with no clamping; the other vectors and the
   modes stay as they were.
   */
  lemma {:induction false} HoldForIncrement(s: State, k: HeldKeys, n: nat)
    ensures HoldFor(s, k, n).viewMode == s.viewMode && HoldFor(s, k, n).transformMode == s.transformMode
    ensures s.transformMode == 0 ==>
      HoldFor(s, k, n).pose == s.pose.(translation := Plus(s.pose.translation, Times(n as real * TranslateStep, SlideDirection(k))))
    ensures s.transformMode == 1 ==>
      HoldFor(s, k, n).pose == s.pose.(rotation := Plus(s.pose.rotation, Times(n as real * RotateStep, TurnDirection(k))))
    ensures s.transformMode == 2 ==>
      HoldFor(s, k, n).pose == s.pose.(scale := Plus(s.pose.scale, Times(n as real * ScaleStep, SlideDirection(k))))
    decreases n
  {
    var p := s.pose;
    if n == 0 {
      assert Plus(p.translation, Times(0.0, SlideDirection(k))) == p.translation;
      assert Plus(p.rotation, Times(0.0, TurnDirection(k))) == p.rotation;
      assert Plus(p.scale, Times(0.0, SlideDirection(k))) == p.scale;
    } else {
      var s1 := HeldStep(s, k);
      HeldStepIncrement(s, k);
      HoldForIncrement(s1, k, n - 1);
      var m := (n - 1) as real;
      assert n as real == 1.0 + m;
      PlusTimes(p.translation, SlideDirection(k), TranslateStep, m * TranslateStep);
      PlusTimes(p.rotation, TurnDirection(k), RotateStep, m * RotateStep);
      PlusTimes(p.scale, SlideDirection(k), ScaleStep, m * ScaleStep);
      assert TranslateStep + m * TranslateStep == n as real * TranslateStep;
      assert RotateStep + m * RotateStep == n as real * RotateStep;
      assert ScaleStep + m * ScaleStep == n as real * ScaleStep;
    }
  }

  /**
   Holding "scale up on x" for `n` frames from the reset pose in scale mode
   takes the x scale from 1.0 to 1.0 + 0.05 n; for 25 frames that is 2.25.
   */
  lemma ScaleUpFrames(n: nat)
    ensures HoldFor(Initial().(transformMode := 2), HeldKeys(false, true, false, false, false, false), n).pose.scale
      == Vec3(1.0 + n as real * ScaleStep, 1.0, 1.0)
    ensures n == 25 ==> 1.0 + n as real * ScaleStep == 2.25
  {
    HoldForIncrement(Initial().(transformMode := 2), HeldKeys(false, true, false, false, false, false), n);
  }

  // ---------------------------------------------------------------------------
  // Frames and the loop
  // ---------------------------------------------------------------------------

  /** What one iteration of the loop reads: the queued events and the held keys. */
  datatype FrameInput = FrameInput(events: seq<Event>, held: HeldKeys)

  /** The frame has no window-close or Escape event. */
  predicate KeepsRunning(f: FrameInput) {
    forall i :: 0 <= i < |f.events| ==> !Stops(f.events[i])
  }

  /**
   One iteration: all queued events, then the held-key step. A frame in which
   the loop is told to stop still applies its held keys (main.py:237-285).
   */
  function Frame(s: State, f: FrameInput): (r: State)
    ensures Valid(s) ==> Valid(r)
    ensures r.running == (s.running && KeepsRunning(f))
  {
    EventsRunning(s, f.events);
    HeldStep(ApplyEvents(s, f.events), f.held)
  }

  /**
   What one frame does, in terms of its events and held keys: the view mode is
   the one chosen by the frame's last view key (or stays), the transform mode
   has advanced by the frame's Tab presses, the pose starts from the reset pose
   if R was pressed, and the held keys then act on the vector selected by the
   transform mode as it stands after the Tab presses.
   */
  lemma FrameEffect(s: State, f: FrameInput)
    ensures var c := multiset(f.events)[KeyDown(Tab)];
      var m := if c == 0 then s.transformMode else (s.transformMode + c) % 3;
      var p := if KeyDown(KeyR) in f.events then ResetPose else s.pose;
      Frame(s, f).transformMode == m && Frame(s, f).pose == HeldStep(s.(transformMode := m, pose := p), f.held).pose
    ensures (forall i :: 0 <= i < |f.events| ==> !SelectsView(f.events[i])) ==> Frame(s, f).viewMode == s.viewMode
    ensures forall i :: 0 <= i < |f.events| && SelectsView(f.events[i]) && (forall j :: i < j < |f.events| ==> !SelectsView(f.events[j])) ==>
      Frame(s, f).viewMode == ViewOf(f.events[i])
  {
    EventsTabs(s, f.events);
    EventsPose(s, f.events);
    EventsView(s, f.events);
  }

  /** Where the loop ended and how many frames it ran. */
  datatype Session = Session(final: State, frames: nat)

  /** The frames `inputs` applied one after another, whatever `running` says. */
  function Frames(s: State, inputs: seq<FrameInput>): State
    decreases |inputs|
  {
    if |inputs| == 0 then s else Frames(Frame(s, inputs[0]), inputs[1..])
  }

  /**
   The loop `while running` over a supply of frame inputs: it runs frames until
   one of them stops it or the supply is exhausted (main.py:236-368). The
   final state is the frames it ran applied in order; every frame before the
   last one ran kept the loop going, and the loop ends early only because the
   last frame it ran stopped it.
   */
  function Run(s: State, inputs: seq<FrameInput>): (r: Session)
    ensures r.frames <= |inputs|
    ensures r.final == Frames(s, inputs[..r.frames])
    ensures s.running && |inputs| > 0 ==> r.frames >= 1
    ensures forall i :: 0 <= i < r.frames - 1 ==> KeepsRunning(inputs[i])
    ensures 0 < r.frames ==> (r.final.running <==> KeepsRunning(inputs[r.frames - 1]))
    ensures r.frames < |inputs| ==> !r.final.running
    ensures 0 < r.frames < |inputs| ==> !KeepsRunning(inputs[r.frames - 1])
    ensures r.final.running ==> s.running
    ensures Valid(s) ==> Valid(r.final)
    ensures !s.running ==> r == Session(s, 0)
    ensures s.running && (forall i :: 0 <= i < |inputs| ==> KeepsRunning(inputs[i])) ==>
      r.frames == |inputs| && r.final.running
    decreases |inputs|
  {
    if |inputs| == 0 || !s.running then Session(s, 0)
    else
      var rest := Run(Frame(s, inputs[0]), inputs[1..]);
      assert forall i :: 1 <= i < |inputs| ==> inputs[i] == inputs[1..][i - 1];
      assert inputs[..rest.frames + 1][1..] == inputs[1..][..rest.frames];
      Session(rest.final, rest.frames + 1)
  }

  /** A frame with no events is exactly the held-key step. */
  lemma EventFreeFrame(s: State, k: HeldKeys)
    ensures Frame(s, FrameInput([], k)) == HeldStep(s, k)
  {
  }

  /**
   A running loop fed `n` event-free frames with the same keys held runs all of
   them and ends where `n` held-key steps lead, so `HoldForIncrement` describes
   the loop itself.
   */
  lemma {:induction false} RunHeld(s: State, k: HeldKeys, n: nat)
    requires s.running
    ensures Run(s, seq(n, _ => FrameInput([], k))) == Session(HoldFor(s, k, n), n)
    decreases n
  {
    var inputs := seq(n, _ => FrameInput([], k));
    if n > 0 {
      assert inputs[0] == FrameInput([], k);
      assert inputs[1..] == seq(n - 1, _ => FrameInput([], k));
      EventFreeFrame(s, k);
      RunHeld(HeldStep(s, k), k, n - 1);
    }
  }
}
