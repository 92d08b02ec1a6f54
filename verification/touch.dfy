/** On-screen buttons: their layout, and the latch that touch and mouse
    events drive through the `activeTouches` dictionary. */
module Touch {
  import opened Settings
  import opened Geometry

  datatype Button = LeftButton | RightButton | ShootButton | JumpButton

  /** A touch identifier, or the mouse when the event has none. */
  datatype TouchId = Mouse | Finger(id: int)

  /** One changed touch of an event; `at` is `None` when its canvas
      coordinates could not be obtained. */
  datatype TouchPoint = TouchPoint(id: TouchId, at: Option<Point>)

  datatype Layout = Layout(left: Box, right: Box, shoot: Box, jump: Box)

  /** `defineButtonAreas`: square buttons of 13% of the smaller canvas side,
      the shoot button near the bottom-right corner with left and right beside
      it and jump above it, each kept at least a margin away from the top-left. */
  function ButtonAreas(gameWidth: real, gameHeight: real): (l: Layout)
    requires gameWidth > 0.0 && gameHeight > 0.0
    ensures var size := (if gameWidth <= gameHeight then gameWidth else gameHeight) * 0.13;
      && l.left.w == size && l.right.w == size && l.shoot.w == size && l.jump.w == size
      && l.left.h == size && l.right.h == size && l.shoot.h == size && l.jump.h == size
      && l.left.y == l.right.y == l.shoot.y && l.jump.x == l.shoot.x
      && l.left.x >= size * 0.15 && l.left.y >= size * 0.15 && l.jump.y >= size * 0.15
    ensures var size := (if gameWidth <= gameHeight then gameWidth else gameHeight) * 0.13;
      var margin := size * 0.15;
      // every button keeps a margin from the top and left edges
      && l.right.x >= margin && l.shoot.x >= margin && l.jump.x >= margin
      && l.right.y >= margin && l.shoot.y >= margin
      // left, shoot, right from left to right; jump not below shoot
      && l.left.x <= l.shoot.x <= l.right.x && l.jump.y <= l.shoot.y
      // where no clamping happens: the shoot button sits a margin and half a button
      // in from the right edge and two margins up from the bottom edge, and its
      // neighbours are one button and one margin away from it
      && (gameWidth - margin - size * 1.5 >= margin ==> l.shoot.x + size + margin + size / 2.0 == gameWidth)
      && (gameHeight - 2.0 * margin - size >= margin ==> l.shoot.y + size + 2.0 * margin == gameHeight)
      && (gameWidth - margin - size * 1.5 >= margin ==> l.right.x == l.shoot.x + size + margin)
      && (gameWidth - 2.0 * margin - size * 2.5 >= margin ==> l.left.x + size + margin == l.shoot.x)
      && (gameHeight - 3.0 * margin - size * 2.0 >= margin ==> l.jump.y + size + margin == l.shoot.y)
  {
    var size := (if gameWidth <= gameHeight then gameWidth else gameHeight) * 0.13;
    var margin := size * 0.15;
    var bottomMargin := margin * 2.0;
    var shootX := gameWidth - margin - size * 1.5;
    var shootY := gameHeight - bottomMargin - size;
    var leftX := shootX - margin - size;
    var rightX := shootX + margin + size;
    var jumpY := shootY - margin - size;
    Layout(Box(Clamp(margin, leftX), Clamp(margin, shootY), size, size),
           Box(Clamp(margin, rightX), Clamp(margin, shootY), size, size),
           Box(Clamp(margin, shootX), Clamp(margin, shootY), size, size),
           Box(Clamp(margin, shootX), Clamp(margin, jumpY), size, size))
  }

  function Clamp(lo: real, v: real): real { if v >= lo then v else lo }

  /** The right button is placed a button and a margin right of the shoot
      button, so on a canvas wide enough not to clamp it, half of it lies past
      the right edge of the canvas. */
  lemma RightButtonOverhangs(gameWidth: real, gameHeight: real)
    requires 0.0 < gameHeight <= gameWidth
    ensures var l := ButtonAreas(gameWidth, gameHeight);
      l.right.x + l.right.w == gameWidth + l.right.w / 2.0
  {
  }

  /** The button under a point: the first of left, right, shoot, jump whose
      rectangle (border included) holds it. */
  function ButtonAt(l: Layout, p: Point): (b: Option<Button>)
    ensures b == Some(LeftButton) <==> PointInRect(p, l.left)
    ensures b == Some(RightButton) <==> !PointInRect(p, l.left) && PointInRect(p, l.right)
    ensures b == Some(ShootButton) <==> !PointInRect(p, l.left) && !PointInRect(p, l.right) && PointInRect(p, l.shoot)
    ensures b == Some(JumpButton) <==> !PointInRect(p, l.left) && !PointInRect(p, l.right) && !PointInRect(p, l.shoot) && PointInRect(p, l.jump)
  {
    if PointInRect(p, l.left) then Some(LeftButton)
    else if PointInRect(p, l.right) then Some(RightButton)
    else if PointInRect(p, l.shoot) then Some(ShootButton)
    else if PointInRect(p, l.jump) then Some(JumpButton)
    else None
  }

  /** The input state: the `pressed` flags of the four button rectangles, the
      latched `jumpPressed` and `shootPressed`, and `activeTouches`. */
  datatype Input = Input(
    leftHeld: bool, rightHeld: bool, shootHeld: bool, jumpHeld: bool,
    jumpPressed: bool, shootPressed: bool,
    active: map<TouchId, Button>)

  const NoInput := Input(false, false, false, false, false, false, map[])

  function Held(i: Input, b: Button): bool {
    match b
    case LeftButton => i.leftHeld
    case RightButton => i.rightHeld
    case ShootButton => i.shootHeld
    case JumpButton => i.jumpHeld
  }

  function SetHeld(i: Input, b: Button, v: bool): Input {
    match b
    case LeftButton => i.(leftHeld := v)
    case RightButton => i.(rightHeld := v)
    case ShootButton => i.(shootHeld := v)
    case JumpButton => i.(jumpHeld := v)
  }

  /** A button is drawn pressed only while some active touch is on it. */
  predicate Consistent(i: Input) {
    forall b: Button :: Held(i, b) ==> b in i.active.Values
  }

  /** One touch of `handleCanvasInputStart`: a touch without coordinates or one
      already active is ignored; otherwise the button under it, if any, is
      pressed and remembered for this touch, and shoot and jump also latch. */
  function Press(i: Input, l: Layout, t: TouchPoint): Input {
    if t.at.None? || t.id in i.active then i
    else
      match ButtonAt(l, t.at.value)
      case None => i
      case Some(b) => PressOn(i, t.id, b)
  }

  /** A new touch `id` on button `b`. */
  function PressOn(i: Input, id: TouchId, b: Button): Input {
    var i1 := SetHeld(i, b, true).(active := i.active[id := b]);
    if b == ShootButton then i1.(shootPressed := true)
    else if b == JumpButton then i1.(jumpPressed := true)
    else i1
  }

  /** One touch of `handleCanvasInputEnd`: the button this touch pressed is
      released and the touch forgotten. The latches stay set. */
  function Release(i: Input, t: TouchPoint): Input {
    if t.id in i.active then SetHeld(i, i.active[t.id], false).(active := i.active - {t.id})
    else i
  }

  function PressAll(i: Input, l: Layout, ts: seq<TouchPoint>): Input
    decreases |ts|
  {
    if |ts| == 0 then i else Press(PressAll(i, l, ts[..|ts| - 1]), l, ts[|ts| - 1])
  }

  function ReleaseAll(i: Input, ts: seq<TouchPoint>): Input
    decreases |ts|
  {
    if |ts| == 0 then i else Release(ReleaseAll(i, ts[..|ts| - 1]), ts[|ts| - 1])
  }

  /** What `defineButtonAreas` does to the input, on every `resizeCanvas`: the
      four rectangles are rebuilt unpressed, while the two latches and the
      remembered touches stay. A touch that is still down no longer holds its
      button, and nothing is left held without a touch. */
  function ReleaseButtons(i: Input): (r: Input)
    ensures forall b: Button :: !Held(r, b)
    ensures r.jumpPressed == i.jumpPressed && r.shootPressed == i.shootPressed && r.active == i.active
    ensures Consistent(r)
  {
    i.(leftHeld := false, rightHeld := false, shootHeld := false, jumpHeld := false)
  }

  /** What `Player.update` does to the input when it jumps or shoots. */
  function Consume(i: Input, jumped: bool, shot: bool): (r: Input)
    ensures r.active == i.active && r.leftHeld == i.leftHeld && r.rightHeld == i.rightHeld
    ensures r.jumpPressed == (i.jumpPressed && !jumped) && r.jumpHeld == (i.jumpHeld && !jumped)
    ensures r.shootPressed == (i.shootPressed && !shot) && r.shootHeld == (i.shootHeld && !shot)
  {
    var i1 := if jumped then i.(jumpPressed := false, jumpHeld := false) else i;
    if shot then i1.(shootPressed := false, shootHeld := false) else i1
  }

  lemma PressKeepsConsistent(i: Input, l: Layout, t: TouchPoint)
    requires Consistent(i)
    ensures Consistent(Press(i, l, t))
    ensures forall b: Button :: Held(i, b) ==> Held(Press(i, l, t), b)
    ensures i.jumpPressed ==> Press(i, l, t).jumpPressed
    ensures i.shootPressed ==> Press(i, l, t).shootPressed
  {
    if t.at.Some? && t.id !in i.active {
      var hit := ButtonAt(l, t.at.value);
      if hit.Some? {
        PressOnKeepsConsistent(i, t.id, hit.value);
      }
    }
  }

  lemma PressOnKeepsConsistent(i: Input, id: TouchId, b: Button)
    requires Consistent(i) && id !in i.active
    ensures Consistent(PressOn(i, id, b))
    ensures forall c: Button :: Held(i, c) ==> Held(PressOn(i, id, b), c)
    ensures i.jumpPressed ==> PressOn(i, id, b).jumpPressed
    ensures i.shootPressed ==> PressOn(i, id, b).shootPressed
  {
    var m := i.active[id := b];
    var i1 := SetHeld(i, b, true).(active := m);
    var r := PressOn(i, id, b);
    SetHeldKeepsLatches(i, b, true);
    assert r.active == m;
    assert r == i1 || r == i1.(shootPressed := true) || r == i1.(jumpPressed := true);
    forall c: Button ensures Held(r, c) == Held(i1, c) && (Held(i, c) ==> Held(r, c)) && (Held(r, c) ==> c in m.Values) {
      HeldAfterSet(i, b, true, m, c);
      LatchesKeepHeld(i1, c);
      if c == b {
        assert m[id] == b;
      } else if Held(i, c) {
        StillOnButton(i.active, id, b, c);
      }
    }
  }

  lemma LatchesKeepHeld(i: Input, c: Button)
    ensures Held(i.(shootPressed := true), c) == Held(i, c) && Held(i.(jumpPressed := true), c) == Held(i, c)
  {
    match c
    case LeftButton =>
    case RightButton =>
    case ShootButton =>
    case JumpButton =>
  }

  /** A new touch leaves every other button's touches in place. */
  lemma StillOnButton(m: map<TouchId, Button>, k: TouchId, b: Button, c: Button)
    requires k !in m && c in m.Values
    ensures c in m[k := b].Values
  {
    var id :| id in m && m[id] == c;
    assert id != k && m[k := b][id] == c;
  }

  /** Lifting a touch that is on another button leaves this one's touches in place. */
  lemma StillOnButtonAfterLift(m: map<TouchId, Button>, k: TouchId, c: Button)
    requires k in m && m[k] != c && c in m.Values
    ensures c in (m - {k}).Values
  {
    var id :| id in m && m[id] == c;
    assert id != k && (m - {k})[id] == c;
  }

  lemma SetHeldKeepsLatches(i: Input, b: Button, v: bool)
    ensures SetHeld(i, b, v).jumpPressed == i.jumpPressed && SetHeld(i, b, v).shootPressed == i.shootPressed
    ensures SetHeld(i, b, v).active == i.active
  {
    match b
    case LeftButton =>
    case RightButton =>
    case ShootButton =>
    case JumpButton =>
  }

  lemma HeldAfterSet(i: Input, b: Button, v: bool, m: map<TouchId, Button>, c: Button)
    ensures Held(SetHeld(i, b, v).(active := m), c) == if c == b then v else Held(i, c)
  {
  }

  lemma ReleaseKeepsConsistent(i: Input, t: TouchPoint)
    requires Consistent(i)
    ensures Consistent(Release(i, t))
    ensures forall b: Button :: Held(Release(i, t), b) ==> Held(i, b)
    ensures Release(i, t).jumpPressed == i.jumpPressed && Release(i, t).shootPressed == i.shootPressed
    ensures t.id !in Release(i, t).active
  {
    if t.id in i.active {
      var b := i.active[t.id];
      var m := i.active - {t.id};
      var r := Release(i, t);
      assert r == SetHeld(i, b, false).(active := m);
      SetHeldKeepsLatches(i, b, false);
      forall c: Button ensures Held(r, c) ==> Held(i, c) && c in r.active.Values {
        HeldAfterSet(i, b, false, m, c);
        if Held(r, c) {
          StillOnButtonAfterLift(i.active, t.id, c);
        }
      }
    }
  }

  /** A whole touch-start event keeps the latch consistent and presses nothing
      it does not hold a touch for. */
  lemma {:induction false} PressAllKeepsConsistent(i: Input, l: Layout, ts: seq<TouchPoint>)
    requires Consistent(i)
    ensures Consistent(PressAll(i, l, ts))
    ensures forall b: Button :: Held(i, b) ==> Held(PressAll(i, l, ts), b)
    decreases |ts|
  {
    if |ts| > 0 {
      PressAllKeepsConsistent(i, l, ts[..|ts| - 1]);
      PressKeepsConsistent(PressAll(i, l, ts[..|ts| - 1]), l, ts[|ts| - 1]);
    }
  }

  /** A whole touch-end event keeps the latch consistent, forgets its touches
      and leaves the jump and shoot latches as they were. */
  lemma {:induction false} ReleaseAllKeepsConsistent(i: Input, ts: seq<TouchPoint>)
    requires Consistent(i)
    ensures var r := ReleaseAll(i, ts);
      && Consistent(r)
      && r.jumpPressed == i.jumpPressed && r.shootPressed == i.shootPressed
      && (forall k :: 0 <= k < |ts| ==> ts[k].id !in r.active)
    decreases |ts|
  {
    if |ts| > 0 {
      var r0 := ReleaseAll(i, ts[..|ts| - 1]);
      ReleaseAllKeepsConsistent(i, ts[..|ts| - 1]);
      ReleaseKeepsConsistent(r0, ts[|ts| - 1]);
      forall k | 0 <= k < |ts| ensures ts[k].id !in Release(r0, ts[|ts| - 1]).active {
        if k < |ts| - 1 {
          assert ts[..|ts| - 1][k] == ts[k];
        }
      }
    }
  }

  lemma ConsumeKeepsConsistent(i: Input)
    requires Consistent(i)
    ensures forall jumped: bool, shot: bool :: Consistent(Consume(i, jumped, shot))
  {
    forall jumped: bool, shot: bool ensures Consistent(Consume(i, jumped, shot)) {
      var r := Consume(i, jumped, shot);
      forall b: Button | Held(r, b) ensures b in r.active.Values {
        assert Held(i, b);
      }
    }
  }

  /** Two fingers on the left button: lifting the first releases the button
      although the second is still on it. */
  lemma LiftingOneOfTwoFingersReleases(l: Layout, p: Point)
    requires PointInRect(p, l.left)
    ensures var i := PressAll(NoInput, l, [TouchPoint(Finger(1), Some(p)), TouchPoint(Finger(2), Some(p))]);
      && i.leftHeld && i.active == map[Finger(1) := LeftButton, Finger(2) := LeftButton]
      && !Release(i, TouchPoint(Finger(1), None)).leftHeld
      && Release(i, TouchPoint(Finger(1), None)).active == map[Finger(2) := LeftButton]
  {
    var ts := [TouchPoint(Finger(1), Some(p)), TouchPoint(Finger(2), Some(p))];
    assert ts[..1] == [ts[0]] && ts[..1][..0] == [];
    var i1 := Press(NoInput, l, ts[0]);
    assert PressAll(NoInput, l, ts[..1]) == i1;
    assert i1 == NoInput.(leftHeld := true, active := map[Finger(1) := LeftButton]);
    var i2 := Press(i1, l, ts[1]);
    assert PressAll(NoInput, l, ts) == i2;
    assert i2 == i1.(active := map[Finger(1) := LeftButton, Finger(2) := LeftButton]);
    assert i2.active - {Finger(1)} == map[Finger(2) := LeftButton];
  }
}
