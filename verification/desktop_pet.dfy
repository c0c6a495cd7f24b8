/**
 * The animation selection of the desktop pet window: which animation plays,
 * driven by mouse presses, moves and releases and by the one-shot timers a
 * left press arms. Time is one monotone millisecond clock passed in as `now`;
 * each armed timer is kept as its deadline until it fires.
 */
module AnimationMachine {

  datatype Option<T> = None | Some(value: T)

  /** A mouse position relative to the window. */
  datatype Point = Point(x: int, y: int)

  datatype Button = LeftButton | RightButton | MiddleButton

  /** The animation table: name to GIF file, as the configuration lists it. */
  const Animations: map<string, string> := map[
    "idle" := "assets/idle.gif",
    "click" := "assets/click.gif",
    "eye_left" := "assets/eye_left.gif",
    "eye_right" := "assets/eye_right.gif",
    "eye_up" := "assets/eye_up.gif",
    "eye_down" := "assets/eye_down.gif"
  ]

  // The window is fixed at 240 x 240, so its centre is exactly (120, 120).
  const WindowWidth := 240
  const WindowHeight := 240
  const CenterX := WindowWidth / 2
  const CenterY := WindowHeight / 2
  // Offsets from the centre up to this many pixels ask for idle.
  const LookThreshold := 40
  // Moves closer than this to the last animation change are ignored.
  const RateLimitMs := 150
  // A left press returns to idle this long afterwards.
  const ClickHoldMs := 1000

  function Abs(v: int): (a: nat)
    ensures a == v || a == -v
  {
    if v < 0 then -v else v
  }

  /** The mouse is far enough from the centre to look somewhere. */
  predicate OffCentre(pos: Point)
  {
    Abs(pos.x - CenterX) > LookThreshold || Abs(pos.y - CenterY) > LookThreshold
  }

  /** The horizontal offset strictly dominates the vertical one. */
  predicate Horizontal(pos: Point)
  {
    Abs(pos.x - CenterX) > Abs(pos.y - CenterY)
  }

  /** The animation name the move handler asks for at this mouse position. */
  function LookRequest(pos: Point): (name: string)
    ensures name == "idle" <==> !OffCentre(pos)
    ensures name == "look_left" <==> OffCentre(pos) && Horizontal(pos) && pos.x < CenterX
    ensures name == "look_right" <==> OffCentre(pos) && Horizontal(pos) && pos.x >= CenterX
    ensures name == "look_up" <==> OffCentre(pos) && !Horizontal(pos) && pos.y < CenterY
    ensures name == "look_down" <==> OffCentre(pos) && !Horizontal(pos) && pos.y >= CenterY
  {
    if OffCentre(pos) then
      if Horizontal(pos) then
        if pos.x < CenterX then "look_left" else "look_right"
      else
        if pos.y < CenterY then "look_up" else "look_down"
    else "idle"
  }

  /** Equal offsets on both axes, beyond the threshold, look vertically. */
  lemma TiesGoVertical(pos: Point)
    requires Abs(pos.x - CenterX) == Abs(pos.y - CenterY) > LookThreshold
    ensures LookRequest(pos) == (if pos.y < CenterY then "look_up" else "look_down")
  {
  }

  /** Mirroring the mouse across the vertical centre line swaps left and right. */
  lemma MirrorSwapsLeftRight(pos: Point)
    requires LookRequest(pos) == "look_left"
    ensures LookRequest(Point(WindowWidth - pos.x, pos.y)) == "look_right"
  {
  }

  /**
   * The animation change_animation leaves current: the same name changes
   * nothing, a name of the table is shown, and any other name falls back to idle.
   */
  function Resolve(current: string, name: string): (next: string)
    ensures current in Animations ==> next in Animations
    ensures name in Animations ==> next == name
    ensures name != current && name !in Animations ==> next == "idle"
    ensures name == current ==> next == current
  {
    if name == current then current
    else if name in Animations then name
    else "idle"
  }

  /**
   * As written, every directional request names an animation the table does
   * not hold, so an evaluated move always leaves the pet idle.
   */
  lemma MoveAlwaysEndsIdle(current: string, pos: Point)
    requires current in Animations
    ensures Resolve(current, LookRequest(pos)) == "idle"
  {
    var name := LookRequest(pos);
    assert name in {"idle", "look_left", "look_right", "look_up", "look_down"};
  }

  /** The table name the directional request evidently means (look_x is eye_x). */
  function IntendedLook(pos: Point): (name: string)
    ensures name in Animations
    ensures name == "idle" <==> !OffCentre(pos)
    ensures name == "eye_left" <==> LookRequest(pos) == "look_left"
    ensures name == "eye_right" <==> LookRequest(pos) == "look_right"
    ensures name == "eye_up" <==> LookRequest(pos) == "look_up"
    ensures name == "eye_down" <==> LookRequest(pos) == "look_down"
  {
    match LookRequest(pos)
    case "look_left" => "eye_left"
    case "look_right" => "eye_right"
    case "look_up" => "eye_up"
    case "look_down" => "eye_down"
    case _ => "idle"
  }

  /** With the intended names, an off-centre move shows the matching eye animation. */
  lemma IntendedLookIsShown(current: string, pos: Point)
    requires current in Animations && OffCentre(pos)
    ensures Resolve(current, IntendedLook(pos)) == IntendedLook(pos) != "idle"
    ensures Resolve(current, IntendedLook(pos)) == "eye_left" <==> LookRequest(pos) == "look_left"
    ensures Resolve(current, IntendedLook(pos)) == "eye_right" <==> LookRequest(pos) == "look_right"
    ensures Resolve(current, IntendedLook(pos)) == "eye_up" <==> LookRequest(pos) == "look_up"
    ensures Resolve(current, IntendedLook(pos)) == "eye_down" <==> LookRequest(pos) == "look_down"
  {
  }

  class DesktopPet {
    var currentAnimation: string
    var isFollowing: bool
    var offset: Option<Point>
    var lastAnimationChange: int
    // The latest time any event was seen, and the deadlines of the armed timers.
    var clock: int
    var pending: seq<int>

    ghost predicate Valid()
      reads this
    {
      currentAnimation in Animations &&
      (isFollowing ==> offset.Some?) &&
      (forall i, j :: 0 <= i < j < |pending| ==> pending[i] <= pending[j]) &&
      (forall i :: 0 <= i < |pending| ==> pending[i] <= clock + ClickHoldMs)
    }

    /** Moves drag the window instead of moving the eyes. */
    predicate Dragging()
      reads this
    {
      isFollowing && offset.Some?
    }

    constructor (now: int)
      ensures Valid()
      ensures currentAnimation == "idle" && !isFollowing && offset == None
      ensures lastAnimationChange == 0 && clock == now && pending == []
    {
      currentAnimation := "idle";
      isFollowing := false;
      offset := None;
      lastAnimationChange := 0;
      clock := now;
      pending := [];
    }

    method ChangeAnimation(name: string)
      requires Valid()
      modifies this`currentAnimation
      ensures Valid()
      ensures currentAnimation == Resolve(old(currentAnimation), name)
    {
      if currentAnimation != name {
        if name in Animations {
          currentAnimation := name;
        } else {
          ReturnToIdle();
        }
      }
    }

    method ReturnToIdle()
      requires Valid()
      modifies this`currentAnimation
      ensures Valid()
      ensures currentAnimation == "idle"
    {
      currentAnimation := "idle";
    }

    /** A left press starts a drag, shows the click animation and arms a return to idle. */
    method MousePress(button: Button, pos: Point, now: int)
      requires Valid() && clock <= now
      modifies this
      ensures Valid() && clock == now
      ensures lastAnimationChange == old(lastAnimationChange)
      ensures button == LeftButton ==>
                currentAnimation == "click" && isFollowing && offset == Some(pos) &&
                pending == old(pending) + [now + ClickHoldMs]
      ensures button != LeftButton ==>
                currentAnimation == old(currentAnimation) && isFollowing == old(isFollowing) &&
                offset == old(offset) && pending == old(pending)
    {
      clock := now;
      if button == LeftButton {
        offset := Some(pos);
        isFollowing := true;
        ChangeAnimation("click");
        pending := pending + [now + ClickHoldMs];
      }
    }

    /**
     * A move outside a drag, at least RateLimitMs after the last change and
     * not during the click animation, asks for the look at `pos` and stamps
     * the change time; every other move changes no animation state.
     */
    method MouseMove(pos: Point, now: int)
      requires Valid() && clock <= now
      modifies this
      ensures Valid() && clock == now
      ensures isFollowing == old(isFollowing) && offset == old(offset) && pending == old(pending)
      ensures old(Dragging()) || now - old(lastAnimationChange) < RateLimitMs || old(currentAnimation) == "click"
              ==> currentAnimation == old(currentAnimation) && lastAnimationChange == old(lastAnimationChange)
      ensures !old(Dragging()) && now - old(lastAnimationChange) >= RateLimitMs && old(currentAnimation) != "click"
              ==> currentAnimation == Resolve(old(currentAnimation), LookRequest(pos)) &&
                  currentAnimation == "idle" && lastAnimationChange == now
    {
      clock := now;
      if isFollowing && offset.Some? {
        // The window follows the mouse; nothing of the animation state changes.
        return;
      }
      if now - lastAnimationChange < RateLimitMs {
        return;
      }
      if currentAnimation != "click" {
        MoveAlwaysEndsIdle(currentAnimation, pos);
        ChangeAnimation(LookRequest(pos));
        lastAnimationChange := now;
      }
    }

    /** Any release ends the drag; the recorded offset stays. */
    method MouseRelease()
      requires Valid()
      modifies this`isFollowing
      ensures Valid() && !isFollowing
    {
      isFollowing := false;
    }

    /** The earliest armed timer fires and returns the pet to idle, whatever it shows. */
    method TimeoutFires()
      requires Valid() && pending != []
      modifies this
      ensures Valid() && currentAnimation == "idle"
      ensures pending == old(pending)[1..]
      ensures clock == if old(pending)[0] > old(clock) then old(pending)[0] else old(clock)
      ensures isFollowing == old(isFollowing) && offset == old(offset)
      ensures lastAnimationChange == old(lastAnimationChange)
    {
      if pending[0] > clock {
        clock := pending[0];
      }
      pending := pending[1..];
      ReturnToIdle();
    }
  }

  /**
   * Two left presses 500 ms apart arm two timers; the first one, 1000 ms after
   * the first press, already ends the click animation, and one timer is left.
   */
  method SecondPressDoesNotExtendClick(pos: Point) returns (shown: string, left: nat)
    ensures shown == "idle" && left == 1
  {
    var pet := new DesktopPet(0);
    pet.MousePress(LeftButton, pos, 0);
    pet.MouseRelease();
    pet.MousePress(LeftButton, pos, 500);
    pet.MouseRelease();
    assert pet.currentAnimation == "click" && pet.pending == [1000, 1500];
    pet.TimeoutFires();
    shown, left := pet.currentAnimation, |pet.pending|;
  }

  /** During the click animation a far move changes nothing, even past the rate limit. */
  method ClickSuppressesLook(pos: Point) returns (shown: string, stamp: int)
    ensures shown == "click" && stamp == 0
  {
    var pet := new DesktopPet(0);
    pet.MousePress(LeftButton, Point(CenterX, CenterY), 200);
    pet.MouseRelease();
    pet.MouseMove(pos, 400);
    shown, stamp := pet.currentAnimation, pet.lastAnimationChange;
  }
}
