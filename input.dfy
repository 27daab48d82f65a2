/**
  What the players react to: the keys they handle (`e.key`), clicks (on a channel item, on the
  video element, or anywhere else) and the end of a touch, reduced to the displacement since
  the touch started. A touch is classified as a swipe by the rule all players share: horizontal
  when `|dx| > |dy|` strictly, and a swipe only beyond 50 px.
*/
module Input {

  datatype Key = ArrowUp | ArrowDown | ArrowLeft | ArrowRight | Enter | Space | Escape | Backspace | KeyF | OtherKey

  /** The `e.key` value of each handled key (`KeyF` also answers to `F`). */
  function KeyName(k: Key): string
    requires k != OtherKey
  {
    match k
    case ArrowUp => "ArrowUp"
    case ArrowDown => "ArrowDown"
    case ArrowLeft => "ArrowLeft"
    case ArrowRight => "ArrowRight"
    case Enter => "Enter"
    case Space => " "
    case Escape => "Escape"
    case Backspace => "Backspace"
    case KeyF => "f"
  }

  /** The `switch (e.key)` cases: which handled key, if any, a key name denotes. */
  function KeyOf(name: string): Key {
    if name == "ArrowUp" then ArrowUp
    else if name == "ArrowDown" then ArrowDown
    else if name == "ArrowLeft" then ArrowLeft
    else if name == "ArrowRight" then ArrowRight
    else if name == "Enter" then Enter
    else if name == " " then Space
    else if name == "Escape" then Escape
    else if name == "Backspace" then Backspace
    else if name == "f" || name == "F" then KeyF
    else OtherKey
  }

  /** Every handled key is recognised by its name. */
  lemma KeyOfName(k: Key)
    requires k != OtherKey
    ensures KeyOf(KeyName(k)) == k
  {
  }

  /** Both cases of the letter toggle full screen; no other name is a handled key besides the listed ones. */
  lemma KeyOfHandled(name: string)
    ensures KeyOf(name) != OtherKey <==> name == "F" || exists k :: k != OtherKey && KeyName(k) == name
  {
    if KeyOf(name) != OtherKey && name != "F" {
      assert KeyName(KeyOf(name)) == name;
    }
  }

  const SwipeThreshold: real := 50.0

  datatype Swipe = SwipeRight | SwipeLeft | SwipeUp | SwipeDown | NoSwipe

  function Abs(x: real): real {
    if x < 0.0 then -x else x
  }

  /**
    `if (Math.abs(dx) > Math.abs(dy)) { dx > 50 … dx < -50 … } else { dy < -50 … dy > 50 … }`:
    screen coordinates grow downwards, so `dy < -50` is a swipe up.
  */
  function ClassifySwipe(dx: real, dy: real): Swipe {
    if Abs(dx) > Abs(dy) then
      if dx > SwipeThreshold then SwipeRight
      else if dx < -SwipeThreshold then SwipeLeft
      else NoSwipe
    else
      if dy < -SwipeThreshold then SwipeUp
      else if dy > SwipeThreshold then SwipeDown
      else NoSwipe
  }

  function MirrorHorizontal(s: Swipe): Swipe {
    match s
    case SwipeRight => SwipeLeft
    case SwipeLeft => SwipeRight
    case _ => s
  }

  function MirrorVertical(s: Swipe): Swipe {
    match s
    case SwipeUp => SwipeDown
    case SwipeDown => SwipeUp
    case _ => s
  }

  /** A touch is a swipe exactly when it moves more than 50 px along some axis. */
  lemma NoSwipeWithinThreshold(dx: real, dy: real)
    ensures ClassifySwipe(dx, dy) == NoSwipe <==> Abs(dx) <= SwipeThreshold && Abs(dy) <= SwipeThreshold
  {
  }

  /** Reflecting the gesture left-to-right or top-to-bottom reflects the classification. */
  lemma SwipeMirror(dx: real, dy: real)
    ensures ClassifySwipe(-dx, dy) == MirrorHorizontal(ClassifySwipe(dx, dy))
    ensures ClassifySwipe(dx, -dy) == MirrorVertical(ClassifySwipe(dx, dy))
  {
  }

  /** A diagonal gesture (`|dx| == |dy|`) counts as vertical. */
  lemma DiagonalIsVertical(dx: real, dy: real)
    requires Abs(dx) == Abs(dy)
    ensures ClassifySwipe(dx, dy) != SwipeRight && ClassifySwipe(dx, dy) != SwipeLeft
  {
  }

  /** Where a click lands: on the channel item at a display position, on the video element, or elsewhere. */
  datatype Target = ChannelItem(pos: nat) | VideoPlayer | Elsewhere

  /** A user event as the players' listeners see it. */
  datatype Event = KeyDown(key: Key) | Click(target: Target) | TouchEnd(dx: real, dy: real)
}
