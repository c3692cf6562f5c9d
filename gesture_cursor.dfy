/** The gesture cursor overlay: where the cursor sits for a normalised hand
    position (mirrored horizontally, as a front camera's image is), which
    emoji it shows for a recognised gesture, and when it is shown at all. */
module GestureCursor {
  import opened Guards

  /** The seven gestures the recogniser names. */
  datatype Gesture = OpenPalm | ClosedFist | ThumbUp | ThumbDown | ILoveYou | Victory | PointingUp

  /** The recogniser's label for each gesture. */
  function Label(g: Gesture): string
  {
    match g
    case OpenPalm => "Open_Palm"
    case ClosedFist => "Closed_Fist"
    case ThumbUp => "Thumb_Up"
    case ThumbDown => "Thumb_Down"
    case ILoveYou => "ILoveYou"
    case Victory => "Victory"
    case PointingUp => "Pointing_Up"
  }

  /** The gesture a label names, if any. */
  function ParseLabel(s: string): (r: Option<Gesture>)
    ensures r.Some? ==> Label(r.value) == s
  {
    if s == "Open_Palm" then Some(OpenPalm)
    else if s == "Closed_Fist" then Some(ClosedFist)
    else if s == "Thumb_Up" then Some(ThumbUp)
    else if s == "Thumb_Down" then Some(ThumbDown)
    else if s == "ILoveYou" then Some(ILoveYou)
    else if s == "Victory" then Some(Victory)
    else if s == "Pointing_Up" then Some(PointingUp)
    else None
  }

  /** Every gesture's label reads back as that gesture. */
  lemma LabelRoundTrip(g: Gesture)
    ensures ParseLabel(Label(g)) == Some(g)
  {
  }

  /** `gestureEmoji`, keyed by label. */
  const GestureEmoji: map<string, string> := map[
    "Open_Palm" := "\U{1F44B}",
    "Closed_Fist" := "\U{270A}",
    "Thumb_Up" := "\U{1F44D}",
    "Thumb_Down" := "\U{1F44E}",
    "ILoveYou" := "\U{1F918}",
    "Victory" := "\U{270C}",
    "Pointing_Up" := "\U{261D}"
  ]

  /** The table has an entry for exactly the seven gesture labels. */
  lemma TableCoversLabels(s: string)
    ensures s in GestureEmoji <==> ParseLabel(s).Some?
  {
  }

  /** The emoji shown for a gesture: looked up by its label, always present,
      and a single visible character (one code point). */
  function Emoji(g: Gesture): (e: string)
    ensures Label(g) in GestureEmoji && e == GestureEmoji[Label(g)]
    ensures |e| == 1
  {
    GestureEmoji[Label(g)]
  }

  /** No two gestures share an emoji. */
  lemma EmojiDistinct(g: Gesture, h: Gesture)
    ensures Emoji(g) == Emoji(h) ==> g == h
  {
  }

  /** A hand position in camera-normalised coordinates. */
  datatype Coords = Coords(x: real, y: real)

  /** The horizontal translation in percent: the mirror image of `x`.
      Reading the offset back gives `x` again. */
  function OffsetX(x: real): (r: real)
    ensures x == 1.0 - r / 100.0
    ensures x == 0.0 ==> r == 100.0
    ensures x == 1.0 ==> r == 0.0
    ensures 0.0 <= x <= 1.0 ==> 0.0 <= r <= 100.0
  {
    (1.0 - x) * 100.0
  }

  /** The vertical translation in percent. Reading it back gives `y` again. */
  function OffsetY(y: real): (r: real)
    ensures y == r / 100.0
    ensures y == 0.0 ==> r == 0.0
    ensures y == 1.0 ==> r == 100.0
    ensures 0.0 <= y <= 1.0 ==> 0.0 <= r <= 100.0
  {
    y * 100.0
  }

  /** Moving the hand right moves the cursor left; moving it down moves the
      cursor down. */
  lemma OffsetsMonotone(a: real, b: real)
    requires a < b
    ensures OffsetX(a) > OffsetX(b)
    ensures OffsetY(a) < OffsetY(b)
  {
  }

  /** What the overlay renders. */
  datatype Cursor = Cursor(translateX: real, translateY: real, emoji: string)

  /** The overlay: shown exactly when both a position and a gesture are
      present, at the mirrored position, with that gesture's emoji. */
  function View(coords: Option<Coords>, gesture: Option<Gesture>): (r: Option<Cursor>)
    ensures r.Some? <==> coords.Some? && gesture.Some?
    ensures r.Some? ==> coords.value.x == 1.0 - r.value.translateX / 100.0
    ensures r.Some? ==> coords.value.y == r.value.translateY / 100.0
    ensures r.Some? ==> r.value.emoji == GestureEmoji[Label(gesture.value)]
  {
    match ShowWhen(coords, gesture)
    case None => None
    case Some((c, g)) => Some(Cursor(OffsetX(c.x), OffsetY(c.y), Emoji(g)))
  }
}
