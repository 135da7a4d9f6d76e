/**
 * The state machine behind the crystal view button, as installed by the
 * `setupButtonInteraction` declared last in script.js (line 1200), which
 * replaces the earlier declaration of the same name. `is360View` is
 * module-level; `buttonEnabled` and `isHovered` live in the closure. Whether
 * the pointer's ray hits the button is an input.
 */
module ViewToggle {

  datatype Button = Button(is360View: bool, enabled: bool, hovered: bool)

  /** The flags right after `setupButtonInteraction` runs, while `is360View` is still false. */
  const Installed: Button := Button(false, true, false)

  /** What the mousemove handler does to the cursor. */
  datatype Cursor = KeepCursor | DefaultCursor | PointerCursor

  /** The window click handler. */
  function Click(b: Button, hit: bool): (r: Button)
    ensures r.hovered == b.hovered
    ensures b.is360View ==> !r.is360View && r.enabled
    ensures !b.is360View ==> (r.is360View <==> hit && b.enabled)
    ensures !b.is360View && r.is360View ==> !r.enabled
    ensures !b.is360View && !r.is360View ==> r == b
  {
    if b.is360View then b.(is360View := false, enabled := true)
    else if hit && b.enabled then b.(is360View := true, enabled := false)
    else b
  }

  /** The invariant every click keeps: the button is enabled exactly outside the panorama. */
  predicate Coherent(b: Button)
  {
    b.enabled == !b.is360View
  }

  lemma ClickKeepsCoherent(b: Button, hit: bool)
    requires Coherent(b)
    ensures Coherent(Click(b, hit))
  {
  }

  /** Any click after a successful entry leaves the panorama and restores the flags. */
  lemma EnterThenLeave(b: Button, hit: bool)
    requires Coherent(b) && !b.is360View
    ensures Click(b, true).is360View
    ensures Click(Click(b, true), hit) == b
  {
  }

  /** The flags after a run of clicks, given as the hit of each one. */
  function Clicks(b: Button, hits: seq<bool>): Button
    decreases |hits|
  {
    if hits == [] then b else Clicks(Click(b, hits[0]), hits[1..])
  }

  /** Whatever the clicks, `buttonEnabled == !is360View` after each of them. */
  lemma {:induction false} ClicksKeepCoherent(b: Button, hits: seq<bool>)
    requires Coherent(b)
    ensures Coherent(Clicks(b, hits))
    decreases |hits|
  {
    if hits != [] {
      ClickKeepsCoherent(b, hits[0]);
      ClicksKeepCoherent(Click(b, hits[0]), hits[1..]);
    }
  }

  /** Clicks that all miss never enter the panorama from outside it. */
  lemma {:induction false} MissesStayOutside(b: Button, hits: seq<bool>)
    requires !b.is360View
    requires forall i :: 0 <= i < |hits| ==> !hits[i]
    ensures Clicks(b, hits) == b
    decreases |hits|
  {
    if hits != [] {
      MissesStayOutside(b, hits[1..]);
    }
  }

  /**
   * The mousemove handler: nothing but the default cursor while disabled;
   * otherwise entering the button marks it hovered and leaving unmarks it.
   */
  function Hover(b: Button, hit: bool): (r: (Button, Cursor))
    ensures r.0.is360View == b.is360View && r.0.enabled == b.enabled
    ensures r.0.hovered == (if b.enabled then hit else b.hovered)
    ensures !b.enabled ==> r.1 == DefaultCursor
    ensures b.enabled ==> (r.1 != KeepCursor <==> hit != b.hovered)
    ensures r.1 == PointerCursor <==> b.enabled && hit && !b.hovered
  {
    if !b.enabled then (b, DefaultCursor)
    else if hit then
      if !b.hovered then (b.(hovered := true), PointerCursor) else (b, KeepCursor)
    else
      if b.hovered then (b.(hovered := false), DefaultCursor) else (b, KeepCursor)
  }

  /** Hovering never changes whether the panorama is shown. */
  lemma HoverKeepsCoherent(b: Button, hit: bool)
    requires Coherent(b)
    ensures Coherent(Hover(b, hit).0)
  {
  }
}
