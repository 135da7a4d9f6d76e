/**
 * The children of the clock widget's group: the glowing background plane
 * added when the clock is built, and the time text meshes that the
 * per-frame clock update swaps.
 */
module ClockFace {
  import opened Optional

  datatype ClockChild = Background | TimeText(text: string)

  /** The group as `createClock` leaves it: the background plane alone. */
  const InitialChildren: seq<ClockChild> := [Background]

  function TextCount(children: seq<ClockChild>): nat
  {
    if children == [] then 0
    else (if children[0].TimeText? then 1 else 0) + TextCount(children[1..])
  }

  /**
   * The group holds its background first and at most one time text, drawn
   * only once the font has loaded; `timeText`, when set, names the last child.
   */
  predicate GroupValid(children: seq<ClockChild>, fontLoaded: bool, timeText: Option<string>)
  {
    && |children| > 0 && children[0] == Background
    && TextCount(children) <= 1
    && (TextCount(children) > 0 ==> fontLoaded)
    && (timeText.Some? ==> children[|children| - 1] == TimeText(timeText.value))
  }

  lemma {:induction false} TextCountConcat(a: seq<ClockChild>, b: seq<ClockChild>)
    ensures TextCount(a + b) == TextCount(a) + TextCount(b)
  {
    if a == [] {
      assert a + b == b;
    } else {
      assert (a + b)[1..] == a[1..] + b;
      TextCountConcat(a[1..], b);
    }
  }

  /** `clockGroup.children.find(child => child.isText)`, as the position of the first text child. */
  method FindFirstText(children: seq<ClockChild>) returns (k: int)
    ensures -1 <= k < |children|
    ensures k >= 0 ==> children[k].TimeText?
    ensures k >= 0 ==> forall j :: 0 <= j < k ==> !children[j].TimeText?
    ensures k < 0 ==> forall j :: 0 <= j < |children| ==> !children[j].TimeText?
  {
    var i := 0;
    while i < |children|
      invariant 0 <= i <= |children|
      invariant forall j :: 0 <= j < i ==> !children[j].TimeText?
    {
      if children[i].TimeText? {
        return i;
      }
      i := i + 1;
    }
    return -1;
  }

  /** The children once the first text child, if any, is removed (`clockGroup.remove(oldText)`). */
  function DropFirstText(children: seq<ClockChild>): seq<ClockChild>
  {
    if children == [] then []
    else if children[0].TimeText? then children[1..]
    else [children[0]] + DropFirstText(children[1..])
  }

  /** Removing the child `find` located is dropping the first text child. */
  lemma {:induction false} DropFirstTextAt(children: seq<ClockChild>, k: nat)
    requires k < |children| && children[k].TimeText?
    requires forall j :: 0 <= j < k ==> !children[j].TimeText?
    ensures DropFirstText(children) == children[..k] + children[k + 1..]
  {
    if k == 0 {
      assert children[..0] + children[1..] == children[1..];
    } else {
      var rest := children[1..];
      DropFirstTextAt(rest, k - 1);
      assert children[..k] == [children[0]] + rest[..k - 1];
      assert children[k + 1..] == rest[k..];
    }
  }

  /** With no text child, there is nothing to drop. */
  lemma {:induction false} DropFirstTextNone(children: seq<ClockChild>)
    requires forall j :: 0 <= j < |children| ==> !children[j].TimeText?
    ensures DropFirstText(children) == children
  {
    if children != [] {
      DropFirstTextNone(children[1..]);
      assert children == [children[0]] + children[1..];
    }
  }

  /** Dropping the first text child removes exactly one text, when there is one. */
  lemma {:induction false} DropFirstTextCount(children: seq<ClockChild>)
    ensures TextCount(DropFirstText(children)) == if TextCount(children) > 0 then TextCount(children) - 1 else 0
    ensures |children| > 0 && !children[0].TimeText? ==> DropFirstText(children)[0] == children[0]
  {
    if children != [] && !children[0].TimeText? {
      DropFirstTextCount(children[1..]);
      var rest := DropFirstText(children[1..]);
      assert ([children[0]] + rest)[1..] == rest;
    }
  }

  /**
   * The text swap: drop the first text child, then add the new time text. A
   * group holding at most one text before holds exactly one after, the new one.
   */
  lemma SwapLeavesOneText(children: seq<ClockChild>, time: string)
    requires TextCount(children) <= 1
    ensures TextCount(DropFirstText(children) + [TimeText(time)]) == 1
  {
    DropFirstTextCount(children);
    TextCountConcat(DropFirstText(children), [TimeText(time)]);
    assert [TimeText(time)][1..] == [];
  }

  /**
   * The text swap keeps the group well formed once the font is there: the
   * background stays first and the new time text is the one and only text, last.
   */
  lemma SwapKeepsGroup(children: seq<ClockChild>, fontLoaded: bool, timeText: Option<string>, time: string)
    requires GroupValid(children, fontLoaded, timeText) && fontLoaded
    ensures GroupValid(DropFirstText(children) + [TimeText(time)], fontLoaded, Some(time))
    ensures TextCount(DropFirstText(children) + [TimeText(time)]) == 1
  {
    SwapLeavesOneText(children, time);
    DropFirstTextCount(children);
  }
}
