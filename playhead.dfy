/** The playhead: a marker over the ruler placed at the current time. When
    the ruler scrolls, its on-screen position is the time minus the ruler's
    horizontal scroll, and it is hidden once that position leaves the visible
    width widened by the ruler's left padding. */
module Playhead {
  import opened Wrappers

  const RULER_PADDING_LEFT: real := 16.0

  /** Where the scroll handler puts the playhead. */
  datatype Placement = Hidden | Visible(pos: real)

  /** The two properties of the ruler node the scroll handler reads. */
  datatype RulerView = RulerView(scrollLeft: real, clientWidth: real)

  /** The position and visibility rule of `resolvePlayheadPosition`. */
  function Resolve(time: real, ruler: RulerView): (p: Placement)
    ensures p.Visible? ==> p.pos == time - ruler.scrollLeft
    ensures p.Hidden? <==>
      time - ruler.scrollLeft < -RULER_PADDING_LEFT ||
      time - ruler.scrollLeft + RULER_PADDING_LEFT > ruler.clientWidth
  {
    var pos := time - ruler.scrollLeft;
    var isHidden := pos < -RULER_PADDING_LEFT || pos + RULER_PADDING_LEFT > ruler.clientWidth;
    if isHidden then Hidden else Visible(pos)
  }

  /** A visible playhead sits between -16 and 16 short of the ruler's width. */
  lemma {:induction false} VisibleWithinPaddedViewport(time: real, ruler: RulerView)
    requires Resolve(time, ruler).Visible?
    ensures var pos := Resolve(time, ruler).pos;
      -RULER_PADDING_LEFT <= pos <= ruler.clientWidth - RULER_PADDING_LEFT
  {
  }

  /** Moving the time and the scroll by the same amount changes nothing. */
  lemma {:induction false} ResolveTranslationInvariant(time: real, ruler: RulerView, d: real)
    ensures Resolve(time + d, RulerView(ruler.scrollLeft + d, ruler.clientWidth)) == Resolve(time, ruler)
  {
  }

  /** For a fixed time and width, the scroll offsets that show the playhead
      form an interval: whatever lies between two of them shows it too. */
  lemma {:induction false} VisibleScrollsAreInterval(time: real, width: real, s1: real, s: real, s2: real)
    requires s1 <= s <= s2
    requires Resolve(time, RulerView(s1, width)).Visible? && Resolve(time, RulerView(s2, width)).Visible?
    ensures Resolve(time, RulerView(s, width)) == Visible(time - s)
  {
  }

  /** The playhead DOM node: the `hidden` class and the x offset of its
      `translateX(calc(<offset>px - 50%))` transform are updated in place.
      The ruler's scroll listener is re-attached only when the node behind
      the ref changes, so the handler it runs keeps the `time` of the render
      in which the node arrived, not the current one. */
  class PlayheadNode {
    var time: real          // the `time` prop of the last render
    var mounted: bool       // the ref holds the node
    var listenerTime: real  // the `time` the attached scroll handler closes over
    var hidden: bool        // the class list holds 'hidden'
    var offset: real        // the px part of the transform

    /** The first render styles the node at `time`; the ref is not set yet. */
    constructor (time: real)
      ensures this.time == time && !mounted && !hidden && offset == time
    {
      this.time := time;
      mounted := false;
      listenerTime := time;
      hidden := false;
      offset := time;
    }

    /** The ref callback keeps the last non-null node; a null leaves it. A new
        node changes the listener effect's dependency, so the effect attaches
        a handler that reads the `time` of this render. */
    method HandleRefPlayhead(node: bool)
      modifies this`mounted, this`listenerTime
      ensures mounted == (old(mounted) || node)
      ensures listenerTime == if node then time else old(listenerTime)
    {
      if node {
        mounted := true;
        listenerTime := time;
      }
    }

    /** A later render with a new `time`: the style prop changed, so the
        transform is rewritten from `time` itself, not from the scroll. The
        listener's dependencies did not change, so it is not re-attached. */
    method Render(newTime: real)
      modifies this`time, this`offset
      ensures time == newTime
      ensures offset == if newTime != old(time) then newTime else old(offset)
    {
      if newTime != time {
        time := newTime;
        offset := newTime;
      }
    }

    /** The ruler's scroll handler (its animation frame run at once), as the
        attached listener runs it: with the time it captured. */
    method ResolvePlayheadPosition(ruler: Option<RulerView>)
      modifies this`hidden, this`offset
      ensures ruler.None? || !mounted ==> hidden == old(hidden) && offset == old(offset)
      ensures ruler.Some? && mounted ==>
        match Resolve(listenerTime, ruler.value)
        case Hidden => hidden && offset == old(offset)
        case Visible(pos) => !hidden && offset == pos
    {
      if ruler.None? || !mounted {
        return;
      }
      var playheadPosition := listenerTime - ruler.value.scrollLeft;
      var isHidden := playheadPosition < -RULER_PADDING_LEFT ||
        playheadPosition + RULER_PADDING_LEFT > ruler.value.clientWidth;
      if isHidden {
        hidden := true;
      } else {
        hidden := false;
        offset := playheadPosition;
      }
    }
  }
}
