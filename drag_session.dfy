/**
  The preview across a drag, under a modelling assumption about the host:
  the calculator is called once per monitor notification, with the child ref
  as the previous notification's render left it. The `ref` sits on the
  guarded div, so under that assumption the ref holds the preview element
  exactly when the previous notification rendered it, and the unmeasured
  fallback is used only for the first frame after the preview appears.
 */
module DragSession {

  import opened Wrappers
  import opened DragPreview

  /** One monitor notification, with the box the preview element measures if
      it is mounted at that moment. */
  datatype Tick = Tick(monitor: Monitor, rect: Box)

  /** The child ref: the rendered element when it is mounted, null otherwise. */
  function ChildRef(mounted: bool, rect: Box): (r: Option<Element>)
    ensures r.Some? <==> mounted
    ensures mounted ==> Measure(r) == Some(rect)
  {
    if mounted then Some(Element(Some(rect))) else None
  }

  /** The translation rendered at one notification. */
  function Frame(t: Tick, mounted: bool): (r: Option<Point>)
    ensures r.Some? <==> Visible(t.monitor)
  {
    Render(t.monitor.isDragging, CalculatePointerPosition(t.monitor, ChildRef(mounted, t.rect)))
  }

  /** The frames rendered over a sequence of notifications; `mounted` says
      whether the preview element is mounted before the first one. */
  function Frames(ticks: seq<Tick>, mounted: bool): (r: seq<Option<Point>>)
    ensures |r| == |ticks|
    ensures forall i :: 0 <= i < |r| ==> (r[i].Some? <==> Visible(ticks[i].monitor))
    decreases |ticks|
  {
    if ticks == [] then []
    else
      var f := Frame(ticks[0], mounted);
      [f] + Frames(ticks[1..], f.Some?)
  }

  /** Frame i is computed with the element mounted exactly when notification
      i - 1 showed the preview (or, for the first, when it was mounted
      beforehand). */
  lemma {:induction false} FrameAt(ticks: seq<Tick>, mounted: bool, i: nat)
    requires i < |ticks|
    ensures Frames(ticks, mounted)[i]
            == Frame(ticks[i], if i == 0 then mounted else Visible(ticks[i - 1].monitor))
  {
    if i > 0 {
      FrameAt(ticks[1..], Frame(ticks[0], mounted).Some?, i - 1);
    }
  }

  /** A frame whose previous notification showed the preview is centred
      under the pointer. */
  lemma FrameCentered(ticks: seq<Tick>, mounted: bool, i: nat)
    requires i < |ticks|
    requires if i == 0 then mounted else Visible(ticks[i - 1].monitor)
    requires Visible(ticks[i].monitor)
    ensures Center(Frames(ticks, mounted)[i].value, ticks[i].rect) == ticks[i].monitor.clientOffset.value
  {
    FrameAt(ticks, mounted, i);
  }

  /** A frame whose previous notification hid the preview (or that starts
      unmounted) falls back to the parent offset. */
  lemma FrameFallback(ticks: seq<Tick>, mounted: bool, i: nat)
    requires i < |ticks|
    requires if i == 0 then !mounted else !Visible(ticks[i - 1].monitor)
    requires Visible(ticks[i].monitor)
    ensures Translate(Frames(ticks, mounted)[i].value, CalculateParentOffset(ticks[i].monitor))
            == ticks[i].monitor.clientOffset.value
  {
    FrameAt(ticks, mounted, i);
  }

  /** In a drag whose every notification shows the preview, starting with
      nothing mounted, only the first frame uses the fallback; every later one
      is centred under the pointer. */
  lemma {:induction false} OnlyFirstFrameFallsBack(ticks: seq<Tick>)
    requires forall i :: 0 <= i < |ticks| ==> Visible(ticks[i].monitor)
    ensures |ticks| > 0 ==>
              Translate(Frames(ticks, false)[0].value, CalculateParentOffset(ticks[0].monitor))
              == ticks[0].monitor.clientOffset.value
    ensures forall i :: 0 < i < |ticks| ==>
              Center(Frames(ticks, false)[i].value, ticks[i].rect) == ticks[i].monitor.clientOffset.value
  {
    if |ticks| > 0 {
      FrameFallback(ticks, false, 0);
      forall i: nat | 0 < i < |ticks| {
        FrameCentered(ticks, false, i);
      }
    }
  }

}
