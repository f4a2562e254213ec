/** The logic of src/components/Canvas/EditorCanvas.tsx: pointer-anchored wheel zoom, the
    keyboard shortcuts for stacking and deletion, and the drawing order of the layers. */
module Canvas {
  import opened EditorTypes
  import opened LayerStack
  import opened Store
  import StoreGeometry

  /** The zoom factor of one wheel notch. */
  const ScaleBy: real := 1.12

  datatype Viewport = Viewport(zoom: real, panX: real, panY: real)

  /** The canvas point under a screen position for a given viewport. */
  function WorldPoint(v: Viewport, pointerX: real, pointerY: real): (real, real)
    requires v.zoom != 0.0
  {
    ((pointerX - v.panX) / v.zoom, (pointerY - v.panY) / v.zoom)
  }

  /** `handleWheel`: scroll down divides the scale by 1.12, anything else multiplies it; the pan
      is recomputed so the canvas point under the pointer stays under it. */
  function WheelZoom(v: Viewport, pointerX: real, pointerY: real, deltaY: real): (r: Viewport)
    requires v.zoom != 0.0
    ensures r.zoom != 0.0 && (v.zoom > 0.0 ==> r.zoom > 0.0)
    ensures deltaY > 0.0 ==> r.zoom * ScaleBy == v.zoom
    ensures deltaY <= 0.0 ==> r.zoom == v.zoom * ScaleBy
    ensures WorldPoint(r, pointerX, pointerY) == WorldPoint(v, pointerX, pointerY)
  {
    var newScale := if deltaY > 0.0 then v.zoom / ScaleBy else v.zoom * ScaleBy;
    var world := WorldPoint(v, pointerX, pointerY);
    var r := Viewport(newScale, pointerX - world.0 * newScale, pointerY - world.1 * newScale);
    assert (pointerX - r.panX) / newScale == world.0 by {
      StoreGeometry.DivCancel(world.0, newScale);
    }
    assert (pointerY - r.panY) / newScale == world.1 by {
      StoreGeometry.DivCancel(world.1, newScale);
    }
    r
  }

  /** A notch in then a notch out at the same pointer restores zoom and pan exactly. */
  lemma ZoomInThenOutRestores(v: Viewport, pointerX: real, pointerY: real, deltaIn: real, deltaOut: real)
    requires v.zoom != 0.0 && deltaIn <= 0.0 && deltaOut > 0.0
    ensures WheelZoom(WheelZoom(v, pointerX, pointerY, deltaIn), pointerX, pointerY, deltaOut) == v
  {
    var a := WheelZoom(v, pointerX, pointerY, deltaIn);
    var b := WheelZoom(a, pointerX, pointerY, deltaOut);
    assert b.zoom == v.zoom;
    PanFromWorldPoint(v, b, pointerX, pointerY);
  }

  /** A notch out then a notch in at the same pointer restores zoom and pan exactly. */
  lemma ZoomOutThenInRestores(v: Viewport, pointerX: real, pointerY: real, deltaOut: real, deltaIn: real)
    requires v.zoom != 0.0 && deltaIn <= 0.0 && deltaOut > 0.0
    ensures WheelZoom(WheelZoom(v, pointerX, pointerY, deltaOut), pointerX, pointerY, deltaIn) == v
  {
    var a := WheelZoom(v, pointerX, pointerY, deltaOut);
    var b := WheelZoom(a, pointerX, pointerY, deltaIn);
    assert b.zoom == v.zoom;
    PanFromWorldPoint(v, b, pointerX, pointerY);
  }

  /** Two viewports of the same zoom that agree on the point under the pointer agree on the pan. */
  lemma PanFromWorldPoint(v: Viewport, w: Viewport, pointerX: real, pointerY: real)
    requires v.zoom != 0.0 && w.zoom == v.zoom
    requires WorldPoint(w, pointerX, pointerY) == WorldPoint(v, pointerX, pointerY)
    ensures w == v
  {
    var z := v.zoom;
    assert (pointerX - w.panX) / z * z == pointerX - w.panX;
    assert (pointerX - v.panX) / z * z == pointerX - v.panX;
    assert (pointerY - w.panY) / z * z == pointerY - w.panY;
    assert (pointerY - v.panY) / z * z == pointerY - v.panY;
  }

  /** The wheel handler against the store: the stage's scale and position are the store's zoom
      and pan, written back through `setZoom` and `setPan`. */
  method HandleWheel(store: EditorStore, pointerX: real, pointerY: real, deltaY: real)
    requires store.zoom != 0.0
    modifies store`zoom, store`panX, store`panY
    ensures Viewport(store.zoom, store.panX, store.panY)
         == WheelZoom(Viewport(old(store.zoom), old(store.panX), old(store.panY)), pointerX, pointerY, deltaY)
  {
    var r := WheelZoom(Viewport(store.zoom, store.panX, store.panY), pointerX, pointerY, deltaY);
    store.SetZoom(r.zoom);
    store.SetPan(r.panX, r.panY);
  }

  /** The store action a key press asks for. */
  datatype KeyCommand =
    | ToFront(id: string)
    | ToBack(id: string)
    | StepUp(id: string)
    | StepDown(id: string)
    | Delete(id: string)

  /** The keys the canvas handles. */
  predicate IsShortcutKey(key: string) {
    key == "Home" || key == "End" || key == "PageUp" || key == "PageDown" || key == "Delete" || key == "Backspace"
  }

  /** The keydown switch: nothing without a selection (an empty id counts as none), otherwise
      Home, End, PageUp, PageDown and Delete or Backspace act on the selected layer. */
  function KeyCommandFor(selected: Option<string>, key: string): (c: Option<KeyCommand>)
    ensures c.Some? <==> (selected.Some? && selected.value != "" && IsShortcutKey(key))
    ensures c.Some? ==> c.value.id == selected.value
    ensures c.Some? ==> (c.value.ToFront? <==> key == "Home") && (c.value.ToBack? <==> key == "End")
    ensures c.Some? ==> (c.value.StepUp? <==> key == "PageUp") && (c.value.StepDown? <==> key == "PageDown")
    ensures c.Some? ==> (c.value.Delete? <==> key == "Delete" || key == "Backspace")
  {
    match selected
    case None => None
    case Some(id) =>
      if id == "" then None
      else if key == "Home" then Some(ToFront(id))
      else if key == "End" then Some(ToBack(id))
      else if key == "PageUp" then Some(StepUp(id))
      else if key == "PageDown" then Some(StepDown(id))
      else if key == "Delete" || key == "Backspace" then Some(Delete(id))
      else None
  }

  /** `handleKeyDown` dispatching to the store. */
  method HandleKeyDown(store: EditorStore, key: string)
    modifies store`layers, store`selectedLayerId, store`released
    ensures match KeyCommandFor(old(store.selectedLayerId), key)
      case None =>
        store.layers == old(store.layers) && store.selectedLayerId == old(store.selectedLayerId)
        && store.released == old(store.released)
      case Some(ToFront(id)) =>
        store.layers == MovedToFront(old(store.layers), id) && store.selectedLayerId == old(store.selectedLayerId)
      case Some(ToBack(id)) =>
        store.layers == MovedToBack(old(store.layers), id) && store.selectedLayerId == old(store.selectedLayerId)
      case Some(StepUp(id)) =>
        store.layers == Reordered(old(store.layers), id, Up) && store.selectedLayerId == old(store.selectedLayerId)
      case Some(StepDown(id)) =>
        store.layers == Reordered(old(store.layers), id, Down) && store.selectedLayerId == old(store.selectedLayerId)
      case Some(Delete(id)) =>
        store.layers == RemovedLayers(old(store.layers), id) && store.selectedLayerId == None
        && store.released == old(store.released) + match ReleasedHandle(old(store.layers), id)
          case Some(h) => [h]
          case None => []
    ensures store.released == old(store.released) || KeyCommandFor(old(store.selectedLayerId), key).value.Delete?
  {
    var command := KeyCommandFor(store.selectedLayerId, key);
    match command {
      case None =>
      case Some(ToFront(id)) => store.MoveLayerToFront(id);
      case Some(ToBack(id)) => store.MoveLayerToBack(id);
      case Some(StepUp(id)) => store.ReorderLayer(id, Up);
      case Some(StepDown(id)) => store.ReorderLayer(id, Down);
      case Some(Delete(id)) => store.RemoveLayer(id);
    }
  }

  /** Ascending by zIndex. */
  predicate AscendingZ(s: seq<Layer>) {
    forall i, j :: 0 <= i < j < |s| ==> s[i].zIndex <= s[j].zIndex
  }

  /** No layer's zIndex exceeds `z`. */
  predicate AllAtMost(s: seq<Layer>, z: int) {
    forall i :: 0 <= i < |s| ==> s[i].zIndex <= z
  }

  /** `l` put after every layer of `sorted` whose zIndex is not larger, as a stable sort does. */
  function InsertByZIndex(sorted: seq<Layer>, l: Layer): (r: seq<Layer>)
    requires AscendingZ(sorted)
    ensures AscendingZ(r) && multiset(r) == multiset(sorted) + multiset{l}
    ensures forall z :: AllAtMost(sorted, z) && l.zIndex <= z ==> AllAtMost(r, z)
  {
    if |sorted| == 0 then [l]
    else
      var last := sorted[|sorted| - 1];
      if last.zIndex <= l.zIndex then sorted + [l]
      else
        var front := sorted[..|sorted| - 1];
        assert sorted == front + [last];
        assert AllAtMost(front, last.zIndex);
        var rest := InsertByZIndex(front, l);
        rest + [last]
  }

  /** `[...layers].sort((a, b) => a.zIndex - b.zIndex)`: the drawing order, bottom first. */
  function SortedLayers(s: seq<Layer>): (r: seq<Layer>)
    ensures AscendingZ(r) && multiset(r) == multiset(s)
  {
    if |s| == 0 then []
    else
      assert s == s[..|s| - 1] + [s[|s| - 1]];
      InsertByZIndex(SortedLayers(s[..|s| - 1]), s[|s| - 1])
  }

  /** A sequence already in zIndex order is drawn in its own order. */
  lemma {:induction false} SortedLayersOfAscending(s: seq<Layer>)
    requires AscendingZ(s)
    ensures SortedLayers(s) == s
  {
    if |s| > 0 {
      var front, last := s[..|s| - 1], s[|s| - 1];
      assert s == front + [last];
      assert AscendingZ(front);
      SortedLayersOfAscending(front);
      assert SortedLayers(s) == InsertByZIndex(SortedLayers(front), last);
      InsertOnTop(front, last);
    }
  }

  /** A layer no lower than the top of an ascending sequence is inserted on top. */
  lemma InsertOnTop(sorted: seq<Layer>, l: Layer)
    requires AscendingZ(sorted) && (|sorted| == 0 || sorted[|sorted| - 1].zIndex <= l.zIndex)
    ensures InsertByZIndex(sorted, l) == sorted + [l]
  {
  }

  /** The store's layers, once stacked, are drawn exactly in sequence order. */
  lemma DrawOrderIsStackOrder(s: seq<Layer>)
    requires Stacked(s)
    ensures SortedLayers(s) == s
    ensures forall i, j :: 0 <= i < j < |s| ==> SortedLayers(s)[i].zIndex < SortedLayers(s)[j].zIndex
  {
    SortedLayersOfAscending(s);
  }
}
