/** The stacking half of src/stores/editorStore.ts: each action's new `layers` sequence as a
    pure function of the old one. The store's methods assign these. */
module LayerStack {
  import opened PrintSizes
  import opened EditorTypes
  import opened StoreGeometry

  /** Every layer's zIndex is its position: the stacking order is total and contiguous. */
  predicate Stacked(s: seq<Layer>) {
    forall i :: 0 <= i < |s| ==> s[i].zIndex == i
  }

  function ZIndices(s: seq<Layer>): set<int> {
    set l | l in s :: l.zIndex
  }

  predicate HasId(s: seq<Layer>, id: string) {
    exists i :: 0 <= i < |s| && s[i].id == id
  }

  /** No two layers share an id, as the upload collaborator's fresh ids ensure. */
  predicate UniqueIds(s: seq<Layer>) {
    forall i, j :: 0 <= i < j < |s| ==> s[i].id != s[j].id
  }

  /** The ids of the layers, in order. */
  function Ids(s: seq<Layer>): (r: seq<string>)
    ensures |r| == |s| && forall i :: 0 <= i < |s| ==> r[i] == s[i].id
  {
    seq(|s|, i requires 0 <= i < |s| => s[i].id)
  }

  /** A stacked sequence's zIndex values are exactly 0..N-1. */
  lemma StackedZIndicesAreRange(s: seq<Layer>)
    requires Stacked(s)
    ensures forall z :: z in ZIndices(s) <==> 0 <= z < |s|
  {
    forall z | z in ZIndices(s) ensures 0 <= z < |s| {
      var l :| l in s && l.zIndex == z;
      var i :| 0 <= i < |s| && s[i] == l;
    }
    forall i | 0 <= i < |s| ensures i in ZIndices(s) {
      assert s[i] in s;
    }
  }

  /** `map((l, i) => ({ ...l, zIndex: i }))`: the same layers, re-indexed by position. */
  function Reindexed(s: seq<Layer>): (r: seq<Layer>)
    ensures |r| == |s| && Stacked(r)
    ensures forall i :: 0 <= i < |s| ==> r[i] == s[i].(zIndex := i)
  {
    seq(|s|, i requires 0 <= i < |s| => s[i].(zIndex := i))
  }

  /** `findIndex(l => l.id === id)`: the first position holding the id, or -1. */
  function FindIndex(s: seq<Layer>, id: string): (k: int)
    ensures -1 <= k < |s|
    ensures k == -1 <==> !HasId(s, id)
    ensures 0 <= k ==> s[k].id == id && forall j :: 0 <= j < k ==> s[j].id != id
  {
    if |s| == 0 then -1
    else if s[0].id == id then 0
    else
      var k := FindIndex(s[1..], id);
      if k == -1 then -1 else k + 1
  }

  /** With unique ids, the layer found is the only one with that id. */
  lemma FindIndexUnique(s: seq<Layer>, k: int)
    requires UniqueIds(s) && 0 <= k < |s|
    ensures FindIndex(s, s[k].id) == k
  {
  }

  /** `addLayer`: the layer appended on top, with zIndex the previous count. */
  function AddLayer(s: seq<Layer>, data: Layer): (r: seq<Layer>)
    ensures |r| == |s| + 1 && r[..|s|] == s
    ensures r[|s|] == data.(zIndex := |s|)
    ensures Stacked(r) <==> Stacked(s)
    ensures UniqueIds(r) <==> UniqueIds(s) && !HasId(s, data.id)
  {
    s + [data.(zIndex := |s|)]
  }

  /** `filter(l => l.id !== id)`: every layer with that id dropped, the rest in their order. */
  function FilterOut(s: seq<Layer>, id: string): (r: seq<Layer>)
    ensures |r| <= |s| && !HasId(r, id)
    ensures forall l :: l in r ==> l in s
    ensures !HasId(s, id) ==> r == s
    ensures HasId(s, id) ==> |r| < |s|
    ensures forall i :: 0 <= i < |s| && s[i].id != id ==> s[i] in r
  {
    if |s| == 0 then []
    else if s[0].id == id then FilterOut(s[1..], id)
    else [s[0]] + FilterOut(s[1..], id)
  }

  /** Filtering drops exactly as many layers as hold the id. */
  lemma {:induction false} FilterOutCount(s: seq<Layer>, id: string)
    ensures |FilterOut(s, id)| == |s| - multiset(Ids(s))[id]
  {
    if |s| > 0 {
      assert Ids(s) == [s[0].id] + Ids(s[1..]);
      FilterOutCount(s[1..], id);
    }
  }

  /** Filtering works piecewise, so the surviving layers keep their relative order. */
  lemma {:induction false} FilterOutConcat(a: seq<Layer>, b: seq<Layer>, id: string)
    ensures FilterOut(a + b, id) == FilterOut(a, id) + FilterOut(b, id)
    decreases |a|
  {
    if |a| > 0 {
      assert (a + b)[1..] == a[1..] + b;
      FilterOutConcat(a[1..], b, id);
    } else {
      assert a + b == b;
    }
  }

  /** With unique ids, filtering drops exactly the one layer holding the id. */
  lemma {:induction false} FilterOutUnique(s: seq<Layer>, k: int)
    requires UniqueIds(s) && 0 <= k < |s|
    ensures FilterOut(s, s[k].id) == s[..k] + s[k + 1..]
  {
    if k == 0 {
      assert !HasId(s[1..], s[0].id);
      assert s[..0] + s[1..] == s[1..];
    } else {
      assert UniqueIds(s[1..]);
      FilterOutUnique(s[1..], k - 1);
      assert s[1..][k - 1] == s[k];
      assert s[..k] + s[k + 1..] == [s[0]] + (s[1..][..k - 1] + s[1..][k..]);
    }
  }

  /** `removeLayer`'s new sequence: filtered, then re-indexed. */
  function RemovedLayers(s: seq<Layer>, id: string): (r: seq<Layer>)
    ensures Stacked(r) && !HasId(r, id)
    ensures |r| == |FilterOut(s, id)|
  {
    Reindexed(FilterOut(s, id))
  }

  /** The handle `removeLayer` revokes: the blob URL of the first layer with the id, when that
      layer exists and its URL is not empty. */
  function ReleasedHandle(s: seq<Layer>, id: string): (h: Option<string>)
    ensures h.Some? <==> exists i :: 0 <= i < |s| && s[i].id == id && s[FindIndex(s, id)].blobUrl != ""
    ensures h.Some? ==> h.value != "" && HasId(s, id) && h.value == s[FindIndex(s, id)].blobUrl
  {
    var k := FindIndex(s, id);
    if k != -1 && s[k].blobUrl != "" then Some(s[k].blobUrl) else None
  }

  datatype Direction = Up | Down

  /** `reorderLayer`: the layer swapped with its neighbour one step up (towards the top) or down;
      the sequence is returned as it is for an unknown id or a move past either end. */
  function Reordered(s: seq<Layer>, id: string, direction: Direction): (r: seq<Layer>)
    ensures |r| == |s|
    ensures var k := FindIndex(s, id);
      var n := if direction == Up then k + 1 else k - 1;
      if k == -1 || n < 0 || n >= |s| then r == s
      else
        && Stacked(r)
        && r[k] == s[n].(zIndex := k) && r[n] == s[k].(zIndex := n)
        && forall i :: 0 <= i < |s| && i != k && i != n ==> r[i] == s[i].(zIndex := i)
  {
    var k := FindIndex(s, id);
    if k == -1 then s
    else
      var n := if direction == Up then k + 1 else k - 1;
      if n < 0 || n >= |s| then s
      else Reindexed(s[k := s[n]][n := s[k]])
  }

  /** Position k taken out and put last: the layers before it stay, the ones after move down one. */
  lemma TakenToEnd(s: seq<Layer>, k: int)
    requires 0 <= k < |s|
    ensures var t := s[..k] + s[k + 1..] + [s[k]];
      && |t| == |s| && t[|s| - 1] == s[k]
      && (forall i :: 0 <= i < k ==> t[i] == s[i])
      && (forall i :: k <= i < |s| - 1 ==> t[i] == s[i + 1])
  {
  }

  /** Position k taken out and put first: the layers before it move up one, the ones after stay. */
  lemma TakenToStart(s: seq<Layer>, k: int)
    requires 0 <= k < |s|
    ensures var t := [s[k]] + s[..k] + s[k + 1..];
      && |t| == |s| && t[0] == s[k]
      && (forall i :: 0 < i <= k ==> t[i] == s[i - 1])
      && (forall i :: k < i < |s| ==> t[i] == s[i])
  {
  }

  /** `moveLayerToFront`: the layer taken out and put on top, the others keeping their order. */
  function MovedToFront(s: seq<Layer>, id: string): (r: seq<Layer>)
    ensures |r| == |s|
    ensures var k := FindIndex(s, id);
      if k == -1 || k == |s| - 1 then r == s
      else
        && Stacked(r)
        && r[|s| - 1] == s[k].(zIndex := |s| - 1)
        && (forall i :: 0 <= i < k ==> r[i] == s[i].(zIndex := i))
        && (forall i :: k <= i < |s| - 1 ==> r[i] == s[i + 1].(zIndex := i))
  {
    var k := FindIndex(s, id);
    if k == -1 || k == |s| - 1 then s
    else
      TakenToEnd(s, k);
      Reindexed(s[..k] + s[k + 1..] + [s[k]])
  }

  /** `moveLayerToBack`: the layer taken out and put at the bottom, the others keeping their order. */
  function MovedToBack(s: seq<Layer>, id: string): (r: seq<Layer>)
    ensures |r| == |s|
    ensures var k := FindIndex(s, id);
      if k == -1 || k == 0 then r == s
      else
        && Stacked(r)
        && r[0] == s[k].(zIndex := 0)
        && (forall i :: 0 < i <= k ==> r[i] == s[i - 1].(zIndex := i))
        && (forall i :: k < i < |s| ==> r[i] == s[i].(zIndex := i))
  {
    var k := FindIndex(s, id);
    if k == -1 || k == 0 then s
    else
      TakenToStart(s, k);
      Reindexed([s[k]] + s[..k] + s[k + 1..])
  }

  /** Apply `f` to every layer with the id, as the store's per-layer `map` does. */
  function MapWhere(s: seq<Layer>, id: string, f: Layer --> Layer): (r: seq<Layer>)
    requires forall i :: 0 <= i < |s| && s[i].id == id ==> f.requires(s[i])
    ensures |r| == |s|
    ensures forall i :: 0 <= i < |s| ==> r[i] == if s[i].id == id then f(s[i]) else s[i]
  {
    seq(|s|, i requires 0 <= i < |s| => if s[i].id == id then f(s[i]) else s[i])
  }

  /** A merged field: the carried value when there is one, the previous value otherwise. */
  predicate Takes<T(==)>(carried: Option<T>, before: T, after: T) {
    match carried
    case Some(v) => after == v
    case None => after == before
  }

  /** `{ ...layer, ...updates }`: each field the update carries replaces the layer's. */
  function ApplyUpdate(l: Layer, u: LayerUpdate): (r: Layer)
    ensures r.id == l.id
    ensures Takes(u.name, l.name, r.name) && Takes(u.blobUrl, l.blobUrl, r.blobUrl)
    ensures Takes(u.originalWidth, l.originalWidth, r.originalWidth)
    ensures Takes(u.originalHeight, l.originalHeight, r.originalHeight)
    ensures Takes(u.thumbnail, l.thumbnail, r.thumbnail)
    ensures Takes(u.x, l.x, r.x) && Takes(u.y, l.y, r.y) && Takes(u.rotation, l.rotation, r.rotation)
    ensures Takes(u.printSize, l.printSize, r.printSize) && Takes(u.isLandscape, l.isLandscape, r.isLandscape)
    ensures Takes(u.printMode, l.printMode, r.printMode) && Takes(u.fixedSide, l.fixedSide, r.fixedSide)
    ensures Takes(u.cropX, l.cropX, r.cropX) && Takes(u.cropY, l.cropY, r.cropY)
    ensures Takes(u.cropWidth, l.cropWidth, r.cropWidth) && Takes(u.cropHeight, l.cropHeight, r.cropHeight)
    ensures Takes(u.displayWidth, l.displayWidth, r.displayWidth)
    ensures Takes(u.displayHeight, l.displayHeight, r.displayHeight)
    ensures Takes(u.zIndex, l.zIndex, r.zIndex)
    ensures Takes(u.visible, l.visible, r.visible) && Takes(u.locked, l.locked, r.locked)
  {
    Layer(
      l.id,
      u.name.GetOr(l.name),
      u.blobUrl.GetOr(l.blobUrl),
      u.originalWidth.GetOr(l.originalWidth),
      u.originalHeight.GetOr(l.originalHeight),
      u.thumbnail.GetOr(l.thumbnail),
      u.x.GetOr(l.x),
      u.y.GetOr(l.y),
      u.rotation.GetOr(l.rotation),
      u.printSize.GetOr(l.printSize),
      u.isLandscape.GetOr(l.isLandscape),
      u.printMode.GetOr(l.printMode),
      u.fixedSide.GetOr(l.fixedSide),
      u.cropX.GetOr(l.cropX),
      u.cropY.GetOr(l.cropY),
      u.cropWidth.GetOr(l.cropWidth),
      u.cropHeight.GetOr(l.cropHeight),
      u.displayWidth.GetOr(l.displayWidth),
      u.displayHeight.GetOr(l.displayHeight),
      u.zIndex.GetOr(l.zIndex),
      u.visible.GetOr(l.visible),
      u.locked.GetOr(l.locked))
  }

  /** An update that only moves, rotates, shows/hides or locks, as the canvas and the layer panel send. */
  predicate PlacementOnly(u: LayerUpdate) {
    && u.name.None? && u.blobUrl.None? && u.originalWidth.None? && u.originalHeight.None?
    && u.thumbnail.None? && u.printSize.None? && u.isLandscape.None? && u.printMode.None?
    && u.fixedSide.None? && u.cropX.None? && u.cropY.None? && u.cropWidth.None? && u.cropHeight.None?
    && u.displayWidth.None? && u.displayHeight.None? && u.zIndex.None?
  }

  /** `updateLayer`'s new sequence. */
  function UpdatedLayers(s: seq<Layer>, id: string, u: LayerUpdate): (r: seq<Layer>)
    ensures |r| == |s| && Ids(r) == Ids(s)
    ensures forall i :: 0 <= i < |s| && s[i].id != id ==> r[i] == s[i]
    ensures forall i :: 0 <= i < |s| && s[i].id == id ==> r[i] == ApplyUpdate(s[i], u)
    ensures u.zIndex.None? && Stacked(s) ==> Stacked(r)
  {
    MapWhere(s, id, l => ApplyUpdate(l, u))
  }

  /** The layers whose id is `id` can have their geometry computed. */
  predicate AddressedWellSized(s: seq<Layer>, id: string) {
    forall i :: 0 <= i < |s| && s[i].id == id ==> WellSized(s[i])
  }

  /** `setLayerPrintSize`'s new sequence: the addressed layers get the policy asked for, with
      consistent geometry; every other layer is untouched; the order and zIndex are kept. */
  function PrintSizeSet(s: seq<Layer>, id: string, size: Option<PrintSize>, isLandscape: bool, mode: PrintMode, fixedSide: FixedSide): (r: seq<Layer>)
    requires forall i :: 0 <= i < |s| && s[i].id == id ==> WellSized(s[i].(printSize := size))
    ensures |r| == |s| && Ids(r) == Ids(s) && (Stacked(s) ==> Stacked(r))
    ensures forall i :: 0 <= i < |s| && s[i].id != id ==> r[i] == s[i]
    ensures forall i :: 0 <= i < |s| && s[i].id == id ==>
      && Consistent(r[i]) && SamePlacement(s[i], r[i])
      && PolicyOf(r[i]) == (if size.None? then Unconstrained else ModePolicy(size.value, isLandscape, mode, fixedSide))
  {
    MapWhere(s, id, (l: Layer) requires WellSized(l.(printSize := size)) => SetPrintSizeOn(l, size, isLandscape, mode, fixedSide))
  }

  /** `toggleLayerOrientation`'s new sequence. */
  function OrientationToggled(s: seq<Layer>, id: string): (r: seq<Layer>)
    requires AddressedWellSized(s, id)
    ensures |r| == |s| && Ids(r) == Ids(s) && (Stacked(s) ==> Stacked(r))
    ensures forall i :: 0 <= i < |s| && s[i].id != id ==> r[i] == s[i]
    ensures forall i :: 0 <= i < |s| && s[i].id == id ==> r[i] == ToggledOrientation(s[i])
    ensures forall i :: 0 <= i < |s| && s[i].id == id ==>
      SamePlacement(s[i], r[i]) && PolicyOf(r[i]) == Turned(PolicyOf(s[i]))
  {
    MapWhere(s, id, (l: Layer) requires WellSized(l) => ToggledOrientation(l))
  }

  /** `setLayerPrintMode`'s new sequence. */
  function PrintModeSet(s: seq<Layer>, id: string, mode: PrintMode, fixedSide: FixedSide): (r: seq<Layer>)
    requires AddressedWellSized(s, id)
    ensures |r| == |s| && Ids(r) == Ids(s) && (Stacked(s) ==> Stacked(r))
    ensures forall i :: 0 <= i < |s| && (s[i].id != id || s[i].printSize.None?) ==> r[i] == s[i]
    ensures forall i :: 0 <= i < |s| && s[i].id == id ==>
      && SamePlacement(s[i], r[i]) && r[i].printSize == s[i].printSize && r[i].isLandscape == s[i].isLandscape
      && (s[i].printSize.Some? ==> Consistent(r[i]) && r[i].printMode == mode)
      && (s[i].printSize.Some? ==> PolicyOf(r[i]) == ModePolicy(s[i].printSize.value, s[i].isLandscape, mode, fixedSide))
  {
    MapWhere(s, id, (l: Layer) requires WellSized(l) => WithPrintMode(l, mode, fixedSide))
  }

  /** `setLayerCrop`'s new sequence: the crop written unchecked onto the addressed layers. */
  function CropSet(s: seq<Layer>, id: string, crop: Crop): (r: seq<Layer>)
    ensures |r| == |s| && Ids(r) == Ids(s) && (Stacked(s) ==> Stacked(r))
    ensures forall i :: 0 <= i < |s| && s[i].id != id ==> r[i] == s[i]
    ensures forall i :: 0 <= i < |s| && s[i].id == id ==> r[i] == WithCrop(s[i], crop)
    ensures forall i :: 0 <= i < |s| && s[i].id == id ==>
      GeometryOf(r[i]) == Geometry(crop, s[i].displayWidth, s[i].displayHeight)
  {
    MapWhere(s, id, l => WithCrop(l, crop))
  }

  lemma IdsOfConcat(a: seq<Layer>, b: seq<Layer>)
    ensures Ids(a + b) == Ids(a) + Ids(b)
  {
  }

  lemma IdsReindexed(s: seq<Layer>)
    ensures Ids(Reindexed(s)) == Ids(s)
  {
  }

  /** `s` split around position `k`, as a sum of id sequences. */
  lemma IdsAround(s: seq<Layer>, k: int)
    requires 0 <= k < |s|
    ensures Ids(s) == Ids(s[..k]) + [s[k].id] + Ids(s[k + 1..])
  {
    assert s == s[..k] + [s[k]] + s[k + 1..];
    IdsOfConcat(s[..k] + [s[k]], s[k + 1..]);
    IdsOfConcat(s[..k], [s[k]]);
  }

  /** The ids of `s` with position k taken out and put last. */
  lemma IdsTakenToEnd(s: seq<Layer>, k: int)
    requires 0 <= k < |s|
    ensures Ids(s[..k] + s[k + 1..] + [s[k]]) == Ids(s[..k]) + Ids(s[k + 1..]) + [s[k].id]
  {
    IdsOfConcat(s[..k] + s[k + 1..], [s[k]]);
    IdsOfConcat(s[..k], s[k + 1..]);
  }

  /** The ids of `s` with position k taken out and put first. */
  lemma IdsTakenToStart(s: seq<Layer>, k: int)
    requires 0 <= k < |s|
    ensures Ids([s[k]] + s[..k] + s[k + 1..]) == [s[k].id] + Ids(s[..k]) + Ids(s[k + 1..])
  {
    IdsOfConcat([s[k]] + s[..k], s[k + 1..]);
    IdsOfConcat([s[k]], s[..k]);
  }

  /** Where a single entry sits does not change the multiset. */
  lemma MovedEntryKeepsMultiset(a: seq<string>, x: string, b: seq<string>)
    ensures multiset(a + b + [x]) == multiset(a + [x] + b)
    ensures multiset([x] + a + b) == multiset(a + [x] + b)
  {
    assert multiset(a + b + [x]) == multiset(a) + multiset(b) + multiset([x]);
    assert multiset([x] + a + b) == multiset([x]) + multiset(a) + multiset(b);
    assert multiset(a + [x] + b) == multiset(a) + multiset([x]) + multiset(b);
  }

  /** Moving to the front permutes the layers. */
  lemma FrontPermutes(s: seq<Layer>, id: string)
    ensures multiset(Ids(MovedToFront(s, id))) == multiset(Ids(s))
  {
    var k := FindIndex(s, id);
    if k != -1 && k != |s| - 1 {
      var front := s[..k] + s[k + 1..] + [s[k]];
      assert MovedToFront(s, id) == Reindexed(front);
      IdsReindexed(front);
      IdsTakenToEnd(s, k);
      IdsAround(s, k);
      MovedEntryKeepsMultiset(Ids(s[..k]), s[k].id, Ids(s[k + 1..]));
    }
  }

  /** Moving to the back permutes the layers. */
  lemma BackPermutes(s: seq<Layer>, id: string)
    ensures multiset(Ids(MovedToBack(s, id))) == multiset(Ids(s))
  {
    var k := FindIndex(s, id);
    if k != -1 && k != 0 {
      var back := [s[k]] + s[..k] + s[k + 1..];
      assert MovedToBack(s, id) == Reindexed(back);
      IdsReindexed(back);
      IdsTakenToStart(s, k);
      IdsAround(s, k);
      MovedEntryKeepsMultiset(Ids(s[..k]), s[k].id, Ids(s[k + 1..]));
    }
  }

  /** A one-step reorder permutes the layers. */
  lemma ReorderPermutes(s: seq<Layer>, id: string, direction: Direction)
    ensures multiset(Ids(Reordered(s, id, direction))) == multiset(Ids(s))
  {
    var k := FindIndex(s, id);
    if k != -1 {
      var n := if direction == Up then k + 1 else k - 1;
      if 0 <= n < |s| {
        var swapped := s[k := s[n]][n := s[k]];
        assert Reordered(s, id, direction) == Reindexed(swapped);
        IdsReindexed(swapped);
        IdsSwapped(s, k, n);
        SwapKeepsMultiset(Ids(s), k, n);
      }
    }
  }

  lemma IdsSwapped(s: seq<Layer>, k: int, n: int)
    requires 0 <= k < |s| && 0 <= n < |s|
    ensures Ids(s[k := s[n]][n := s[k]]) == Ids(s)[k := Ids(s)[n]][n := Ids(s)[k]]
  {
  }

  /** Exchanging two entries keeps the multiset. */
  lemma SwapKeepsMultiset(q: seq<string>, k: int, n: int)
    requires 0 <= k < |q| && 0 <= n < |q|
    ensures multiset(q[k := q[n]][n := q[k]]) == multiset(q)
  {
  }

  /** A one-step reorder keeps ids unique and a stacked sequence stacked. */
  lemma ReorderKeepsInvariants(s: seq<Layer>, id: string, direction: Direction)
    ensures UniqueIds(s) ==> UniqueIds(Reordered(s, id, direction))
    ensures Stacked(s) ==> Stacked(Reordered(s, id, direction))
  {
    if UniqueIds(s) {
      ReorderPermutes(s, id, direction);
      UniqueFromMultiset(s, Reordered(s, id, direction));
    }
  }

  /** Moving a layer to the front or to the back keeps ids unique and a stacked sequence stacked. */
  lemma FrontBackKeepInvariants(s: seq<Layer>, id: string)
    ensures UniqueIds(s) ==> UniqueIds(MovedToFront(s, id)) && UniqueIds(MovedToBack(s, id))
    ensures Stacked(s) ==> Stacked(MovedToFront(s, id)) && Stacked(MovedToBack(s, id))
  {
    if UniqueIds(s) {
      FrontPermutes(s, id);
      UniqueFromMultiset(s, MovedToFront(s, id));
      BackPermutes(s, id);
      UniqueFromMultiset(s, MovedToBack(s, id));
    }
  }

  /** Unique ids are a property of the multiset of ids alone. */
  lemma UniqueFromMultiset(s: seq<Layer>, t: seq<Layer>)
    requires multiset(Ids(t)) == multiset(Ids(s)) && UniqueIds(s)
    ensures UniqueIds(t)
  {
    forall i, j | 0 <= i < j < |t| ensures t[i].id != t[j].id {
      if t[i].id == t[j].id {
        var x := t[i].id;
        DuplicateCountsTwice(Ids(t), i, j);
        assert x in multiset(Ids(s));
        var a :| 0 <= a < |s| && Ids(s)[a] == x;
        CountOneWhenUnique(s, a);
      }
    }
  }

  /** A value held at two positions occurs at least twice. */
  lemma DuplicateCountsTwice(q: seq<string>, i: int, j: int)
    requires 0 <= i < j < |q| && q[i] == q[j]
    ensures multiset(q)[q[i]] >= 2
  {
    assert q == q[..i] + [q[i]] + q[i + 1..j] + [q[j]] + q[j + 1..];
  }

  lemma {:induction false} CountOneWhenUnique(s: seq<Layer>, a: int)
    requires UniqueIds(s) && 0 <= a < |s|
    ensures multiset(Ids(s))[s[a].id] == 1
  {
    var x := s[a].id;
    assert Ids(s) == Ids(s[..a]) + [x] + Ids(s[a + 1..]) by {
      IdsAround(s, a);
    }
    assert x !in Ids(s[..a]);
    assert x !in Ids(s[a + 1..]);
  }

  /** With unique ids, moving a layer to the front twice is moving it once. */
  lemma MoveToFrontIdempotent(s: seq<Layer>, id: string)
    requires UniqueIds(s)
    ensures MovedToFront(MovedToFront(s, id), id) == MovedToFront(s, id)
  {
    var k := FindIndex(s, id);
    var r := MovedToFront(s, id);
    if k != -1 && k != |s| - 1 {
      FrontBackKeepInvariants(s, id);
      assert r[|s| - 1].id == id;
      FindIndexUnique(r, |s| - 1);
    }
  }

  /** With unique ids, moving a layer to the back twice is moving it once. */
  lemma MoveToBackIdempotent(s: seq<Layer>, id: string)
    requires UniqueIds(s)
    ensures MovedToBack(MovedToBack(s, id), id) == MovedToBack(s, id)
  {
    var k := FindIndex(s, id);
    if k != -1 && k != 0 {
      assert MovedToBack(s, id)[0].id == id;
    }
  }

  /** Positions k and k + 1 of a stacked sequence exchanged, each with its new zIndex. */
  function SwapAt(s: seq<Layer>, k: int): (r: seq<Layer>)
    requires 0 <= k < |s| - 1
    ensures |r| == |s| && r[k].id == s[k + 1].id && r[k + 1].id == s[k].id
    ensures forall i :: 0 <= i < |s| && i != k && i != k + 1 ==> r[i] == s[i]
  {
    s[k := s[k + 1].(zIndex := k)][k + 1 := s[k].(zIndex := k + 1)]
  }

  /** Exchanging neighbours keeps a stacked sequence stacked and its ids unique, and exchanging
      them again restores it. */
  lemma SwapAtFacts(s: seq<Layer>, k: int)
    requires Stacked(s) && 0 <= k < |s| - 1
    ensures Stacked(SwapAt(s, k))
    ensures UniqueIds(s) ==> UniqueIds(SwapAt(s, k))
    ensures SwapAt(SwapAt(s, k), k) == s
  {
    var r := SwapAt(s, k);
    if UniqueIds(s) {
      forall i, j | 0 <= i < j < |r| ensures r[i].id != r[j].id {
        var i' := if i == k then k + 1 else if i == k + 1 then k else i;
        var j' := if j == k then k + 1 else if j == k + 1 then k else j;
        assert r[i].id == s[i'].id && r[j].id == s[j'].id;
      }
    }
  }

  /** Re-indexing a stacked sequence after exchanging positions k and k + 1 is `SwapAt`. */
  lemma ReindexedSwapIsSwapAt(s: seq<Layer>, k: int)
    requires Stacked(s) && 0 <= k < |s| - 1
    ensures Reindexed(s[k := s[k + 1]][k + 1 := s[k]]) == SwapAt(s, k)
  {
  }

  /** On a stacked sequence, a step up of the layer at k exchanges positions k and k + 1. */
  lemma StepUpIsSwap(s: seq<Layer>, k: int)
    requires Stacked(s) && UniqueIds(s) && 0 <= k < |s| - 1
    ensures Reordered(s, s[k].id, Up) == SwapAt(s, k)
  {
    FindIndexUnique(s, k);
    assert Reordered(s, s[k].id, Up) == Reindexed(s[k := s[k + 1]][k + 1 := s[k]]);
    ReindexedSwapIsSwapAt(s, k);
  }

  /** On a stacked sequence, a step down of the layer at k + 1 exchanges positions k and k + 1. */
  lemma StepDownIsSwap(s: seq<Layer>, k: int)
    requires Stacked(s) && UniqueIds(s) && 0 <= k < |s| - 1
    ensures Reordered(s, s[k + 1].id, Down) == SwapAt(s, k)
  {
    FindIndexUnique(s, k + 1);
    assert Reordered(s, s[k + 1].id, Down) == Reindexed(s[k + 1 := s[k]][k := s[k + 1]]);
    assert s[k + 1 := s[k]][k := s[k + 1]] == s[k := s[k + 1]][k + 1 := s[k]];
    ReindexedSwapIsSwapAt(s, k);
  }

  /** On a stacked sequence with unique ids, one step up then one step down is no move at all. */
  lemma ReorderUpThenDown(s: seq<Layer>, k: int)
    requires Stacked(s) && UniqueIds(s) && 0 <= k < |s| - 1
    ensures Reordered(Reordered(s, s[k].id, Up), s[k].id, Down) == s
  {
    StepUpIsSwap(s, k);
    var r := SwapAt(s, k);
    SwapAtFacts(s, k);
    assert r[k + 1].id == s[k].id;
    StepDownIsSwap(r, k);
  }

  /** Moving the second of five stacked layers to the front gives the order 0, 2, 3, 4, 1,
      re-indexed 0..4. */
  lemma MoveToFrontExample(s: seq<Layer>)
    requires |s| == 5 && Stacked(s) && UniqueIds(s)
    ensures MovedToFront(s, s[1].id) == Reindexed([s[0], s[2], s[3], s[4], s[1]])
    ensures MovedToFront(s, s[1].id)[4] == s[1].(zIndex := 4)
  {
    FindIndexUnique(s, 1);
    assert s[..1] + s[2..] + [s[1]] == [s[0], s[2], s[3], s[4], s[1]];
  }

  /** With unique ids, removal drops exactly the addressed layer and re-indexes the rest. */
  lemma RemoveUnique(s: seq<Layer>, k: int)
    requires UniqueIds(s) && 0 <= k < |s|
    ensures RemovedLayers(s, s[k].id) == Reindexed(s[..k] + s[k + 1..])
    ensures |RemovedLayers(s, s[k].id)| == |s| - 1
    ensures UniqueIds(RemovedLayers(s, s[k].id))
  {
    FilterOutUnique(s, k);
    var t := s[..k] + s[k + 1..];
    UniqueAfterDrop(s, k);
    UniqueReindexed(t);
  }

  /** Dropping one position keeps ids unique. */
  lemma UniqueAfterDrop(s: seq<Layer>, k: int)
    requires UniqueIds(s) && 0 <= k < |s|
    ensures UniqueIds(s[..k] + s[k + 1..])
  {
    var t := s[..k] + s[k + 1..];
    forall i, j | 0 <= i < j < |t| ensures t[i].id != t[j].id {
      var i' := if i < k then i else i + 1;
      var j' := if j < k then j else j + 1;
      assert t[i] == s[i'] && t[j] == s[j'];
    }
  }

  /** Re-indexing keeps ids unique. */
  lemma UniqueReindexed(t: seq<Layer>)
    requires UniqueIds(t)
    ensures UniqueIds(Reindexed(t))
  {
  }

  /** No two layers share an image handle. */
  predicate UniqueHandles(s: seq<Layer>) {
    forall i, j :: 0 <= i < j < |s| ==> s[i].blobUrl != s[j].blobUrl
  }

  /** When handles are not shared, the handle removal releases belongs to no remaining layer. */
  lemma ReleasedHandleNotShared(s: seq<Layer>, id: string)
    requires UniqueHandles(s)
    requires ReleasedHandle(s, id).Some?
    ensures forall l :: l in RemovedLayers(s, id) ==> l.blobUrl != ReleasedHandle(s, id).value
  {
    var k := FindIndex(s, id);
    var f := FilterOut(s, id);
    forall l | l in RemovedLayers(s, id) ensures l.blobUrl != s[k].blobUrl {
      var i :| 0 <= i < |f| && RemovedLayers(s, id)[i] == l;
      assert l.blobUrl == f[i].blobUrl && f[i].id != id;
      assert f[i] in s;
      var j :| 0 <= j < |s| && s[j] == f[i];
      assert j != k;
    }
  }

  /** An update that only moves, rotates, hides or locks keeps a layer's policy and its
      consistency, and keeps a stacked sequence stacked. */
  lemma PlacementUpdateKeepsInvariants(l: Layer, u: LayerUpdate)
    requires PlacementOnly(u)
    ensures PolicyOf(ApplyUpdate(l, u)) == PolicyOf(l)
    ensures Consistent(l) ==> Consistent(ApplyUpdate(l, u))
    ensures GeometryOf(ApplyUpdate(l, u)) == GeometryOf(l) && ApplyUpdate(l, u).zIndex == l.zIndex
    ensures ApplyUpdate(l, u) == l.(x := u.x.GetOr(l.x), y := u.y.GetOr(l.y), rotation := u.rotation.GetOr(l.rotation),
                                    visible := u.visible.GetOr(l.visible), locked := u.locked.GetOr(l.locked))
  {
  }
}
