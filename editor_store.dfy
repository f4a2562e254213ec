/** The editor store of src/stores/editorStore.ts as an object: its state fields and one method
    per action, each assigning the new `layers` given by a LayerStack function. */
module Store {
  import opened PrintSizes
  import opened EditorTypes
  import opened StoreGeometry
  import opened LayerStack

  class EditorStore {
    var layers: seq<Layer>
    var selectedLayerId: Option<string>
    var zoom: real
    var panX: real
    var panY: real
    /** The image handles removal has released, in order: the store's calls to revokeObjectURL. */
    ghost var released: seq<string>

    /** The initial state: no layers, nothing selected, unit zoom, no pan. */
    constructor ()
      ensures layers == [] && selectedLayerId == None
      ensures zoom == 1.0 && panX == 0.0 && panY == 0.0
      ensures released == []
    {
      layers := [];
      selectedLayerId := None;
      zoom := 1.0;
      panX := 0.0;
      panY := 0.0;
      released := [];
    }

    /** `addLayer`: appended on top with zIndex the old count, and selected. */
    method AddLayer(data: Layer)
      modifies this`layers, this`selectedLayerId
      ensures layers == LayerStack.AddLayer(old(layers), data)
      ensures layers[|layers| - 1].zIndex == |old(layers)| && layers[|layers| - 1].id == data.id
      ensures selectedLayerId == Some(data.id)
      ensures Stacked(layers) <==> Stacked(old(layers))
    {
      layers := LayerStack.AddLayer(layers, data);
      selectedLayerId := Some(data.id);
    }

    /** `updateLayer`: the fields carried by `updates` merged into every layer with the id. */
    method UpdateLayer(id: string, updates: LayerUpdate)
      modifies this`layers
      ensures layers == UpdatedLayers(old(layers), id, updates)
      ensures updates.zIndex.None? && Stacked(old(layers)) ==> Stacked(layers)
    {
      layers := UpdatedLayers(layers, id, updates);
    }

    /** `removeLayer`: the layer dropped, the rest re-indexed, its handle released when it has
        one, and the selection cleared only if it was this layer. */
    method RemoveLayer(id: string)
      modifies this`layers, this`selectedLayerId, this`released
      ensures layers == RemovedLayers(old(layers), id) && Stacked(layers) && !HasId(layers, id)
      ensures selectedLayerId == if old(selectedLayerId) == Some(id) then None else old(selectedLayerId)
      ensures released == old(released) + match ReleasedHandle(old(layers), id)
        case Some(h) => [h]
        case None => []
      ensures !HasId(old(layers), id) ==> released == old(released)
    {
      var handle := ReleasedHandle(layers, id);
      if handle.Some? {
        released := released + [handle.value];
      }
      layers := RemovedLayers(layers, id);
      if selectedLayerId == Some(id) {
        selectedLayerId := None;
      }
    }

    /** `selectLayer`: any id, or none, is accepted. */
    method SelectLayer(id: Option<string>)
      modifies this`selectedLayerId
      ensures selectedLayerId == id
    {
      selectedLayerId := id;
    }

    /** `reorderLayer`: one step up or down; nothing changes at either end or for an unknown id. */
    method ReorderLayer(id: string, direction: Direction)
      modifies this`layers
      ensures layers == Reordered(old(layers), id, direction)
      ensures Stacked(old(layers)) ==> Stacked(layers)
    {
      ReorderKeepsInvariants(layers, id, direction);
      layers := Reordered(layers, id, direction);
    }

    /** `moveLayerToFront`. */
    method MoveLayerToFront(id: string)
      modifies this`layers
      ensures layers == MovedToFront(old(layers), id)
      ensures Stacked(old(layers)) ==> Stacked(layers)
    {
      FrontBackKeepInvariants(layers, id);
      layers := MovedToFront(layers, id);
    }

    /** `moveLayerToBack`. */
    method MoveLayerToBack(id: string)
      modifies this`layers
      ensures layers == MovedToBack(old(layers), id)
      ensures Stacked(old(layers)) ==> Stacked(layers)
    {
      FrontBackKeepInvariants(layers, id);
      layers := MovedToBack(layers, id);
    }

    /** `clearSelection`. */
    method ClearSelection()
      modifies this`selectedLayerId
      ensures selectedLayerId == None
    {
      selectedLayerId := None;
    }

    /** `setZoom`: stored as given, with no clamping. */
    method SetZoom(newZoom: real)
      modifies this`zoom
      ensures zoom == newZoom
    {
      zoom := newZoom;
    }

    /** `setPan`. */
    method SetPan(x: real, y: real)
      modifies this`panX, this`panY
      ensures panX == x && panY == y
    {
      panX, panY := x, y;
    }

    /** `setLayerPrintSize`, with the source's defaults: portrait, classic, width fixed. */
    method SetLayerPrintSize(layerId: string, size: Option<PrintSize>, isLandscape: bool := false,
                             mode: PrintMode := Classic, fixedSide: FixedSide := Width)
      requires forall i :: 0 <= i < |layers| && layers[i].id == layerId ==> WellSized(layers[i].(printSize := size))
      modifies this`layers
      ensures layers == PrintSizeSet(old(layers), layerId, size, isLandscape, mode, fixedSide)
      ensures forall i :: 0 <= i < |layers| && layers[i].id == layerId ==> Consistent(layers[i])
    {
      layers := PrintSizeSet(layers, layerId, size, isLandscape, mode, fixedSide);
    }

    /** `toggleLayerOrientation`. */
    method ToggleLayerOrientation(layerId: string)
      requires AddressedWellSized(layers, layerId)
      modifies this`layers
      ensures layers == OrientationToggled(old(layers), layerId)
    {
      layers := OrientationToggled(layers, layerId);
    }

    /** `setLayerPrintMode`, with fixed side defaulting to width. */
    method SetLayerPrintMode(layerId: string, mode: PrintMode, fixedSide: FixedSide := Width)
      requires AddressedWellSized(layers, layerId)
      modifies this`layers
      ensures layers == PrintModeSet(old(layers), layerId, mode, fixedSide)
    {
      layers := PrintModeSet(layers, layerId, mode, fixedSide);
    }

    /** `setLayerCrop`: unchecked. */
    method SetLayerCrop(layerId: string, crop: Crop)
      modifies this`layers
      ensures layers == CropSet(old(layers), layerId, crop)
    {
      layers := CropSet(layers, layerId, crop);
    }
  }
}
