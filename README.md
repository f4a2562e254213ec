# phanography editor core in Dafny

phanography is a browser editor that lays out photographs for printing. It has a fixed
catalog of print sizes (9 × 13, 10 × 15, 11 × 16 and 13 × 18 cm), drawn on a canvas at
12 pixels per centimetre. Each imported photo becomes a *layer*. A layer with a print size
has a *print mode*:

- **classic**: the image is cropped, centred, to the print's aspect;
- **original**: nothing is cropped and one display side is pinned to the print.

A layer without a print size is shown at its natural size, scaled down to fit 200 × 200 pixels.

This project models the parts of the editor that decide what is on the page:

- the layer store and its actions: add, update, remove, select, restack, zoom/pan,
  print size, orientation, print mode, crop;
- the print-size and canvas-scale helpers;
- the canvas's wheel zoom, its keyboard shortcuts and its drawing order;
- the arithmetic of the image import.

It then proves what those parts promise.

Modules follow the source files:

| module | file | what it holds |
|---|---|---|
| `PrintSizes` | `print_sizes.dfy` | the catalog and the orientation helpers |
| `CanvasScale` | `canvas_scale.dfy` | cm ↔ canvas pixels |
| `EditorTypes` | `editor_types.dfy` | the layer record and the partial update record |
| `StoreGeometry` | `store_geometry.dfy` | what each geometry action does to one layer, plus a sum-type view of the layer's sizing policy (`Policy`) and the predicate `Consistent` (the crop and display size are exactly what the policy prescribes) |
| `LayerStack` | `layer_stack.dfy` | each store action's new `layers` sequence as a function of the old one, with the stacking invariant `Stacked` (every zIndex equals its position) and id uniqueness |
| `Store` | `editor_store.dfy` | the store as a class; each action is a method assigning the `LayerStack` function's result |
| `Canvas` | `editor_canvas.dfy` | wheel zoom, the keydown dispatch, `sortedLayers` |
| `ImageUpload` | `image_upload.dfy` | HEIC detection, the downsampling target, the default layer, the batch |

Toggling orientation twice restores a layer whenever its crop and display are what its
print policy prescribes (`ToggleTwiceRestores`). The converse does not hold: a layer without a
print size, with a square size, or in original mode with a hand-set crop also comes back
unchanged. A freshly imported landscape photo is not in
that state. The import crops every photo to the portrait 9/13 aspect, while the store crops a
landscape 9 × 13 print to 13/9. Two toggles restore such a layer's display but replace its crop
(`LandscapeImportToggledTwice`).

Modelling conventions:

- Geometry is computed over exact reals.
- JavaScript's `null` is `None`.
- An empty selected id or an empty blob URL is treated as falsy, as the source's truthiness tests do.

## Model

| member | source | states |
|---|---|---|
| PrintSizes.GetPrintDimensions | src/constants/printSizes.ts:49-67 | portrait keeps the catalog sides, landscape swaps them; the duplicated `width`/`height` fields equal the cm fields |
| PrintSizes.LandscapeSwapsPortrait | src/constants/printSizes.ts:49-67 | the landscape dimensions are the portrait ones with the axes exchanged |
| PrintSizes.OrientationIrrelevantIffSquare | src/constants/printSizes.ts:70-72 | a size is square exactly when both orientations give the same dimensions |
| PrintSizes.IsSquareSize | src/constants/printSizes.ts:70-72 | a size is square exactly when turning it leaves its dimensions unchanged |
| PrintSizes.CatalogShape | src/constants/printSizes.ts:10-43 | four entries 9x13, 10x15, 11x16, 13x18 in that order, distinct ids, every entry positive and taller than wide |
| PrintSizes.CatalogHasNoSquare | src/constants/printSizes.ts:10-43 | every catalog entry is measurable and not square, so orientation toggling always has an effect on it |
| PrintSizes.DefaultsAreAsDocumented | src/constants/printSizes.ts:4-46 | the default size is the 10 × 15 entry at index 1 and the print DPI is 300 |
| CanvasScale.CanvasPixelsToCm | src/constants/canvasScale.ts:14-16 | the result is positive exactly when the pixel length is |
| CanvasScale.CmToCanvasPixels | src/constants/canvasScale.ts:9-11 | converting back with `canvasPixelsToCm` returns the input; positivity is preserved both ways |
| CanvasScale.PixelsRoundTrip | src/constants/canvasScale.ts:9-16 | pixels → cm → pixels is the identity |
| CanvasScale.CmToCanvasPixelsMonotone | src/constants/canvasScale.ts:9-11 | a < b iff their pixel lengths are in the same order |
| CanvasScale.GetCanvasDimensions | src/constants/canvasScale.ts:19-34 | positive sides give positive dimensions; portrait keeps the print aspect, landscape the inverted aspect |
| CanvasScale.PortraitIsConverted | src/constants/canvasScale.ts:19-34 | portrait dimensions are 12 × each side |
| CanvasScale.LandscapeSwapsPortrait | src/constants/canvasScale.ts:19-34 | landscape dimensions are the portrait ones swapped |
| CanvasScale.NineByThirteenPortrait | src/constants/canvasScale.ts:6-34 | a 9 × 13 portrait print occupies 108 × 156 canvas pixels |
| StoreGeometry.CenteredCrop | src/stores/editorStore.ts:7-39 | the crop lies in the unit square, is centred on both axes, spans the whole image on one axis, and has the target's pixel aspect |
| StoreGeometry.CenteredCropContinuousAtTie | src/stores/editorStore.ts:22-35 | when image and target aspects are equal both branches give the full image |
| StoreGeometry.CenteredCropScaleInvariant | src/stores/editorStore.ts:7-39 | the centred crop depends on the target only through its aspect |
| StoreGeometry.PrintTargetPixels | src/stores/editorStore.ts:188-205 | the oriented print's sides in centimetres converted to pixels at 300 DPI (cm / 2.54 · 300), both positive |
| StoreGeometry.ClassicGeometry | src/stores/editorStore.ts:188-220 | display is the print's canvas footprint; the crop is the centred crop for the 300-DPI print target, in bounds, with the display's aspect |
| StoreGeometry.OriginalGeometry | src/stores/editorStore.ts:221-255 | no crop; the fixed side equals the print's canvas side; display keeps the image aspect |
| StoreGeometry.FreeGeometry | src/stores/editorStore.ts:162-184 | no crop; display within 200 × 200, never larger than the image, image aspect kept, and one bound reached or the natural size used |
| StoreGeometry.WithGeometry | src/stores/editorStore.ts:157-258 | writes exactly the crop and display fields, leaving placement, size and mode untouched |
| StoreGeometry.ConsistentIsDrawable | src/stores/editorStore.ts:157-258 | a layer whose geometry matches its policy has its crop inside the image and a positive display |
| StoreGeometry.SetPrintSizeOn | src/stores/editorStore.ts:157-258 | placement untouched; the layer ends consistent; null gives the unconstrained policy, a size gives classic or original per the `mode` argument |
| StoreGeometry.ToggledOrientation | src/stores/editorStore.ts:260-322 | no-op without a size or with a square size; otherwise orientation flips and the policy turns. Classic: crop and display recomputed for the new orientation. Original: crop kept, fixed side flipped, display from the original geometry for the flipped side |
| StoreGeometry.WithPrintMode | src/stores/editorStore.ts:325-388 | no-op without a size; otherwise the layer ends consistent in the requested mode with size and orientation kept |
| StoreGeometry.WithCrop | src/stores/editorStore.ts:391-399 | only the four crop fields change, to the given rectangle; placement, size, orientation, mode and fixed side are kept |
| StoreGeometry.TurnedTwice | src/stores/editorStore.ts:260-322 | a policy turned twice is itself |
| StoreGeometry.ClearedPrintSize | src/stores/editorStore.ts:162-184 | clearing the size resets orientation, mode and fixed side, sets the full crop and a display within 200 × 200 and within the image, with its aspect |
| StoreGeometry.ToggleKeepsConsistent | src/stores/editorStore.ts:260-322 | toggling a consistent layer leaves it consistent |
| StoreGeometry.ToggleTwiceRestores | src/stores/editorStore.ts:260-322 | toggling a consistent layer twice restores it exactly |
| StoreGeometry.ClassicToggleMakesConsistent | src/stores/editorStore.ts:292-318 | a classic toggle of a non-square, classic-mode layer without a fixed side leaves it consistent, whatever its crop and display were |
| StoreGeometry.ClassicToggleTwiceRestoresDisplay | src/stores/editorStore.ts:260-322 | two toggles restore the orientation and display of every classic layer shown at its print footprint |
| StoreGeometry.OriginalTogglePinsSameEdge | src/stores/editorStore.ts:265-300 | in original mode the pinned length stays on the same physical edge across a toggle |
| StoreGeometry.ModeRoundTrip | src/stores/editorStore.ts:325-388 | original → classic → original with the same fixed side restores a consistent layer |
| StoreGeometry.ModeReapplyIsIdentity | src/stores/editorStore.ts:325-388 | setting the mode a consistent layer already has changes nothing |
| LayerStack.StackedZIndicesAreRange | src/stores/editorStore.ts:52-140 | under the stacking invariant the zIndex values are exactly 0..N-1 |
| LayerStack.Reindexed | src/stores/editorStore.ts:82-85 | same layers in the same order, each zIndex its position |
| LayerStack.FindIndex | src/stores/editorStore.ts:96-140 | -1 iff the id is absent; otherwise the first position holding it |
| LayerStack.FindIndexUnique | src/stores/editorStore.ts:96-140 | with unique ids the index found for a layer's id is that layer's position |
| LayerStack.AddLayer | src/stores/editorStore.ts:52-63 | old layers kept as a prefix, new layer on top with zIndex the old count; stacking and id uniqueness preserved (iff the id is new) |
| LayerStack.FilterOut | src/stores/editorStore.ts:73-90 | no layer with the id remains, every layer without it survives, nothing new appears, unchanged when the id is absent, shorter when present |
| LayerStack.FilterOutCount | src/stores/editorStore.ts:73-90 | exactly as many layers are dropped as hold the id |
| LayerStack.FilterOutConcat | src/stores/editorStore.ts:73-90 | filtering works piecewise, so the survivors keep their relative order |
| LayerStack.FilterOutUnique | src/stores/editorStore.ts:73-90 | with unique ids, removal drops exactly the addressed position |
| LayerStack.RemovedLayers | src/stores/editorStore.ts:73-90 | result stacked and free of the id |
| LayerStack.ReleasedHandle | src/stores/editorStore.ts:73-81 | a handle is released iff a layer with the id exists and its blob URL is non-empty, and the handle is that first layer's blob URL |
| LayerStack.Reordered | src/stores/editorStore.ts:96-111 | unchanged for an unknown id or a move past either end; otherwise the layer and its neighbour swap, all re-indexed |
| LayerStack.MovedToFront | src/stores/editorStore.ts:114-126 | unchanged if absent or already on top; otherwise the layer goes on top, the others keep their relative order, re-indexed |
| LayerStack.MovedToBack | src/stores/editorStore.ts:128-140 | unchanged if absent or already at the bottom; otherwise the layer goes to the bottom, the others keep order, re-indexed |
| LayerStack.MapWhere | src/stores/editorStore.ts:65-71 | the per-layer function applied to exactly the layers carrying the id |
| LayerStack.ApplyUpdate | src/stores/editorStore.ts:65-71 | every field the update carries takes the carried value, every other field keeps the layer's; the id never changes |
| LayerStack.UpdatedLayers | src/stores/editorStore.ts:65-71 | every layer with the id becomes the merge of itself and the update; other layers untouched; ids and order kept; stacking kept unless zIndex is written |
| LayerStack.PrintSizeSet | src/stores/editorStore.ts:157-258 | every addressed layer gets the requested policy and ends consistent; others untouched; ids and stacking kept |
| LayerStack.OrientationToggled | src/stores/editorStore.ts:260-322 | every addressed layer is toggled as `ToggledOrientation` says (no-op without a size or for a square size); others untouched; ids and stacking kept |
| LayerStack.PrintModeSet | src/stores/editorStore.ts:325-388 | every addressed layer with a size ends consistent with the requested mode and, in original mode, the requested fixed side; layers without a size and other layers untouched |
| LayerStack.CropSet | src/stores/editorStore.ts:391-399 | each addressed layer becomes `WithCrop` of itself, so only its four crop fields change; others untouched |
| LayerStack.IdsOfConcat | src/stores/editorStore.ts:114-140 | the ids of a concatenation are the concatenated ids |
| LayerStack.IdsReindexed | src/stores/editorStore.ts:82-85 | re-indexing keeps the id sequence |
| LayerStack.IdsAround | src/stores/editorStore.ts:114-140 | the ids split around one position |
| LayerStack.FrontPermutes | src/stores/editorStore.ts:114-126 | moving to front permutes the ids |
| LayerStack.BackPermutes | src/stores/editorStore.ts:128-140 | moving to back permutes the ids |
| LayerStack.ReorderPermutes | src/stores/editorStore.ts:96-111 | a one-step reorder permutes the ids |
| LayerStack.SwapAt | src/stores/editorStore.ts:104-108 | neighbours k and k + 1 exchange places, everything else stays |
| LayerStack.SwapAtFacts | src/stores/editorStore.ts:96-111 | exchanging neighbours keeps a stacked sequence stacked and ids unique, and doing it twice restores it |
| LayerStack.StepUpIsSwap | src/stores/editorStore.ts:96-111 | on a stacked sequence with unique ids a step up of the layer at k is the exchange of k and k + 1 |
| LayerStack.StepDownIsSwap | src/stores/editorStore.ts:96-111 | on a stacked sequence with unique ids a step down of the layer at k + 1 is the same exchange |
| LayerStack.ReorderKeepsInvariants | src/stores/editorStore.ts:96-111 | a one-step reorder preserves id uniqueness and the stacking invariant |
| LayerStack.FrontBackKeepInvariants | src/stores/editorStore.ts:113-140 | moving a layer to the front or the back preserves id uniqueness and the stacking invariant |
| LayerStack.UniqueFromMultiset | src/stores/editorStore.ts:96-140 | id uniqueness survives any permutation of the ids |
| LayerStack.CountOneWhenUnique | src/stores/editorStore.ts:96-140 | with unique ids each id occurs exactly once |
| LayerStack.MoveToFrontIdempotent | src/stores/editorStore.ts:114-126 | moving to front twice equals moving once |
| LayerStack.MoveToBackIdempotent | src/stores/editorStore.ts:128-140 | moving to back twice equals moving once |
| LayerStack.ReorderUpThenDown | src/stores/editorStore.ts:96-111 | one step up then one step down restores a stacked sequence with unique ids |
| LayerStack.MoveToFrontExample | src/stores/editorStore.ts:114-126 | moving the second of five layers to the front gives order 0, 2, 3, 4, 1 re-indexed |
| LayerStack.RemoveUnique | src/stores/editorStore.ts:73-90 | with unique ids removal drops exactly one layer and keeps ids unique |
| LayerStack.UniqueAfterDrop | src/stores/editorStore.ts:82-84 | dropping one position keeps ids unique |
| LayerStack.ReleasedHandleNotShared | src/stores/editorStore.ts:73-90 | with unshared handles, the released handle belongs to no remaining layer |
| LayerStack.PlacementUpdateKeepsInvariants | src/stores/editorStore.ts:65-71 | a move/rotate/visibility/lock update changes exactly the carried placement fields and keeps policy, consistency, geometry and zIndex |
| Store.EditorStore.constructor | src/stores/editorStore.ts:41-49 | no layers, no selection, zoom 1, pan 0 |
| Store.EditorStore.AddLayer | src/stores/editorStore.ts:52-63 | layers become `LayerStack.AddLayer` of the old ones and the new layer is selected |
| Store.EditorStore.UpdateLayer | src/stores/editorStore.ts:65-71 | layers become `UpdatedLayers`; stacking kept when zIndex is not written |
| Store.EditorStore.RemoveLayer | src/stores/editorStore.ts:73-90 | layers become `RemovedLayers`; the layer's handle is released if it has one; the selection is cleared only if it was this layer |
| Store.EditorStore.SelectLayer | src/stores/editorStore.ts:92-94 | the selection becomes the argument |
| Store.EditorStore.ReorderLayer | src/stores/editorStore.ts:96-111 | layers become `Reordered`; stacking kept |
| Store.EditorStore.MoveLayerToFront | src/stores/editorStore.ts:114-126 | layers become `MovedToFront`; stacking kept |
| Store.EditorStore.MoveLayerToBack | src/stores/editorStore.ts:128-140 | layers become `MovedToBack`; stacking kept |
| Store.EditorStore.ClearSelection | src/stores/editorStore.ts:142-144 | no selection |
| Store.EditorStore.SetZoom | src/stores/editorStore.ts:147-150 | zoom stored as given |
| Store.EditorStore.SetPan | src/stores/editorStore.ts:152-154 | pan stored as given |
| Store.EditorStore.SetLayerPrintSize | src/stores/editorStore.ts:157-258 | layers become `PrintSizeSet`, every addressed layer ending consistent |
| Store.EditorStore.ToggleLayerOrientation | src/stores/editorStore.ts:260-322 | layers become `OrientationToggled` |
| Store.EditorStore.SetLayerPrintMode | src/stores/editorStore.ts:325-388 | layers become `PrintModeSet` |
| Store.EditorStore.SetLayerCrop | src/stores/editorStore.ts:391-399 | layers become `CropSet` |
| Canvas.WheelZoom | src/components/Canvas/EditorCanvas.tsx:84-103 | scroll down divides the scale by 1.12, otherwise it is multiplied; the canvas point under the pointer stays under it |
| Canvas.ZoomInThenOutRestores | src/components/Canvas/EditorCanvas.tsx:92-102 | one notch in then out at the same pointer restores zoom and pan |
| Canvas.ZoomOutThenInRestores | src/components/Canvas/EditorCanvas.tsx:92-102 | one notch out then in at the same pointer restores zoom and pan |
| Canvas.PanFromWorldPoint | src/components/Canvas/EditorCanvas.tsx:96-102 | at a fixed zoom the pan is determined by the point kept under the pointer |
| Canvas.HandleWheel | src/components/Canvas/EditorCanvas.tsx:84-103 | the store's zoom and pan become the `WheelZoom` viewport |
| Canvas.KeyCommandFor | src/components/Canvas/EditorCanvas.tsx:126-151 | a command is issued iff a non-empty id is selected and the key is a shortcut key. Home gives to-front, End to-back, PageUp step-up, PageDown step-down, and Delete or Backspace delete, each targeting the selected layer |
| Canvas.HandleKeyDown | src/components/Canvas/EditorCanvas.tsx:126-151 | each key runs its store action; Delete also records the removed layer's released handle; any other key changes nothing |
| Canvas.InsertByZIndex | src/components/Canvas/EditorCanvas.tsx:159-162 | inserting into an ascending sequence keeps it ascending and adds exactly that layer |
| Canvas.SortedLayers | src/components/Canvas/EditorCanvas.tsx:159-162 | the draw list is ascending by zIndex and a permutation of the layers |
| Canvas.SortedLayersOfAscending | src/components/Canvas/EditorCanvas.tsx:159-162 | an already-ascending sequence is drawn in its own order |
| Canvas.InsertOnTop | src/components/Canvas/EditorCanvas.tsx:159-162 | a layer no lower than the top of an ascending list is placed last |
| Canvas.DrawOrderIsStackOrder | src/components/Canvas/EditorCanvas.tsx:159-162 | stacked layers are drawn in sequence order, strictly ascending |
| ImageUpload.ToLower | src/hooks/useImageUpload.ts:45-46 | same length, each character lower-cased |
| ImageUpload.ToLowerIdempotent | src/hooks/useImageUpload.ts:45-46 | lower-casing twice equals once |
| ImageUpload.IsHeicFile | src/hooks/useImageUpload.ts:41-48 | HEIC iff the MIME type is image/heic or image/heif, or the lower-cased name ends in .heic or .heif |
| ImageUpload.HeicIgnoresNameCase | src/hooks/useImageUpload.ts:41-48 | a name and its lower-cased form are classified alike |
| ImageUpload.UpperCaseExtensionIsHeic | src/hooks/useImageUpload.ts:41-48 | `IMG.HEIC` with no MIME type is HEIC |
| ImageUpload.JpegIsNotHeic | src/hooks/useImageUpload.ts:41-48 | a JPEG name and type is not HEIC |
| ImageUpload.DownsampleTarget | src/hooks/useImageUpload.ts:64-76 | kept iff both sides are at most 2000; otherwise both sides shrink to at most 2000, one reaches it, and the aspect is kept |
| ImageUpload.DownsampleFacts | src/hooks/useImageUpload.ts:74-76 | the min-scale keeps both sides within 2000, reaches it on one side and is below 1 |
| ImageUpload.GridPosition | src/hooks/useImageUpload.ts:177-182 | file i is placed at (50 + 128·(i mod 3), 50 + 176·⌊i/3⌋): three columns, 128 and 176 pixels apart |
| ImageUpload.GridPositionInjective | src/hooks/useImageUpload.ts:177-182 | two files of a batch never share a position |
| ImageUpload.GridStepsClearDefaultPrint | src/hooks/useImageUpload.ts:181-182 | the grid steps are the 9 × 13 footprint plus the 20-pixel gap |
| ImageUpload.DefaultCrop | src/hooks/useImageUpload.ts:196-214 | equals the store's centred crop for a 9/13 target: in bounds, full on one axis, pixel aspect 9/13 |
| ImageUpload.NewLayer | src/hooks/useImageUpload.ts:175-241 | grid placement; 9 × 13 classic with no fixed side; landscape iff wider than tall; display 108 × 156 or 156 × 108; crop equal to `DefaultCrop`; name defaulting to "Untitled" |
| ImageUpload.NewLayerConsistentIffPortrait | src/hooks/useImageUpload.ts:185-214 | a new layer matches the store's classic geometry exactly when the image is not landscape |
| ImageUpload.LandscapeImportToggledTwice | src/hooks/useImageUpload.ts:185-214 | toggling a fresh landscape import twice restores its display but replaces its 9/13 crop with the store's 13/9 one |
| ImageUpload.ProcessSingleFile | src/hooks/useImageUpload.ts:164-249 | a layer iff the file decoded, and then the default layer for its index |
| ImageUpload.ProcessWithConcurrencyLimit | src/hooks/useImageUpload.ts:134-156 | one result per item, each at its own index, computed from that item and index |
| ImageUpload.ValidLayers | src/hooks/useImageUpload.ts:267 | exactly the successful results are kept; when all succeed all are kept in input order (order with failures: `ValidLayersConcat`) |
| ImageUpload.ValidLayersConcat | src/hooks/useImageUpload.ts:267 | the successful results of a concatenation are those of each part, in order, so input order is kept whatever fails |
| ImageUpload.ValidLayersSingle | src/hooks/useImageUpload.ts:267 | a failed result contributes nothing, a successful one its layer |
| ImageUpload.ProcessedAll | src/hooks/useImageUpload.ts:259-263 | one result per file, each the processing of that file with its own index |
| ImageUpload.AddBatch | src/hooks/useImageUpload.ts:270-272 | the store's layers become `AddedAll` of the batch; the last added layer is selected, or the selection is unchanged for an empty batch |
| ImageUpload.AddedAll | src/hooks/useImageUpload.ts:270-272 | the batch appended in order above the old layers with consecutive zIndex; stacking preserved iff it held |
| ImageUpload.UploadFiles | src/hooks/useImageUpload.ts:251-277 | the successful layers are added in input order and the last one is selected; nothing changes when none succeed |

## Left out

- The `type` and `imageElement` layer fields (the decoded image object) are not modelled; a layer refers to its image by `blobUrl` only.
- Browser I/O is not modelled: file reading, `heic2any` conversion, image decoding, thumbnail drawing, object-URL creation, error messages and the `isUploading` flag. A file reaches the model as an already-decoded image (`DecodedImage`) or as a failure (`None`).
- The ids `generateId` produces are an input (`DecodedImage.id`); their freshness is a hypothesis (`UniqueIds`) of the lemmas that need it.
- ImageUpload.ProcessWithConcurrencyLimit: models one worker claiming items in index order. The interleaving of the `limit` concurrent workers is not modelled; since each result is stored at its own index, the results come out the same either way. It also requires `limit > 0`: the source is only ever called with 3, and with 0 it would start no workers.
- ImageUpload.DownsampleTarget: gives the size before `Math.round`; the rounding to whole pixels is not modelled.
- Canvas.HandleWheel: reads the zoom and pan from the store. The source reads the stage's own scale and position, which can differ from the store's while the stage is being dragged and until the drag ends. The early returns when the stage or the pointer position is missing are not modelled.
- Floating point is not modelled: every geometric computation is over exact reals, so its rounding is out of scope.
- ImageUpload.ToLower: lower-cases ASCII letters only, not the full Unicode `toLowerCase`.
- Canvas.SortedLayers: proves the result is ascending and a permutation, but not that layers with equal zIndex keep their order, even though the insertion it uses is stable.
- The per-layer geometry actions (`SetLayerPrintSize`, `ToggleLayerOrientation`, `SetLayerPrintMode`) require positive natural image dimensions and a print size with positive sides. With zero the source divides by zero and produces NaN/Infinity, which is not modelled.
- Store.EditorStore.SetLayerPrintSize: takes the mode and fixed side from its arguments, which default to classic and width as in the code. Its callers differ: src/components/Toolbar/PrintSizeSelector.tsx:16,19 passes no mode, so picking a size in the toolbar resets a layer to classic and portrait, while src/components/ContextMenu/ImageContextMenu.tsx:22-23,59-60 passes the layer's orientation and the mode and fixed side chosen in the menu, which start as the layer's own. The callers are not part of this model.
- ImageUpload.UploadFiles: adds layers in input order: src/hooks/useImageUpload.ts:139-145 stores each result at its input index and lines 267-272 add the successful ones in that order, whatever order the files finish decoding in.
- The store's other UI state and the React rendering (components, transformer, context menus, export) are not part of this model.
