/** The layer record and its small companion types (src/types/editor.ts). */
module EditorTypes {
  import opened PrintSizes

  datatype Option<T> = None | Some(value: T) {
    /** The value when there is one, otherwise `default`. */
    function GetOr(default: T): T {
      match this
      case Some(v) => v
      case None => default
    }
  }

  /** 'classic' crops the image to the print aspect; 'original' pins one side and crops nothing. */
  datatype PrintMode = Classic | Original

  /** In original mode, which display side is pinned to the print size. */
  datatype FixedSide = Width | Height

  /** A crop rectangle normalised to the image: 0..1 on each axis. */
  datatype Crop = Crop(x: real, y: real, width: real, height: real)

  /** One placed photograph. `blobUrl` is the handle of the decoded image the layer owns. */
  datatype Layer = Layer(
    id: string,
    name: string,
    blobUrl: string,
    originalWidth: real,
    originalHeight: real,
    thumbnail: string,
    x: real,
    y: real,
    rotation: real,
    printSize: Option<PrintSize>,
    isLandscape: bool,
    printMode: PrintMode,
    fixedSide: Option<FixedSide>,
    cropX: real,
    cropY: real,
    cropWidth: real,
    cropHeight: real,
    displayWidth: real,
    displayHeight: real,
    zIndex: int,
    visible: bool,
    locked: bool)

  /** The partial record `updateLayer` merges: every field but the id, each one optional.
      A `printSize` or `fixedSide` entry is itself optional, since null is a value there. */
  datatype LayerUpdate = LayerUpdate(
    name: Option<string>,
    blobUrl: Option<string>,
    originalWidth: Option<real>,
    originalHeight: Option<real>,
    thumbnail: Option<string>,
    x: Option<real>,
    y: Option<real>,
    rotation: Option<real>,
    printSize: Option<Option<PrintSize>>,
    isLandscape: Option<bool>,
    printMode: Option<PrintMode>,
    fixedSide: Option<Option<FixedSide>>,
    cropX: Option<real>,
    cropY: Option<real>,
    cropWidth: Option<real>,
    cropHeight: Option<real>,
    displayWidth: Option<real>,
    displayHeight: Option<real>,
    zIndex: Option<int>,
    visible: Option<bool>,
    locked: Option<bool>)

  /** The image has a positive natural size and any print size has positive sides:
      what every geometry computation on the layer divides by. */
  predicate WellSized(l: Layer) {
    && l.originalWidth > 0.0
    && l.originalHeight > 0.0
    && (l.printSize.Some? ==> Measurable(l.printSize.value))
  }

  /** The crop rectangle lies inside the image. */
  predicate CropInBounds(l: Layer) {
    && 0.0 <= l.cropX && 0.0 <= l.cropY
    && 0.0 < l.cropWidth && 0.0 < l.cropHeight
    && l.cropX + l.cropWidth <= 1.0
    && l.cropY + l.cropHeight <= 1.0
  }
}
