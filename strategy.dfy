/** The decoded layout that the board-code codec hands to the renderer.
    Only the fields the renderer reads are modelled. Numbers are exact reals
    (JavaScript doubles in the source). The arc span of ring and fan sectors
    is modelled as a whole number of degrees; fractional spans are not
    represented. */
module Strategy {

  datatype Option<+T> = None | Some(value: T) {
    /** JavaScript's `v ?? d`: the value when present, else the default. */
    function GetOr(default: T): T {
      match this
      case Some(v) => v
      case None => default
    }
  }

  /** The seven background choices of a board. */
  datatype BackgroundType =
    | NoBackground      // 'none'
    | Checkered
    | CheckeredCircle
    | CheckeredSquare
    | Grey
    | GreyCircle
    | GreySquare

  /** One marker of a layout. Absent optional fields are `None`; an absent
      boolean flag reads as false, as an undefined flag does in a JavaScript
      condition. */
  datatype StrategyObject = StrategyObject(
    kind: string,                 // the `type` string, e.g. "donut"
    x: real,
    y: real,
    text: Option<string>,
    color: Option<string>,
    endX: Option<real>,
    endY: Option<real>,
    width: Option<real>,
    height: Option<real>,
    size: Option<real>,           // uniform scale in percent
    angle: Option<real>,          // rotation in degrees
    transparency: Option<real>,   // percent
    donutRadius: Option<real>,
    arcAngle: Option<int>,        // sector span in degrees
    hidden: bool,
    horizontalFlip: bool,
    verticalFlip: bool
  )

  /** What the codec's `decode` yields: the background and the markers in
      the order they were encoded. */
  datatype DecodeResult = DecodeResult(
    boardBackground: Option<BackgroundType>,
    objects: seq<StrategyObject>
  )
}
