/** The JSON-like values a motion task carries: capability, parameters, device profile. */
module Motion {

  /** What Python's float() makes of a value: nothing, a finite number, NaN, or an infinity. */
  datatype Reading = NotANumber | Finite(number: real) | NaN | Infinity(negative: bool)

  datatype Json =
    | JNull
    | JBool(flag: bool)
    | JNum(number: real)
    | JNaN
    | JInfinity(negative: bool)
    | JStr(text: string, reading: Reading)
    | JArr(items: seq<Json>)
    | JObj(fields: map<Key, Json>)

  /** Dictionary keys; the ones the validators look at are named. */
  datatype Key =
    | X | Y | Z | DX | DY | DZ
    | Path | Feed | Text | Prompt | SourceCapability | PreviewSvg
    | ImageUrl | ImageUrlCamel | GalleryImageId | GalleryImageIdCamel
    | OtherKey(name: string)

  datatype Capability =
    | RunPath | WriteText | DrawGenerated | DrawImage | DrawFromImage | Handwriting
    | Home | MoveAbs | MoveRel | Pause | Resume | Stop | Estop | GetDeviceInfo
    | OtherCapability(name: string)

  type Params = map<Key, Json>

  /** The part of a task the firmware acts on. */
  datatype Body = Body(capability: Capability, params: Params)
}
