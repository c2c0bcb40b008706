/** Values shared by both request handlers of the waste service, and the
    foreign code they call: OpenCV (decode, colour conversion, drawing,
    encoding), the YOLO model (prediction and its class-name table), Python's
    float rounding and ISO time parsing. None of that code is modelled: each
    routine is a total function supplied from outside, so every handler is
    deterministic in it. */
module Common {

  datatype Option<+T> = None | Some(value: T)

  datatype Result<+T, +E> = Success(value: T) | Failure(error: E)

  newtype byte = x: int | 0 <= x < 256

  type Bytes = seq<byte>

  /** A decoded image buffer (BGR or RGB); its pixels are opaque here. */
  type Pixels = seq<byte>

  /** A `datetime`; opaque here. */
  type Timestamp = int

  /** The four disposal categories a label can fall into. */
  datatype Category = Recyclable | NonRecyclable | Hazardous | Unknown {
    /** The string the service returns for the category. */
    function Name(): string {
      match this
      case Recyclable => "Recyclable"
      case NonRecyclable => "Non-Recyclable"
      case Hazardous => "Hazardous"
      case Unknown => "Unknown"
    }
  }

  /** One box of the model's output: integer corner coordinates (the float
      truncation is done by the model side), a confidence and a class id. */
  datatype RawBox = RawBox(x1: int, y1: int, x2: int, y2: int, conf: real, classId: int)

  /** One record of the detection list a handler returns. `name` holds the
      record's "label" (a Dafny keyword); `bbox` holds the corners, which the
      service's record keys "bbox" and the helper's record keys "box". */
  datatype Detection = Detection(name: string, category: Category, confidence: real, bbox: seq<int>)

  /** The foreign routines the handlers call. */
  datatype Externals = Externals(
    decode: Bytes -> Option<Pixels>,             // cv2.imdecode: None when the bytes are no image
    toRgb: Pixels -> Pixels,                     // cv2.cvtColor(BGR -> RGB)
    predict: Pixels -> seq<RawBox>,              // model.predict(...)[0].boxes, in model order
    names: int -> string,                        // model.names[cls_id]
    draw: (Pixels, seq<int>, string) -> Pixels,  // cv2.rectangle of the corners, cv2.putText of the caption
    encode: (string, Pixels) -> Option<Bytes>,   // cv2.imwrite: None when the name has no image format
    round2: real -> real,                        // round(conf, 2)
    parseIsoTime: string -> Option<Timestamp>    // datetime.fromisoformat: None when it raises
  )

  /** The detector: decode the bytes, convert to RGB, run the model. None when
      the bytes do not decode (the handler then raises). */
  function ModelBoxes(ext: Externals, image: Bytes): (boxes: Option<seq<RawBox>>)
    ensures boxes.None? <==> ext.decode(image).None?
  {
    match ext.decode(image)
    case None => None
    case Some(bgr) => Some(ext.predict(ext.toRgb(bgr)))
  }

  /** The caption drawn above a detection's box: `{label} ({category})`. */
  function Caption(d: Detection): (c: string)
    ensures |c| == |d.name| + |d.category.Name()| + 3
    ensures c[..|d.name|] == d.name && c[|c| - 1] == ')'
    ensures c[|d.name|..] == " (" + d.category.Name() + ")"
  {
    d.name + " (" + d.category.Name() + ")"
  }

  /** The image after drawing each detection's box and caption onto it, in list order. */
  function DrawAll(draw: (Pixels, seq<int>, string) -> Pixels, img: Pixels, dets: seq<Detection>): (r: Pixels)
    ensures dets == [] ==> r == img
    ensures |dets| == 1 ==> r == draw(img, dets[0].bbox, Caption(dets[0]))
    decreases |dets|
  {
    if dets == [] then img else draw(DrawAll(draw, img, dets[..|dets| - 1]), dets[|dets| - 1].bbox, Caption(dets[|dets| - 1]))
  }

  /** Drawing `a + b` is drawing `b` on top of the drawing of `a`. */
  lemma {:induction false} DrawAllAppend(draw: (Pixels, seq<int>, string) -> Pixels, img: Pixels,
                                         a: seq<Detection>, b: seq<Detection>)
    ensures DrawAll(draw, img, a + b) == DrawAll(draw, DrawAll(draw, img, a), b)
    decreases |b|
  {
    if b == [] {
      assert a + b == a;
    } else {
      assert (a + b)[..|a + b| - 1] == a + b[..|b| - 1];
      DrawAllAppend(draw, img, a, b[..|b| - 1]);
    }
  }
}
