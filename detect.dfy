/** The standalone detection helper: three constant label lists, the label
    classifier, and the loop that turns the model's boxes into detection
    records without drawing anything. */
module Detect {
  import opened Common

  const RecyclableLabels: seq<string> :=
    ["cardboard_box", "can", "plastic_bottle_cap", "plastic_bottle", "reuseable_paper"]

  const NonRecyclableLabels: seq<string> :=
    ["plastic_bag", "scrap_paper", "stick", "plastic_cup", "snack_bag", "plastic_box",
     "straw", "plastic_cup_lid", "scrap_plastic", "cardboard_bowl", "plastic_cultery"]

  const HazardousLabels: seq<string> :=
    ["battery", "chemical_spray_can", "chemical_plastic_bottle", "chemical_plastic_gallon",
     "light_bulb", "paint_bucket"]

  /** No label is in two lists, so the order of the tests in Classify is irrelevant. */
  lemma LabelListsDisjoint(name: string)
    ensures !(name in RecyclableLabels && name in NonRecyclableLabels)
    ensures !(name in RecyclableLabels && name in HazardousLabels)
    ensures !(name in NonRecyclableLabels && name in HazardousLabels)
  {
  }

  /** Total classifier: the category of the one list holding the label, else Unknown. */
  function Classify(name: string): (c: Category)
    ensures c == Recyclable <==> name in RecyclableLabels
    ensures c == NonRecyclable <==> name in NonRecyclableLabels
    ensures c == Hazardous <==> name in HazardousLabels
    ensures c == Unknown <==>
      name !in RecyclableLabels && name !in NonRecyclableLabels && name !in HazardousLabels
  {
    LabelListsDisjoint(name);
    if name in RecyclableLabels then Recyclable
    else if name in NonRecyclableLabels then NonRecyclable
    else if name in HazardousLabels then Hazardous
    else Unknown
  }

  /** `dets` holds one record per box, in box order: the box's class name as
      label, its category, its unrounded confidence and its corners. */
  ghost predicate ClassifiesEach(ext: Externals, boxes: seq<RawBox>, dets: seq<Detection>) {
    && |dets| == |boxes|
    && forall i :: 0 <= i < |boxes| ==>
         && dets[i].name == ext.names(boxes[i].classId)
         && dets[i].category == Classify(dets[i].name)
         && dets[i].confidence == boxes[i].conf
         && dets[i].bbox == [boxes[i].x1, boxes[i].y1, boxes[i].x2, boxes[i].y2]
  }

  /** Detection without annotation. Fails exactly when the image does not
      decode; it changes no state (it has no modifies clause). */
  method DetectAndClassify(ext: Externals, image: Bytes) returns (r: Option<seq<Detection>>)
    ensures r.None? <==> ModelBoxes(ext, image).None?
    ensures r.Some? ==> ClassifiesEach(ext, ModelBoxes(ext, image).value, r.value)
  {
    var decoded := ext.decode(image);
    if decoded.None? {
      return None;
    }
    var boxes := ext.predict(ext.toRgb(decoded.value));
    var detections: seq<Detection> := [];
    for i := 0 to |boxes|
      invariant ClassifiesEach(ext, boxes[..i], detections)
    {
      var box := boxes[i];
      var name := ext.names(box.classId);
      var category := Classify(name);
      detections := detections + [Detection(name, category, box.conf, [box.x1, box.y1, box.x2, box.y2])];
    }
    assert boxes[..|boxes|] == boxes;
    r := Some(detections);
  }
}
