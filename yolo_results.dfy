/** The part of a YOLO inference result that both detectors read.  The model
    that produces it is not part of this model. */
module Yolo {
  import opened Common

  /** One box: corner coordinates as floats, the confidence, the class index
      and the track id if the tracker assigned one. */
  datatype RawBox = RawBox(x1: real, y1: real, x2: real, y2: real, conf: real, cls: int, id: Option<int>)

  /** The first result of a model call: its box list (None when the result
      carries no boxes) and the class-name table. */
  datatype ModelOutput = ModelOutput(boxes: Option<seq<RawBox>>, names: map<int, string>)

  /** Every box's class index has a name; otherwise `names[class_id]` raises. */
  predicate AllNamed(boxes: seq<RawBox>, names: map<int, string>)
  {
    forall i :: 0 <= i < |boxes| ==> boxes[i].cls in names
  }
}
