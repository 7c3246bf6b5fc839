/** The detection-only detector (src/detection/detector.py): record shaping in
    `detect` and the single-colour drawing of `draw_detections`.  The model is
    an input: its answer for a frame, or None when inference raised. */
module PlainDetector {
  import opened Common
  import opened Drawing
  import opened Yolo

  /** One record of `detect`: exactly a box, a confidence, a class index and a
      class name; a plain detection has no track id. */
  datatype Detection = Detection(bbox: BBox, confidence: real, classId: int, className: string)

  /** The record built for one box: its corners truncated toward zero, its
      confidence and class index as given, and the class's name. */
  function ShapeBox(box: RawBox, names: map<int, string>): (d: Detection)
    requires box.cls in names
    ensures TruncatesTo(box.x1, d.bbox.x1) && TruncatesTo(box.y1, d.bbox.y1)
    ensures TruncatesTo(box.x2, d.bbox.x2) && TruncatesTo(box.y2, d.bbox.y2)
    ensures d.confidence == box.conf && d.classId == box.cls && d.className == names[box.cls]
  {
    Detection(BBox(Trunc(box.x1), Trunc(box.y1), Trunc(box.x2), Trunc(box.y2)),
              box.conf, box.cls, names[box.cls])
  }

  function ShapeAll(boxes: seq<RawBox>, names: map<int, string>): (dets: seq<Detection>)
    requires AllNamed(boxes, names)
    ensures |dets| == |boxes|
    ensures forall i :: 0 <= i < |boxes| ==> dets[i] == ShapeBox(boxes[i], names)
  {
    if boxes == [] then []
    else ShapeAll(boxes[..|boxes| - 1], names) + [ShapeBox(boxes[|boxes| - 1], names)]
  }

  /** What `detect` returns: nothing when inference raised, when the result
      has no box list to iterate, or when a class index has no name; otherwise
      one record per box, in order, with the corners truncated toward zero.
      A track id on a box is ignored. */
  function DetectionRecords(output: Option<ModelOutput>): (dets: seq<Detection>)
    ensures output.None? || output.value.boxes.None? ==> dets == []
    ensures output.Some? && output.value.boxes.Some? && !AllNamed(output.value.boxes.value, output.value.names)
      ==> dets == []
    ensures output.Some? && output.value.boxes.Some? && AllNamed(output.value.boxes.value, output.value.names)
      ==> |dets| == |output.value.boxes.value|
    ensures output.Some? && output.value.boxes.Some? && AllNamed(output.value.boxes.value, output.value.names)
      ==> forall i :: 0 <= i < |dets| ==>
            var box := output.value.boxes.value[i];
            && dets[i].bbox == BBox(Trunc(box.x1), Trunc(box.y1), Trunc(box.x2), Trunc(box.y2))
            && dets[i].confidence == box.conf
            && dets[i].classId == box.cls
            && dets[i].className == output.value.names[box.cls]
  {
    match output
    case None => []
    case Some(ModelOutput(boxes, names)) =>
      if boxes.None? || !AllNamed(boxes.value, names) then [] else ShapeAll(boxes.value, names)
  }

  /** `detect`: the loop that appends one record per box. */
  method Detect(output: Option<ModelOutput>) returns (detections: seq<Detection>)
    ensures detections == DetectionRecords(output)
  {
    if output.None? || output.value.boxes.None? {
      return [];
    }
    var boxes, names := output.value.boxes.value, output.value.names;
    detections := [];
    var i := 0;
    while i < |boxes|
      invariant 0 <= i <= |boxes|
      invariant AllNamed(boxes[..i], names)
      invariant detections == ShapeAll(boxes[..i], names)
    {
      if boxes[i].cls !in names {
        return [];
      }
      assert boxes[..i + 1] == boxes[..i] + [boxes[i]];
      detections := detections + [ShapeBox(boxes[i], names)];
      i := i + 1;
    }
    assert boxes[..i] == boxes;
  }

  /** `"{class_name} {confidence:.2f}"`, with `fixed2` standing for the
      two-decimal float formatting; no id ever appears. */
  function DetectionLabel(det: Detection, fixed2: real -> string): string
  {
    det.className + " " + fixed2(det.confidence)
  }

  function DetectionCommands(det: Detection, fixed2: real -> string): seq<DrawCommand>
  {
    BoxCommands(det.bbox, DetectionLabel(det, fixed2), DetectedColor)
  }

  /** Everything `draw_detections` draws for a detection list. */
  function Commands(detections: seq<Detection>, fixed2: real -> string): (cmds: seq<DrawCommand>)
    ensures |cmds| == 2 * |detections|
  {
    if detections == [] then []
    else Commands(detections[..|detections| - 1], fixed2) + DetectionCommands(detections[|detections| - 1], fixed2)
  }

  lemma {:induction false} CommandsSlice(detections: seq<Detection>, fixed2: real -> string, i: nat)
    requires i < |detections|
    ensures Commands(detections, fixed2)[2 * i..2 * i + 2] == DetectionCommands(detections[i], fixed2)
  {
    var n := |detections|;
    var prefix := Commands(detections[..n - 1], fixed2);
    var last := DetectionCommands(detections[n - 1], fixed2);
    assert Commands(detections, fixed2) == prefix + last;
    if i < n - 1 {
      CommandsSlice(detections[..n - 1], fixed2, i);
      assert detections[..n - 1][i] == detections[i];
    }
    SliceOfConcat(prefix, last, 2 * i, 2 * i + 2);
  }

  /** Detection `i` owns commands `2i` and `2i+1`: its rectangle and, ten
      pixels above the top-left corner, exactly the class-and-confidence
      label; both green, whatever the detection. */
  lemma CommandsAt(detections: seq<Detection>, fixed2: real -> string, i: nat)
    requires i < |detections|
    ensures var cmds := Commands(detections, fixed2);
      var det := detections[i];
      && cmds[2 * i] == Rectangle(Point(det.bbox.x1, det.bbox.y1), Point(det.bbox.x2, det.bbox.y2),
                                  DetectedColor, LineThickness)
      && cmds[2 * i + 1] == Text(det.className + " " + fixed2(det.confidence),
                                 Point(det.bbox.x1, det.bbox.y1 - LabelLift), DetectedColor, FontScale, LineThickness)
  {
    CommandsSlice(detections, fixed2, i);
    var cmds := Commands(detections, fixed2);
    assert cmds[2 * i] == cmds[2 * i..2 * i + 2][0];
    assert cmds[2 * i + 1] == cmds[2 * i..2 * i + 2][1];
  }

  /** Every command `draw_detections` issues is green. */
  lemma {:induction false} AllGreen(detections: seq<Detection>, fixed2: real -> string)
    ensures forall k :: 0 <= k < |Commands(detections, fixed2)| ==> Commands(detections, fixed2)[k].color == DetectedColor
  {
    if detections != [] {
      AllGreen(detections[..|detections| - 1], fixed2);
    }
  }

  /** `draw_detections`: draws on a copy of the frame, one rectangle and one
      label per detection, in order. */
  method DrawDetections(frame: Frame, detections: seq<Detection>, fixed2: real -> string) returns (drawn: Annotated)
    ensures drawn == Annotated(frame, Commands(detections, fixed2))
  {
    var commands: seq<DrawCommand> := [];
    for i := 0 to |detections|
      invariant commands == Commands(detections[..i], fixed2)
    {
      assert detections[..i + 1][..i] == detections[..i];
      commands := commands + DetectionCommands(detections[i], fixed2);
    }
    assert detections[..|detections|] == detections;
    drawn := Annotated(frame, commands);
  }
}
