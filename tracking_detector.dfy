/** The tracking detector (src/detection_and_tracking/detector.py): how the
    tracker's raw answer is shaped into records, and what `draw_results`
    draws for them.  The tracker itself is an input: its answer for a frame,
    or None when the call raised. */
module TrackingDetector {
  import opened Common
  import opened Drawing
  import opened Yolo

  /** The confidence threshold `detect_and_track` passes to the tracker
      when its caller gives none. */
  const DefaultConfidence: real := 0.5

  /** One record of `detect_and_track`; `trackId` is None where the tracker
      assigned no identity. */
  datatype TrackedObject = TrackedObject(
    bbox: BBox, confidence: real, classId: int, className: string, trackId: Option<int>)

  /** The record built for one box: its corners truncated toward zero, its
      confidence, class index and track id as given, and the class's name. */
  function ShapeBox(box: RawBox, names: map<int, string>): (obj: TrackedObject)
    requires box.cls in names
    ensures TruncatesTo(box.x1, obj.bbox.x1) && TruncatesTo(box.y1, obj.bbox.y1)
    ensures TruncatesTo(box.x2, obj.bbox.x2) && TruncatesTo(box.y2, obj.bbox.y2)
    ensures obj.confidence == box.conf && obj.classId == box.cls && obj.className == names[box.cls]
    ensures obj.trackId == box.id
  {
    TrackedObject(BBox(Trunc(box.x1), Trunc(box.y1), Trunc(box.x2), Trunc(box.y2)),
                  box.conf, box.cls, names[box.cls], box.id)
  }

  function ShapeAll(boxes: seq<RawBox>, names: map<int, string>): (objs: seq<TrackedObject>)
    requires AllNamed(boxes, names)
    ensures |objs| == |boxes|
    ensures forall i :: 0 <= i < |boxes| ==> objs[i] == ShapeBox(boxes[i], names)
  {
    if boxes == [] then []
    else ShapeAll(boxes[..|boxes| - 1], names) + [ShapeBox(boxes[|boxes| - 1], names)]
  }

  /** What `detect_and_track` returns for a tracker answer: nothing when the
      tracker raised, when there are no boxes, or when a class index has no
      name (the KeyError is caught); otherwise one record per box, in order,
      with the corners truncated toward zero and the track id kept exactly
      when the box has one. */
  function TrackRecords(output: Option<ModelOutput>): (objs: seq<TrackedObject>)
    ensures output.None? || output.value.boxes.None? ==> objs == []
    ensures output.Some? && output.value.boxes.Some? && !AllNamed(output.value.boxes.value, output.value.names)
      ==> objs == []
    ensures output.Some? && output.value.boxes.Some? && AllNamed(output.value.boxes.value, output.value.names)
      ==> |objs| == |output.value.boxes.value|
    ensures output.Some? && output.value.boxes.Some? && AllNamed(output.value.boxes.value, output.value.names)
      ==> forall i :: 0 <= i < |objs| ==>
            var box := output.value.boxes.value[i];
            && objs[i].bbox == BBox(Trunc(box.x1), Trunc(box.y1), Trunc(box.x2), Trunc(box.y2))
            && objs[i].confidence == box.conf
            && objs[i].classId == box.cls
            && objs[i].className == output.value.names[box.cls]
            && (objs[i].trackId.None? <==> box.id.None?)
            && (box.id.Some? ==> objs[i].trackId == box.id)
  {
    match output
    case None => []
    case Some(ModelOutput(boxes, names)) =>
      if boxes.None? || !AllNamed(boxes.value, names) then [] else ShapeAll(boxes.value, names)
  }

  /** `detect_and_track`: the loop that appends one record per box. */
  method DetectAndTrack(output: Option<ModelOutput>) returns (objects: seq<TrackedObject>)
    ensures objects == TrackRecords(output)
  {
    if output.None? || output.value.boxes.None? {
      return [];
    }
    var boxes, names := output.value.boxes.value, output.value.names;
    objects := [];
    var i := 0;
    while i < |boxes|
      invariant 0 <= i <= |boxes|
      invariant AllNamed(boxes[..i], names)
      invariant objects == ShapeAll(boxes[..i], names)
    {
      if boxes[i].cls !in names {
        return [];
      }
      assert boxes[..i + 1] == boxes[..i] + [boxes[i]];
      objects := objects + [ShapeBox(boxes[i], names)];
      i := i + 1;
    }
    assert boxes[..i] == boxes;
  }

  /** Red for objects with a track id, green for the others. */
  function ObjectColor(obj: TrackedObject): (c: Color)
    ensures c == TrackedColor <==> obj.trackId.Some?
    ensures c == DetectedColor <==> obj.trackId.None?
  {
    if obj.trackId.Some? then TrackedColor else DetectedColor
  }

  /** `"{class_name} {confidence:.2f}"`; `fixed2` stands for the two-decimal
      float formatting. */
  function BaseLabel(obj: TrackedObject, fixed2: real -> string): string
  {
    obj.className + " " + fixed2(obj.confidence)
  }

  /** The caption: the base caption, followed by `" ID:<id>"` when the
      object carries a track id. */
  function ObjectLabel(obj: TrackedObject, fixed2: real -> string): (caption: string)
    ensures obj.trackId.None? ==> |caption| == |BaseLabel(obj, fixed2)|
    ensures obj.trackId.Some? ==>
      |caption| == |BaseLabel(obj, fixed2)| + 4 + |IntToString(obj.trackId.value)|
  {
    match obj.trackId
    case None => BaseLabel(obj, fixed2)
    case Some(id) => BaseLabel(obj, fixed2) + " " + "ID:" + IntToString(id)
  }

  /** The caption starts with the base caption, equals it exactly when the
      object has no track id, and otherwise goes on with `" ID:<id>"`. */
  lemma ObjectLabelShape(obj: TrackedObject, fixed2: real -> string)
    ensures var caption, base := ObjectLabel(obj, fixed2), BaseLabel(obj, fixed2);
      && |base| <= |caption| && caption[..|base|] == base
      && (obj.trackId.None? <==> caption == base)
      && (obj.trackId.Some? ==> caption[|base|..] == " ID:" + IntToString(obj.trackId.value))
  {
    var base := BaseLabel(obj, fixed2);
    if obj.trackId.Some? {
      var caption := ObjectLabel(obj, fixed2);
      assert caption == base + (" ID:" + IntToString(obj.trackId.value));
      assert caption[..|base|] == base;
      assert caption[|base|..] == " ID:" + IntToString(obj.trackId.value);
    }
  }

  function ObjectCommands(obj: TrackedObject, fixed2: real -> string): seq<DrawCommand>
  {
    BoxCommands(obj.bbox, ObjectLabel(obj, fixed2), ObjectColor(obj))
  }

  /** Everything `draw_results` draws for a result list, object by object. */
  function Commands(results: seq<TrackedObject>, fixed2: real -> string): (cmds: seq<DrawCommand>)
    ensures |cmds| == 2 * |results|
  {
    if results == [] then []
    else Commands(results[..|results| - 1], fixed2) + ObjectCommands(results[|results| - 1], fixed2)
  }

  /** Object `i` owns commands `2i` and `2i+1`: its rectangle at its corners
      and its caption ten pixels above the top-left corner, both red iff the
      object is tracked and green otherwise. */
  lemma {:induction false} CommandsAt(results: seq<TrackedObject>, fixed2: real -> string, i: nat)
    requires i < |results|
    ensures var cmds := Commands(results, fixed2);
      var obj := results[i];
      && cmds[2 * i] == Rectangle(Point(obj.bbox.x1, obj.bbox.y1), Point(obj.bbox.x2, obj.bbox.y2),
                                  ObjectColor(obj), LineThickness)
      && cmds[2 * i + 1] == Text(ObjectLabel(obj, fixed2), Point(obj.bbox.x1, obj.bbox.y1 - LabelLift),
                                 ObjectColor(obj), FontScale, LineThickness)
      && (cmds[2 * i].color == TrackedColor <==> obj.trackId.Some?)
      && (cmds[2 * i].color == DetectedColor <==> obj.trackId.None?)
  {
    CommandsSlice(results, fixed2, i);
    var cmds := Commands(results, fixed2);
    assert cmds[2 * i] == cmds[2 * i..2 * i + 2][0];
    assert cmds[2 * i + 1] == cmds[2 * i..2 * i + 2][1];
  }

  lemma {:induction false} CommandsSlice(results: seq<TrackedObject>, fixed2: real -> string, i: nat)
    requires i < |results|
    ensures Commands(results, fixed2)[2 * i..2 * i + 2] == ObjectCommands(results[i], fixed2)
  {
    var n := |results|;
    var prefix := Commands(results[..n - 1], fixed2);
    var last := ObjectCommands(results[n - 1], fixed2);
    assert Commands(results, fixed2) == prefix + last;
    if i < n - 1 {
      CommandsSlice(results[..n - 1], fixed2, i);
      assert results[..n - 1][i] == results[i];
    }
    SliceOfConcat(prefix, last, 2 * i, 2 * i + 2);
  }

  /** `draw_results`: draws on a copy of the frame, one rectangle and one
      caption per object, in order. */
  method DrawResults(frame: Frame, results: seq<TrackedObject>, fixed2: real -> string) returns (drawn: Annotated)
    ensures drawn == Annotated(frame, Commands(results, fixed2))
  {
    var commands: seq<DrawCommand> := [];
    for i := 0 to |results|
      invariant commands == Commands(results[..i], fixed2)
    {
      assert results[..i + 1][..i] == results[..i];
      commands := commands + ObjectCommands(results[i], fixed2);
    }
    assert results[..|results|] == results;
    drawn := Annotated(frame, commands);
  }
}
