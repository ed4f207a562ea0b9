/**
 * `draw_boxes` (bot.py): the detections a model returns are filtered by
 * confidence and turned into drawing operations on the image. The drawing
 * surface is a canvas that records, in order, the operations applied to it;
 * how they become pixels, and the font, are outside the model.
 */
module Annotator {
  import opened Wrappers
  import Features

  datatype Color = Lime | Black | White

  /** A box in pixel coordinates, corners (x1, y1) and (x2, y2). */
  datatype Box = Box(x1: real, y1: real, x2: real, y2: real)

  /** One entry of the parallel boxes, labels and scores of a prediction. */
  datatype Detection = Detection(box: Box, labelId: int, score: real)

  /**
   * A label's text: the category name and the score as a percentage. How the
   * percentage is rendered as digits is left abstract.
   */
  datatype Caption = Caption(category: string, percent: real)

  datatype DrawCommand =
    | Rect(x1: real, y1: real, x2: real, y2: real, outline: Color, lineWidth: nat)
    | Text(x: real, y: real, caption: Caption, fill: Color)

  /** Indexing the vocabulary with a label it does not have. */
  datatype DrawError = LabelOutOfRange(labelId: int, vocabularySize: nat)

  /** What was drawn, and the error that stopped the drawing, if any. */
  datatype Drawing = Drawing(commands: seq<DrawCommand>, error: Option<DrawError>)

  const DefaultThreshold: real := 0.5
  const BoxColor: Color := Lime
  const BoxWidth: nat := 3
  const OutlineColor: Color := Black
  const FillColor: Color := White

  /** The eight neighbour offsets of the text outline, in drawing order. */
  const Offsets: seq<(int, int)> :=
    [(-1, -1), (-1, 0), (-1, 1), (0, -1), (0, 1), (1, -1), (1, 0), (1, 1)]

  /** The detections of parallel sequences, as many as the shortest of them. */
  function Zip3(boxes: seq<Box>, labels: seq<int>, scores: seq<real>): (r: seq<Detection>)
    ensures |r| <= |boxes| && |r| <= |labels| && |r| <= |scores|
    ensures |r| == |boxes| || |r| == |labels| || |r| == |scores|
    ensures forall i :: 0 <= i < |r| ==> r[i] == Detection(boxes[i], labels[i], scores[i])
  {
    if boxes == [] || labels == [] || scores == [] then []
    else [Detection(boxes[0], labels[0], scores[0])] + Zip3(boxes[1..], labels[1..], scores[1..])
  }

  /**
   * The position a label selects in a vocabulary of `size` names, with list
   * indexing's rule that a negative index counts from the end.
   */
  function CategoryIndex(size: nat, labelId: int): (r: Option<nat>)
    ensures r.Some? <==> -(size as int) <= labelId < size
    ensures r.Some? ==> r.value < size && (r.value == labelId || r.value == labelId + size)
  {
    if 0 <= labelId < size then Some(labelId)
    else if -(size as int) <= labelId < 0 then Some(labelId + size)
    else None
  }

  predicate LabelKnown(d: Detection, categories: seq<string>)
  {
    CategoryIndex(|categories|, d.labelId).Some?
  }

  function CategoryOf(d: Detection, categories: seq<string>): string
    requires LabelKnown(d, categories)
  {
    categories[CategoryIndex(|categories|, d.labelId).value]
  }

  /** The box outline of a detection. */
  function Frame(b: Box): DrawCommand
  {
    Rect(b.x1, b.y1, b.x2, b.y2, BoxColor, BoxWidth)
  }

  /** The outline copies of a caption anchored at (x, y), one per offset. */
  function Outline(x: real, y: real, caption: Caption, offsets: seq<(int, int)>): (r: seq<DrawCommand>)
  {
    seq(|offsets|, k requires 0 <= k < |offsets| =>
      Text(x + offsets[k].0 as real, y + offsets[k].1 as real, caption, OutlineColor))
  }

  /** Everything drawn for one kept detection whose category is `category`. */
  function Marks(d: Detection, category: string): seq<DrawCommand>
  {
    var x := d.box.x1 + 3.0;
    var y := d.box.y1 - 3.0;
    var caption := Caption(category, d.score * 100.0);
    [Frame(d.box)] + Outline(x, y, caption, Offsets) + [Text(x, y, caption, FillColor)]
  }

  /** What one turn of the drawing loop draws for `d`, and the error it stops with, if any. */
  function Turn(d: Detection, categories: seq<string>, threshold: real): Drawing
  {
    if d.score < threshold then Drawing([], None)
    else if !LabelKnown(d, categories) then
      Drawing([Frame(d.box)], Some(LabelOutOfRange(d.labelId, |categories|)))
    else Drawing(Marks(d, CategoryOf(d, categories)), None)
  }

  /** `first` followed by `next`. */
  function Extend(first: Drawing, next: Drawing): Drawing
  {
    Drawing(first.commands + next.commands, next.error)
  }

  /** The drawing loop over `dets`: it stops at the first error. */
  function Annotate(dets: seq<Detection>, categories: seq<string>, threshold: real): Drawing
  {
    if dets == [] then Drawing([], None)
    else
      var before := Annotate(dets[..|dets| - 1], categories, threshold);
      if before.error.Some? then before
      else Extend(before, Turn(dets[|dets| - 1], categories, threshold))
  }

  // ------------------------------------------------ reference definitions

  /** The detections at or above the threshold, in input order. */
  function Kept(dets: seq<Detection>, threshold: real): seq<Detection>
  {
    if dets == [] then []
    else
      var init := Kept(dets[..|dets| - 1], threshold);
      var last := dets[|dets| - 1];
      if last.score >= threshold then init + [last] else init
  }

  predicate AllLabelsKnown(dets: seq<Detection>, categories: seq<string>)
  {
    forall i :: 0 <= i < |dets| ==> LabelKnown(dets[i], categories)
  }

  /** The kept detections are the ones scored at or above the threshold, and no more. */
  lemma {:induction false} KeptMembers(dets: seq<Detection>, threshold: real)
    ensures |Kept(dets, threshold)| <= |dets|
    ensures forall d :: d in Kept(dets, threshold) <==> d in dets && d.score >= threshold
  {
    if dets != [] {
      var init := dets[..|dets| - 1];
      KeptMembers(init, threshold);
      assert dets == init + [dets[|dets| - 1]];
    }
  }

  /** The marks of each detection in turn. */
  function AllMarks(dets: seq<Detection>, categories: seq<string>): seq<DrawCommand>
    requires AllLabelsKnown(dets, categories)
  {
    if dets == [] then []
    else
      var last := dets[|dets| - 1];
      AllMarks(dets[..|dets| - 1], categories) + Marks(last, CategoryOf(last, categories))
  }

  // ---------------------------------------------------------------- lemmas

  /** Ten operations per kept detection: its frame, eight black copies of its label, one white. */
  lemma MarksLayout(d: Detection, category: string)
    ensures var m := Marks(d, category);
      var caption := Caption(category, d.score * 100.0);
      && |m| == 10
      && m[0] == Rect(d.box.x1, d.box.y1, d.box.x2, d.box.y2, Lime, 3)
      && (forall k :: 0 <= k < 8 ==>
            m[1 + k] == Text(d.box.x1 + 3.0 + Offsets[k].0 as real,
                             d.box.y1 - 3.0 + Offsets[k].1 as real, caption, Black))
      && m[9] == Text(d.box.x1 + 3.0, d.box.y1 - 3.0, caption, White)
      && (forall k :: 1 <= k < 10 ==> m[k].Text? && m[k].caption == caption)
  {
  }

  /** Once the loop has failed on a prefix, the rest of the detections change nothing. */
  lemma {:induction false} ErrorStops(dets: seq<Detection>, i: nat, categories: seq<string>, threshold: real)
    requires i <= |dets|
    requires Annotate(dets[..i], categories, threshold).error.Some?
    ensures Annotate(dets, categories, threshold) == Annotate(dets[..i], categories, threshold)
  {
    if i < |dets| {
      var init := dets[..|dets| - 1];
      assert init[..i] == dets[..i];
      ErrorStops(init, i, categories, threshold);
    } else {
      assert dets[..i] == dets;
    }
  }

  /** One more detection: the loop's next turn, while no error has occurred. */
  lemma AnnotateNext(dets: seq<Detection>, i: nat, categories: seq<string>, threshold: real)
    requires i < |dets|
    requires Annotate(dets[..i], categories, threshold).error == None
    ensures Annotate(dets[..i + 1], categories, threshold)
         == Extend(Annotate(dets[..i], categories, threshold), Turn(dets[i], categories, threshold))
  {
    assert dets[..i + 1][..i] == dets[..i];
  }

  /** The k-th operation of all the marks is operation k mod 10 of detection k div 10. */
  lemma {:induction false} AllMarksAt(dets: seq<Detection>, categories: seq<string>, j: nat, k: nat)
    requires AllLabelsKnown(dets, categories)
    requires j < |dets| && k < 10
    ensures |AllMarks(dets, categories)| == 10 * |dets|
    ensures AllMarks(dets, categories)[10 * j + k] == Marks(dets[j], CategoryOf(dets[j], categories))[k]
  {
    var init := dets[..|dets| - 1];
    var last := dets[|dets| - 1];
    MarksLayout(last, CategoryOf(last, categories));
    if j < |init| {
      AllMarksAt(init, categories, j, k);
    } else if init != [] {
      AllMarksAt(init, categories, 0, 0);
    }
  }

  /**
   * The loop draws the marks of the kept detections, in order, when every kept
   * label is in the vocabulary; otherwise it draws the marks of the kept
   * detections before the first unknown label, then that detection's frame,
   * and reports that label.
   */
  lemma AnnotateMeaning(dets: seq<Detection>, categories: seq<string>, threshold: real)
    ensures var drawing := Annotate(dets, categories, threshold);
      var kept := Kept(dets, threshold);
      && (drawing.error.None? <==> AllLabelsKnown(kept, categories))
      && (drawing.error.None? ==> drawing.commands == AllMarks(kept, categories))
      && (drawing.error.Some? ==> StoppedAt(drawing, kept, FirstUnknown(kept, categories), categories))
  {
    AnnotateSucceeds(dets, categories, threshold);
    AnnotateFails(dets, categories, threshold);
  }

  /** The loop ends without error exactly when every kept label is known, having drawn all their marks. */
  lemma {:induction false} AnnotateSucceeds(dets: seq<Detection>, categories: seq<string>, threshold: real)
    ensures var drawing := Annotate(dets, categories, threshold);
      var kept := Kept(dets, threshold);
      && (drawing.error.None? <==> AllLabelsKnown(kept, categories))
      && (drawing.error.None? ==> drawing.commands == AllMarks(kept, categories))
  {
    if dets != [] {
      var init := dets[..|dets| - 1];
      var d := dets[|dets| - 1];
      AnnotateSucceeds(init, categories, threshold);
      var k := Kept(init, threshold);
      if d.score >= threshold {
        var kept := k + [d];
        assert kept[..|k|] == k;
        assert kept[|k|] == d;
        if !AllLabelsKnown(k, categories) {
          var i :| 0 <= i < |k| && !LabelKnown(k[i], categories);
          assert kept[i] == k[i];
        }
      }
    }
  }

  /** When the loop stops with an error, it is at the first kept detection with an unknown label. */
  lemma {:induction false} AnnotateFails(dets: seq<Detection>, categories: seq<string>, threshold: real)
    ensures var drawing := Annotate(dets, categories, threshold);
      var kept := Kept(dets, threshold);
      drawing.error.Some? ==> StoppedAt(drawing, kept, FirstUnknown(kept, categories), categories)
  {
    if dets != [] {
      var init := dets[..|dets| - 1];
      var d := dets[|dets| - 1];
      var before := Annotate(init, categories, threshold);
      var k := Kept(init, threshold);
      if before.error.Some? {
        AnnotateFails(init, categories, threshold);
        var j := FirstUnknown(k, categories);
        assert Annotate(dets, categories, threshold) == before;
        if d.score >= threshold {
          assert Kept(dets, threshold) == k + [d];
          assert (k + [d])[..|k|] == k;
          assert FirstUnknown(k + [d], categories) == j;
          StoppedAtExtends(before, k, d, j, categories);
        } else {
          assert Kept(dets, threshold) == k;
        }
      } else if d.score >= threshold && !LabelKnown(d, categories) {
        AnnotateSucceeds(init, categories, threshold);
        FirstUnknownAllKnown(k, categories);
        var kept := k + [d];
        assert Kept(dets, threshold) == kept;
        assert kept[..|k|] == k;
        assert FirstUnknown(kept, categories) == |k|;
        assert FailsAt(kept, |k|, categories);
        assert StoppedAt(Annotate(dets, categories, threshold), kept, |k|, categories);
      }
    }
  }

  /** The position of the first detection whose label the vocabulary lacks; the length if there is none. */
  function FirstUnknown(dets: seq<Detection>, categories: seq<string>): (r: nat)
    ensures r <= |dets|
  {
    if dets == [] then 0
    else
      var n := |dets| - 1;
      var before := FirstUnknown(dets[..n], categories);
      if before < n then before
      else if LabelKnown(dets[n], categories) then n + 1
      else n
  }

  lemma {:induction false} FirstUnknownAllKnown(dets: seq<Detection>, categories: seq<string>)
    requires AllLabelsKnown(dets, categories)
    ensures FirstUnknown(dets, categories) == |dets|
  {
    if dets != [] {
      FirstUnknownAllKnown(dets[..|dets| - 1], categories);
    }
  }

  /**
   * `drawing` is what the loop leaves when it stops at position `j` of the
   * kept detections: the marks before it, its frame, and its label as error.
   */
  predicate StoppedAt(drawing: Drawing, kept: seq<Detection>, j: int, categories: seq<string>)
  {
    && 0 <= j < |kept|
    && FailsAt(kept, j, categories)
    && drawing == Drawing(AllMarks(kept[..j], categories) + [Frame(kept[j].box)],
                          Some(LabelOutOfRange(kept[j].labelId, |categories|)))
  }

  /** A further kept detection after the first failure leaves that failure where it was. */
  lemma StoppedAtExtends(drawing: Drawing, kept: seq<Detection>, d: Detection, j: int, categories: seq<string>)
    requires StoppedAt(drawing, kept, j, categories)
    ensures StoppedAt(drawing, kept + [d], j, categories)
  {
    var longer := kept + [d];
    assert longer[..j] == kept[..j];
    assert longer[j] == kept[j];
  }

  /** Position `j` holds the first kept detection whose label the vocabulary lacks. */
  predicate FailsAt(kept: seq<Detection>, j: nat, categories: seq<string>)
    requires j < |kept|
  {
    AllLabelsKnown(kept[..j], categories) && !LabelKnown(kept[j], categories)
  }

  /** Detections below the threshold leave no trace: dropping them first draws the same. */
  lemma {:induction false} BelowThresholdIgnored(dets: seq<Detection>, categories: seq<string>, threshold: real)
    ensures Annotate(Kept(dets, threshold), categories, threshold) == Annotate(dets, categories, threshold)
  {
    if dets != [] {
      var init := dets[..|dets| - 1];
      var d := dets[|dets| - 1];
      BelowThresholdIgnored(init, categories, threshold);
      if d.score >= threshold {
        var k := Kept(init, threshold);
        assert (k + [d])[..|k|] == k;
      }
    }
  }

  /** A lone detection is drawn exactly when its score reaches the threshold, equality included. */
  lemma SingleDetection(d: Detection, categories: seq<string>, threshold: real)
    requires LabelKnown(d, categories)
    ensures Annotate([d], categories, threshold).error == None
    ensures Annotate([d], categories, threshold).commands
         == if d.score >= threshold then Marks(d, CategoryOf(d, categories)) else []
  {
    assert [d][..0] == [];
  }

  /**
   * One detection at (10, 10, 50, 50), label 0, score 0.9, default threshold:
   * one frame and the nine draws of the category-0 caption at 90 percent.
   */
  lemma OneConfidentDetection(categories: seq<string>)
    requires |categories| >= 1
    ensures var drawing := Annotate(Zip3([Box(10.0, 10.0, 50.0, 50.0)], [0], [0.9]), categories, DefaultThreshold);
      && drawing.error == None
      && |drawing.commands| == 10
      && drawing.commands[0] == Rect(10.0, 10.0, 50.0, 50.0, Lime, 3)
      && (forall k :: 1 <= k < 10 ==>
            drawing.commands[k].Text? && drawing.commands[k].caption == Caption(categories[0], 90.0))
      && drawing.commands[9] == Text(13.0, 7.0, Caption(categories[0], 90.0), White)
  {
    var d := Detection(Box(10.0, 10.0, 50.0, 50.0), 0, 0.9);
    assert Zip3([Box(10.0, 10.0, 50.0, 50.0)], [0], [0.9]) == [d];
    SingleDetection(d, categories, DefaultThreshold);
    assert CategoryOf(d, categories) == categories[0];
    MarksLayout(d, categories[0]);
    assert 0.9 * 100.0 == 90.0;
  }

  // ------------------------------------------------------------- the canvas

  /** An image being drawn on: its size and the operations applied to it so far. */
  class Canvas {
    const width: Features.Dim
    const height: Features.Dim
    var commands: seq<DrawCommand>

    constructor (width: Features.Dim, height: Features.Dim)
      ensures this.width == width && this.height == height && commands == []
    {
      this.width := width;
      this.height := height;
      commands := [];
    }

    /** A copy of `source`: same size, same content, a different object. */
    constructor Copy(source: Canvas)
      ensures width == source.width && height == source.height
      ensures commands == source.commands
    {
      width := source.width;
      height := source.height;
      commands := source.commands;
    }

    method Rectangle(x1: real, y1: real, x2: real, y2: real, outline: Color, lineWidth: nat)
      modifies this
      ensures commands == old(commands) + [Rect(x1, y1, x2, y2, outline, lineWidth)]
    {
      commands := commands + [Rect(x1, y1, x2, y2, outline, lineWidth)];
    }

    method DrawText(x: real, y: real, caption: Caption, fill: Color)
      modifies this
      ensures commands == old(commands) + [Text(x, y, caption, fill)]
    {
      commands := commands + [Text(x, y, caption, fill)];
    }
  }

  lemma Associative<T>(a: seq<T>, b: seq<T>, c: seq<T>)
    ensures a + b + c == a + (b + c)
  {
  }

  /** Draws a caption anchored at (x, y): eight black outline copies, then the white text. */
  method DrawCaption(image: Canvas, x: real, y: real, caption: Caption)
    modifies image
    ensures image.commands
         == old(image.commands) + Outline(x, y, caption, Offsets) + [Text(x, y, caption, FillColor)]
  {
    ghost var start := image.commands;
    for k := 0 to |Offsets|
      invariant image.commands == start + Outline(x, y, caption, Offsets[..k])
    {
      var dx, dy := Offsets[k].0, Offsets[k].1;
      assert Outline(x, y, caption, Offsets[..k + 1])
          == Outline(x, y, caption, Offsets[..k]) + [Text(x + dx as real, y + dy as real, caption, OutlineColor)];
      image.DrawText(x + dx as real, y + dy as real, caption, OutlineColor);
    }
    assert Offsets[..|Offsets|] == Offsets;
    image.DrawText(x, y, caption, FillColor);
  }

  /** One turn of the loop: the frame and caption of `d` if its score reaches the threshold. */
  method DrawDetection(image: Canvas, d: Detection, categories: seq<string>, threshold: real)
    returns (error: Option<DrawError>)
    modifies image
    ensures image.commands == old(image.commands) + Turn(d, categories, threshold).commands
    ensures error == Turn(d, categories, threshold).error
  {
    error := None;
    if d.score < threshold {
      return;
    }
    var box := d.box;
    image.Rectangle(box.x1, box.y1, box.x2, box.y2, BoxColor, BoxWidth);
    var index := CategoryIndex(|categories|, d.labelId);
    if index.None? {
      error := Some(LabelOutOfRange(d.labelId, |categories|));
      return;
    }
    DrawCaption(image, box.x1 + 3.0, box.y1 - 3.0, Caption(categories[index.value], d.score * 100.0));
  }

  /**
   * Draws the detections of the parallel `boxes`, `labels` and `scores` whose
   * score reaches `threshold` onto `image`, in order. A label the vocabulary
   * lacks stops the drawing with an error, after that detection's frame.
   */
  method DrawBoxes(image: Canvas, boxes: seq<Box>, labels: seq<int>, scores: seq<real>,
                   categories: seq<string>, threshold: real)
    returns (error: Option<DrawError>)
    modifies image
    ensures var drawing := Annotate(Zip3(boxes, labels, scores), categories, threshold);
      image.commands == old(image.commands) + drawing.commands && error == drawing.error
  {
    ghost var dets := Zip3(boxes, labels, scores);
    ghost var start := image.commands;
    var n := |boxes|;
    if |labels| < n { n := |labels|; }
    if |scores| < n { n := |scores|; }
    assert n == |dets|;
    var i := 0;
    error := None;
    ghost var drawn: seq<DrawCommand> := [];
    while i < n && error.None?
      invariant 0 <= i <= n
      invariant Annotate(dets[..i], categories, threshold) == Drawing(drawn, error)
      invariant image.commands == start + drawn
    {
      var d := Detection(boxes[i], labels[i], scores[i]);
      assert dets[i] == d;
      AnnotateNext(dets, i, categories, threshold);
      ghost var turn := Turn(d, categories, threshold);
      assert Annotate(dets[..i + 1], categories, threshold) == Drawing(drawn + turn.commands, turn.error);
      error := DrawDetection(image, d, categories, threshold);
      Associative(start, drawn, turn.commands);
      drawn := drawn + turn.commands;
      i := i + 1;
    }
    if error.Some? {
      ErrorStops(dets, i, categories, threshold);
    } else {
      assert dets[..n] == dets;
    }
  }
}
