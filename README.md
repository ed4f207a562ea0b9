# Object-detection bot: feature fingerprint and box drawing

A Telegram bot receives a photo, computes a four-number fingerprint of it,
lets a pretrained decision tree pick one of several object-detection models by
that fingerprint, runs the chosen model and replies with the detections drawn
on a copy of the photo. This project models, in Dafny, the parts of `bot.py`
that are the bot's own logic:

- `Features` — the arithmetic of `extract_image_features`. The pixel sum
  (`np.sum`, bot.py:52) and what the OpenCV stages report (mean saturation,
  mean gradient magnitude, the areas of the external contours) are the input
  `PixelAnalysis`. From it and
  the image size the model forms the content scalar `img_hash`, filters the
  significant contours (area strictly above one thousandth of the image),
  takes the mean area with its 0.1 default, and applies the perturbations,
  truncations and clamps that give the fingerprint
  `[num_objects, mean_box_area, num_categories, ratio_hw]`.
- `Annotator` — `draw_boxes`. The image is a `Canvas` object that records, in
  order, the rectangle and text operations applied to it. `DrawBoxes` walks
  the zipped boxes, labels and scores, skips scores below the threshold, draws
  a lime frame of width 3 and the caption (eight black outline copies at the
  neighbour offsets, then the white text). It is proved against the function
  `Annotate`, and `Annotate` is characterised by lemmas against an
  independent description: filter by threshold, then concatenate each kept
  detection's ten marks.
- `Pipeline` — the handler's glue: the selector's prediction looked up in the
  model registry, the detector run, and the copy annotated and captioned.
- `Wrappers` — `Option` and `Result`.

Numbers are Dafny `real`s; Python's `int()` on a float is `Truncate`
(truncation toward zero). The selector and the detectors are trained artifacts
and enter as function parameters; the label text is a `Caption` holding the
category name and the percentage `score * 100`.

The perturbed object count and the category proxy are truncated toward zero
by `int()` (bot.py:85, bot.py:87), not rounded. The label index selects from
a Python list (bot.py:108), where an index from `-len` to `-1` counts from
the end, so the model accepts those (`CategoryIndex`) and reports an error
only for the rest. When
that error occurs the frame of the offending detection has already been drawn
(bot.py:107 comes before bot.py:108), and the model keeps that frame in the
partial drawing.

## Model

| member | source | states |
|---|---|---|
| Features.Truncate | bot.py:85-87 | `int()` on a number: for a non-negative argument the greatest integer not above it, for a negative one the least integer not below it |
| Features.ImageHash | bot.py:52 | the content scalar lies in [0, 1) and is the pixel sum modulo 1000, divided by 1000 |
| Features.MinArea | bot.py:74 | definition of the significance bound `w*h*0.001`; its contract says it is positive |
| Features.SignificantAreas | bot.py:74-75 | the values kept are the contour areas strictly above the minimum area, and there are no more of them than contours |
| Features.SignificantMultiset | bot.py:75-80 | each area above the minimum is kept exactly as often as it occurs among the contours, and no other area is kept, so the sum and mean at bot.py:81 are those of the significant contours |
| Features.SignificantCount | bot.py:74-77 | `num_objects` equals the number of contour positions whose area is strictly above `w*h*0.001` |
| Features.MeanArea | bot.py:79-83 | the mean area fraction of non-negative significant areas is non-negative; with none it is the 0.1 default |
| Features.NumObjectsMod | bot.py:85 | the perturbed object count is never below 1 |
| Features.MeanAreaMod | bot.py:86-91 | the perturbed mean area is never above 1.0, and not negative for a non-negative area and scalar |
| Features.CategoriesMod | bot.py:87-92 | the category proxy lies in [1, 10] |
| Features.Extract | bot.py:45-94 | the fingerprint has object count at least 1, mean area at most 1.0 and (for non-negative library outputs) at least 0, category proxy in [1, 10], and aspect ratio exactly `h / w`, unclamped |
| Features.NoSignificantContours | bot.py:77-91 | with no contour above the minimum area the object count is exactly 1 and the mean area is `0.1 * (0.7 + 0.6 * img_hash)`, which lies in [0.07, 0.13) so the 1.0 clamp never applies |
| Features.PerturbedCountBounds | bot.py:85 | for at least one significant contour the perturbed count is above 80% of the count minus one and below 120% of it |
| Features.ScaledRange | bot.py:85 | the factor `0.8 + 0.4*img_hash` scales a count of at least one into [0.8n, 1.2n) |
| Features.MeanAreaAboveThreshold | bot.py:74-81 | when some contour is significant the unperturbed mean area fraction is above 0.001 |
| Features.RowShape | bot.py:89-94 | the feature row has four entries in the order count, mean area, categories, ratio; the first and third are whole numbers, with the bounds above, the last is `h / w` |
| Features.Fingerprint.Row | bot.py:140 | definition of the selector's feature row, in the column order `num_objects, mean_box_area, num_categories, ratio_hw`; characterised by `RowShape` |
| Features.NoContourSquare | bot.py:45-94 | a 100 by 100 image with pixel sum 7650000, no saturation, no detail and no contours gives the fingerprint (1, 0.07, 1, 1.0) |
| Annotator.Zip3 | bot.py:103 | the zipped detections are as many as the shortest of boxes, labels and scores, and the i-th pairs the i-th entries |
| Annotator.CategoryIndex | bot.py:108 | a label selects a vocabulary entry exactly when it lies in [-len, len); a negative one counts from the end |
| Annotator.CategoryOf | bot.py:108 | definition of `categories[lbl]`, the category every caption carries: `CategoryIndex` applied to the vocabulary, defined only for a label it accepts |
| Annotator.Outline | bot.py:110-112 | definition of the eight black `draw.text` calls as a sequence, one per offset in order; `MarksLayout` characterises it through `Marks`, and `DrawCaption` is proved against it |
| Annotator.MarksLayout | bot.py:107-114 | a kept detection draws ten operations: the lime width-3 frame at its box, eight black captions at `(x1+3+dx, y1-3+dy)` for the offsets in the listed order, then the white caption at `(x1+3, y1-3)` |
| Annotator.ErrorStops | bot.py:103-108 | once the loop has stopped with an error, later detections change neither the drawing nor the error |
| Annotator.AllMarksAt | bot.py:103-114 | the marks of n detections are 10n operations, and operation 10j+k is operation k of detection j |
| Annotator.KeptMembers | bot.py:103-105 | the detections kept are exactly those scored at or above the threshold, and no more than there are detections |
| Annotator.AnnotateSucceeds | bot.py:103-114 | the loop ends without error exactly when every kept detection's label is in the vocabulary, and has then drawn the marks of the kept detections in order |
| Annotator.AnnotateFails | bot.py:103-114 | when the loop stops with an error it is at `FirstUnknown` of the kept detections, the first one with an unknown label, after the marks of the kept detections before it and that detection's frame |
| Annotator.FirstUnknown | bot.py:103-108 | definition of the position of the first detection whose label the vocabulary lacks, the length when there is none; its contract bounds it by the length, and `FirstUnknownAllKnown` gives the all-known case |
| Annotator.FirstUnknownAllKnown | bot.py:103-108 | when every label is known, the first unknown position is the length |
| Annotator.StoppedAt | bot.py:107-108 | definition of the drawing left by an error at kept position j: the marks before j, the frame of j, and j's label as the error |
| Annotator.StoppedAtExtends | bot.py:103-108 | a further kept detection after the first failure leaves that failure, and the drawing, where they were |
| Annotator.Frame | bot.py:107 | definition of a detection's box outline (lime, width 3, at the box's corners); characterised by `MarksLayout` |
| Annotator.Marks | bot.py:107-114 | definition of the ten operations drawn for one kept detection; characterised by `MarksLayout` and `AllMarksAt` |
| Annotator.Turn | bot.py:104-114 | definition of one loop turn: nothing below the threshold, the frame and an error for an unknown label, the marks otherwise; `DrawDetection` is proved against it |
| Annotator.Annotate | bot.py:103-114 | definition of the whole drawing loop, stopping at the first error; `DrawBoxes` is proved against it, and `AnnotateSucceeds`, `AnnotateFails`, `ErrorStops`, `BelowThresholdIgnored` and `SingleDetection` characterise it |
| Annotator.AnnotateMeaning | bot.py:103-114 | only the conjunction of `AnnotateSucceeds` and `AnnotateFails`: no error iff every kept detection's label is in the vocabulary, and then the drawing is the marks of the kept detections in input order; otherwise the drawing is the marks of the kept detections before the first unknown label (`FirstUnknown`) plus that detection's frame, and the error names that label |
| Annotator.BelowThresholdIgnored | bot.py:104-105 | removing the detections scored below the threshold beforehand changes nothing that is drawn or reported |
| Annotator.SingleDetection | bot.py:103-114 | a lone detection with a known label is drawn exactly when its score is at or above the threshold, equality included |
| Annotator.OneConfidentDetection | bot.py:97-114 | the detection (10, 10, 50, 50), label 0, score 0.9 at the default threshold 0.5 gives one frame at those coordinates and captions of category 0 at 90 percent, and nothing else |
| Annotator.Canvas.constructor | bot.py:136 | stands for the decoded RGB photo a caller passes to `HandlePhoto`: a canvas of the given size with nothing drawn on it |
| Annotator.Canvas.Copy | bot.py:150 | the copy has the size and content of the original |
| Annotator.Canvas.Rectangle | bot.py:107 | appends exactly one rectangle operation to the canvas |
| Annotator.Canvas.DrawText | bot.py:112-114 | appends exactly one text operation to the canvas |
| Annotator.DrawCaption | bot.py:110-114 | the canvas gains the eight outline copies of the caption in offset order, then the white caption |
| Annotator.DrawDetection | bot.py:104-114 | one loop turn appends what `Turn` prescribes for the detection and returns its error |
| Annotator.DrawBoxes | bot.py:97-115 | the canvas gains exactly the drawing that `Annotate` gives for the zipped detections, and the error returned is the one it gives |
| Pipeline.Lookup | bot.py:142 | a registry key yields its entry; a missing key yields the unknown-model error for that key |
| Pipeline.ChooseModel | bot.py:140-144 | the chosen entry is the registry's entry under the selector's name for the fingerprint row (so one of the registry's entries); an error occurs exactly when the selector's name for the fingerprint row is not a registry key |
| Pipeline.HandlePhoto | bot.py:136-158 | the photo is left unchanged; an unknown model or an unknown label is reported as an error; otherwise the reply is a fresh image of the same size carrying the photo's content plus the drawing of the chosen model's detections at threshold 0.5, captioned with the model's name |

## Left out

- Module-level start-up (bot.py:17-42): settings file, selector and model loading, device choice and logging are file I/O and library calls.
- The OpenCV operations (bot.py:55, 60, 66-72, 75, 80): colour conversion, Sobel gradients, Otsu threshold, contour finding and contour area are library code; their results are the inputs of `PixelAnalysis`. The grey-image branch (bot.py:61-64) only changes what those stages report (saturation 0), so it is covered by that input.
- The brightness values (bot.py:58, 64) are computed and never used.
- Font loading and its fallback (bot.py:99-102) and the rendering of operations to pixels are library code; the canvas records the operations instead.
- The text of a caption (bot.py:108): the `:.0f` formatting of the percentage (rounding of binary floats) is abstract; a `Caption` carries the category name and `score * 100`.
- Float arithmetic: every quantity is an exact real number, so IEEE rounding is not modelled.
- The Telegram handlers and photo download (bot.py:118-135), the decoding of the photo bytes to an RGB image (bot.py:136), and JPEG encoding, sending and polling (bot.py:151-162) are network, I/O and library code; `HandlePhoto` starts from the decoded image; the exception-catching decorator on the handler is in a file that is not part of this model, and `HandlePhoto` returns its errors as values instead.
- The decision-tree prediction (bot.py:141) and the torch inference (bot.py:146-148) are trained artifacts; `HandlePhoto` takes them as the functions `selector` and `infer`.
- Pipeline.HandlePhoto: the reply is the annotated canvas and its caption; encoding it as JPEG and sending it (bot.py:151-159) are I/O and not modelled, and the photo's pixels are represented only by the canvas's size and recorded content.
