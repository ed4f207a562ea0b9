/**
 * The photo handler of bot.py, past the transport: fingerprint the image,
 * let the selector name a model, look it up in the registry, run it, and
 * draw its detections on a copy of the image. The selector and the detectors
 * are trained artifacts and enter as functions.
 */
module Pipeline {
  import opened Wrappers
  import opened Features
  import opened Annotator

  type DetectorId = nat

  /** A registry entry: display name, detector and label vocabulary. */
  datatype ModelEntry = ModelEntry(name: string, detector: DetectorId, categories: seq<string>)

  /** The loaded models, by the key the selector predicts. */
  type Registry = map<string, ModelEntry>

  /** What a detector returns for the image: parallel boxes, labels and scores. */
  datatype Prediction = Prediction(boxes: seq<Box>, labels: seq<int>, scores: seq<real>)

  datatype PipelineError =
    | UnknownModel(key: string)   // the selector named a model the registry lacks
    | Rendering(cause: DrawError) // a detection's label is outside the vocabulary

  /** The annotated copy and the caption naming the model that produced it. */
  datatype Reply = Reply(image: Canvas, caption: string)

  const CaptionPrefix: string := "Model used: "

  /** Registry lookup: the entry under `key`, or the error of a missing key. */
  function Lookup(registry: Registry, key: string): (r: Result<ModelEntry, PipelineError>)
    ensures r.Ok? <==> key in registry
    ensures r.Ok? ==> r.value == registry[key]
    ensures r.Err? ==> r.error == UnknownModel(key)
  {
    if key in registry then Ok(registry[key]) else Err(UnknownModel(key))
  }

  /** The entry the selector picks for a fingerprint; a name outside the registry is an error. */
  function ChooseModel(f: Fingerprint, selector: seq<real> -> string, registry: Registry)
    : (r: Result<ModelEntry, PipelineError>)
    ensures r.Ok? ==> selector(f.Row()) in registry && r.value == registry[selector(f.Row())]
    ensures r.Ok? ==> r.value in registry.Values
    ensures r.Err? <==> selector(f.Row()) !in registry
    ensures r.Err? ==> r.error == UnknownModel(selector(f.Row()))
  {
    Lookup(registry, selector(f.Row()))
  }

  /**
   * Handles one decoded photo. `analysis` is what the library stages report
   * about its pixels, `infer` runs a detector on it. The photo itself is never
   * drawn on; the reply carries an annotated copy.
   */
  method HandlePhoto(image: Canvas, analysis: PixelAnalysis, selector: seq<real> -> string,
                     registry: Registry, infer: DetectorId -> Prediction)
    returns (r: Result<Reply, PipelineError>)
    ensures unchanged(image)
    ensures var choice := ChooseModel(Extract(image.width, image.height, analysis), selector, registry);
      && (choice.Err? ==> r == Err(choice.error))
      && (choice.Ok? ==>
            var entry := choice.value;
            var p := infer(entry.detector);
            var drawing := Annotate(Zip3(p.boxes, p.labels, p.scores), entry.categories, DefaultThreshold);
            && (drawing.error.Some? ==> r == Err(Rendering(drawing.error.value)))
            && (drawing.error.None? ==>
                  && r.Ok?
                  && fresh(r.value.image)
                  && r.value.image.width == image.width
                  && r.value.image.height == image.height
                  && r.value.image.commands == image.commands + drawing.commands
                  && r.value.caption == CaptionPrefix + entry.name))
  {
    var features := Extract(image.width, image.height, analysis);
    var choice := ChooseModel(features, selector, registry);
    if choice.Err? {
      return Err(choice.error);
    }
    var entry := choice.value;
    var p := infer(entry.detector);
    var copy := new Canvas.Copy(image);
    var error := DrawBoxes(copy, p.boxes, p.labels, p.scores, entry.categories, DefaultThreshold);
    if error.Some? {
      return Err(Rendering(error.value));
    }
    r := Ok(Reply(copy, CaptionPrefix + entry.name));
  }
}
