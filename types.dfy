/**
 * The request record shared by the page and the proxy route (src/types.ts).
 * `model` and `aspect_ratio` are string-literal unions in the source; here they
 * are enumerations, and `ModelId` / `AspectRatioId` give the literal each
 * constructor stands for.
 */
module Types {
  import opened Wrappers
  import opened JsText

  /** The six generation back-ends `model` may name. */
  datatype Model =
    | SD35Large | SD35LargeTurbo | SD35Medium
    | SD3Large | SD3LargeTurbo | SD3Medium

  /** The nine `aspect_ratio` strings. */
  datatype AspectRatio =
    | Ratio16x9 | Ratio1x1 | Ratio21x9 | Ratio2x3 | Ratio3x2
    | Ratio4x5 | Ratio5x4 | Ratio9x16 | Ratio9x21

  /** The string literals of the `model` union, in declaration order. */
  const ModelIds: seq<string> :=
    ["sd3.5-large", "sd3.5-large-turbo", "sd3.5-medium",
     "sd3-large", "sd3-large-turbo", "sd3-medium"]

  /** The string literals of the `aspect_ratio` union, in declaration order. */
  const AspectRatioIds: seq<string> :=
    ["16:9", "1:1", "21:9", "2:3", "3:2", "4:5", "5:4", "9:16", "9:21"]

  function ModelId(m: Model): (id: string)
    ensures id in ModelIds && id != ""
  {
    match m
    case SD35Large => "sd3.5-large"
    case SD35LargeTurbo => "sd3.5-large-turbo"
    case SD35Medium => "sd3.5-medium"
    case SD3Large => "sd3-large"
    case SD3LargeTurbo => "sd3-large-turbo"
    case SD3Medium => "sd3-medium"
  }

  function AspectRatioId(a: AspectRatio): (id: string)
    ensures id in AspectRatioIds && id != ""
  {
    match a
    case Ratio16x9 => "16:9"
    case Ratio1x1 => "1:1"
    case Ratio21x9 => "21:9"
    case Ratio2x3 => "2:3"
    case Ratio3x2 => "3:2"
    case Ratio4x5 => "4:5"
    case Ratio5x4 => "5:4"
    case Ratio9x16 => "9:16"
    case Ratio9x21 => "9:21"
  }

  /** The member of the `model` union a string literal denotes, if any. */
  function ModelFromId(s: string): (r: Option<Model>)
    ensures r.Some? <==> s in ModelIds
    ensures r.Some? ==> ModelId(r.value) == s
  {
    if s == "sd3.5-large" then Some(SD35Large)
    else if s == "sd3.5-large-turbo" then Some(SD35LargeTurbo)
    else if s == "sd3.5-medium" then Some(SD35Medium)
    else if s == "sd3-large" then Some(SD3Large)
    else if s == "sd3-large-turbo" then Some(SD3LargeTurbo)
    else if s == "sd3-medium" then Some(SD3Medium)
    else None
  }

  /** The member of the `aspect_ratio` union a string literal denotes, if any. */
  function AspectRatioFromId(s: string): (r: Option<AspectRatio>)
    ensures r.Some? <==> s in AspectRatioIds
    ensures r.Some? ==> AspectRatioId(r.value) == s
  {
    if s == "16:9" then Some(Ratio16x9)
    else if s == "1:1" then Some(Ratio1x1)
    else if s == "21:9" then Some(Ratio21x9)
    else if s == "2:3" then Some(Ratio2x3)
    else if s == "3:2" then Some(Ratio3x2)
    else if s == "4:5" then Some(Ratio4x5)
    else if s == "5:4" then Some(Ratio5x4)
    else if s == "9:16" then Some(Ratio9x16)
    else if s == "9:21" then Some(Ratio9x21)
    else None
  }

  /** Each model has its own identifier, so the union has exactly six members. */
  lemma ModelIdRoundTrip(m: Model)
    ensures ModelFromId(ModelId(m)) == Some(m)
  {
  }

  lemma ModelIdInjective(m1: Model, m2: Model)
    ensures ModelId(m1) == ModelId(m2) ==> m1 == m2
  {
    ModelIdRoundTrip(m1);
    ModelIdRoundTrip(m2);
  }

  /** Each aspect ratio has its own string, so the union has exactly nine members. */
  lemma AspectRatioIdRoundTrip(a: AspectRatio)
    ensures AspectRatioFromId(AspectRatioId(a)) == Some(a)
  {
  }

  lemma AspectRatioIdInjective(a1: AspectRatio, a2: AspectRatio)
    ensures AspectRatioId(a1) == AspectRatioId(a2) ==> a1 == a2
  {
    AspectRatioIdRoundTrip(a1);
    AspectRatioIdRoundTrip(a2);
  }

  /**
   * `GenerationOptions`: `prompt` is the one required member; every other
   * member may be absent (`None`). `cfgScale` is a JavaScript number, kept as
   * its `toString()` rendering.
   */
  datatype GenerationOptions = GenerationOptions(
    prompt: string,
    model: Option<Model>,
    aspectRatio: Option<AspectRatio>,
    negativePrompt: Option<string>,
    seed: Option<int>,
    cfgScale: Option<JsNumber>,
    apiKey: Option<string>)
}
