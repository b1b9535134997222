/** The repository: wraps the image file in a form-data part and forwards each of the
    three analyses to its endpoint, fixing the format and passing the mode through. */
module PoseRepository {
  import opened Optional
  import opened PoseApi

  /** Which of the three analyses a request asks for. */
  datatype Variant = SimpleAnalysis | FullAnalysis | OverlayAnalysis

  /** `filePart`: one part named "image", under the file's own name, with content type image/any. */
  function FilePart(imageFile: ImageFile): (p: Part)
    ensures p.name == "image" && p.contentType == "image/*"
    ensures p.fileName == imageFile.name && p.file == imageFile
  {
    FormData("image", imageFile.name, "image/*", imageFile)
  }

  function AnalyzeSimple(imageFile: ImageFile, mode: Option<string>): Call {
    PoseApi.AnalyzePose(image := FilePart(imageFile), format := "simple", mode := mode)
  }

  function AnalyzeFull(imageFile: ImageFile, mode: Option<string>): Call {
    PoseApi.AnalyzePoseFull(image := FilePart(imageFile), format := "full", mode := mode)
  }

  function Overlay(imageFile: ImageFile, mode: Option<string>): Call {
    PoseApi.AnalyzePoseOverlay(image := FilePart(imageFile), mode := mode)
  }

  /** The single call each analysis makes. */
  function Request(v: Variant, imageFile: ImageFile, mode: Option<string>): (c: Call)
    ensures c.verb == "POST" && c.image == FilePart(imageFile) && c.mode == mode
    ensures VariantOf(c) == Some(v)
  {
    match v
    case SimpleAnalysis => AnalyzeSimple(imageFile, mode)
    case FullAnalysis => AnalyzeFull(imageFile, mode)
    case OverlayAnalysis => Overlay(imageFile, mode)
  }

  /** Which analysis a request is, read off its path, format and reply kind alone;
      None for a request none of the three operations builds. */
  function VariantOf(c: Call): Option<Variant> {
    if c.path == "analyze_pose" && c.format == Some("simple") && c.reply == SimpleJson then Some(SimpleAnalysis)
    else if c.path == "analyze_pose" && c.format == Some("full") && c.reply == FullJson then Some(FullAnalysis)
    else if c.path == "analyze_pose_overlay" && c.format == None && c.reply == RawBytes then Some(OverlayAnalysis)
    else None
  }

  /** The formats the repository passes explicitly are exactly the endpoints' defaults. */
  lemma FormatsAreTheDefaults(imageFile: ImageFile, mode: Option<string>)
    ensures AnalyzeSimple(imageFile, mode) == PoseApi.AnalyzePose(FilePart(imageFile), mode := mode)
    ensures AnalyzeFull(imageFile, mode) == PoseApi.AnalyzePoseFull(FilePart(imageFile), mode := mode)
  {
  }

  /** Distinct analyses, files or modes never produce the same request: the request
      determines the variant, the mode and the file. */
  lemma RequestInjective(v1: Variant, f1: ImageFile, m1: Option<string>, v2: Variant, f2: ImageFile, m2: Option<string>)
    requires Request(v1, f1, m1) == Request(v2, f2, m2)
    ensures v1 == v2 && f1 == f2 && m1 == m2
  {
  }
}
