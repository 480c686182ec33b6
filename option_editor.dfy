/**
  The option editor (src/components/OptionEditor.tsx): the three-way mode shown
  for the two booleans `optimize_images` and `generate_webp`, and the handlers that
  each rebuild the record with one field replaced.
*/
module OptionEditor {
  import opened Optimize

  datatype OptimizeType = Both | OptimizeOnly | WebpOnly

  /** `updateOptionsByOptionType`: the two booleans are set from the mode, the
      other five fields are copied. */
  function UpdateOptionsByOptionType(t: OptimizeType, o: OptimizeOptions): (r: OptimizeOptions)
    ensures r.generateWebp <==> t != OptimizeOnly
    ensures r.optimizeImages <==> t != WebpOnly
    ensures r.(optimizeImages := o.optimizeImages, generateWebp := o.generateWebp) == o
  {
    o.(generateWebp := t != OptimizeOnly, optimizeImages := t != WebpOnly)
  }

  /** `getOptimizeType`. */
  function GetOptimizeType(o: OptimizeOptions): (t: OptimizeType)
    ensures t == WebpOnly <==> o.generateWebp && !o.optimizeImages
    ensures t == OptimizeOnly <==> o.optimizeImages && !o.generateWebp
    ensures t == Both <==> o.optimizeImages == o.generateWebp
  {
    if o.generateWebp && !o.optimizeImages then WebpOnly
    else if o.optimizeImages && !o.generateWebp then OptimizeOnly
    else Both
  }

  /** The record the mode selector produces always has one of the two passes on. */
  lemma UpdateNeverDisablesBoth(t: OptimizeType, o: OptimizeOptions)
    ensures UpdateOptionsByOptionType(t, o).optimizeImages || UpdateOptionsByOptionType(t, o).generateWebp
  {
  }

  /** Setting a mode and reading it back gives that mode. */
  lemma ModeRoundTrip(t: OptimizeType, o: OptimizeOptions)
    ensures GetOptimizeType(UpdateOptionsByOptionType(t, o)) == t
  {
  }

  /** Reading the mode and setting it again restores a record with at least one of
      the two passes on. */
  lemma ModeRestores(o: OptimizeOptions)
    requires o.optimizeImages || o.generateWebp
    ensures UpdateOptionsByOptionType(GetOptimizeType(o), o) == o
  {
  }

  /** The corner the selector cannot represent: with both passes off the mode reads
      as both, and selecting it turns both passes on. */
  lemma BothOffIsNotRestored(o: OptimizeOptions)
    requires !o.optimizeImages && !o.generateWebp
    ensures GetOptimizeType(o) == Both
    ensures UpdateOptionsByOptionType(GetOptimizeType(o), o) != o
  {
  }

  /** The JPEG quality slider. */
  function OnJpgQualityChange(o: OptimizeOptions, valueAsNumber: real): (r: OptimizeOptions)
    ensures r.jpgQuality == valueAsNumber
    ensures r.(jpgQuality := o.jpgQuality) == o
  {
    o.(jpgQuality := valueAsNumber)
  }

  /** The PNG compressor select: imagequant turns the PNG8 path on, any other value
      (oxipng) turns it off. */
  function OnPngCompressorChange(o: OptimizeOptions, selected: string): (r: OptimizeOptions)
    ensures r.usePng8 <==> selected == "imagequant"
    ensures r.(usePng8 := o.usePng8) == o
  {
    o.(usePng8 := selected == "imagequant")
  }

  /** The PNG8 quality slider. */
  function OnPng8QualityChange(o: OptimizeOptions, valueAsNumber: real): (r: OptimizeOptions)
    ensures r.png8Quality == valueAsNumber
    ensures r.(png8Quality := o.png8Quality) == o
  {
    o.(png8Quality := valueAsNumber)
  }

  /** The WebP source select: "optimized" derives WebP from the optimised output,
      any other value (original) from the original image. */
  function OnWebpSourceChange(o: OptimizeOptions, selected: string): (r: OptimizeOptions)
    ensures r.webpFromOptimized <==> selected == "optimized"
    ensures r.(webpFromOptimized := o.webpFromOptimized) == o
  {
    o.(webpFromOptimized := selected == "optimized")
  }

  /** The WebP quality slider. */
  function OnWebpQualityChange(o: OptimizeOptions, valueAsNumber: real): (r: OptimizeOptions)
    ensures r.webpQuality == valueAsNumber
    ensures r.(webpQuality := o.webpQuality) == o
  {
    o.(webpQuality := valueAsNumber)
  }

  /** None of the quality and compressor handlers changes the mode. */
  lemma HandlersKeepMode(o: OptimizeOptions, x: real, s: string)
    ensures GetOptimizeType(OnJpgQualityChange(o, x)) == GetOptimizeType(o)
    ensures GetOptimizeType(OnPngCompressorChange(o, s)) == GetOptimizeType(o)
    ensures GetOptimizeType(OnPng8QualityChange(o, x)) == GetOptimizeType(o)
    ensures GetOptimizeType(OnWebpSourceChange(o, s)) == GetOptimizeType(o)
    ensures GetOptimizeType(OnWebpQualityChange(o, x)) == GetOptimizeType(o)
  {
  }
}
