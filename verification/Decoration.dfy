/** `AIDecorationService`: the prompt, description and element lists of one
    decorated variant, the fallback and regenerated options, and the rule
    that gathers the three variants. The image endpoint is a parameter: a
    function from prompt to encoded image, `None` when the call fails. */
module Decoration {
  import opened Wrappers
  import opened Text
  import opened Styles
  import opened Dto
  import opened ImageAnalysis

  /** The encoded 1x1 image used whenever no generated image is available. */
  const PlaceholderImage := "iVBORw0KGgoAAAANSUhEUgAAAAEAAAABCAYAAAAfFcSJAAAADUlEQVR42mNkYPhfDwAChwGA60e6kgAAAABJRU5ErkJggg=="

  // ---------------------------------------------------------------------
  // createDecorationPrompt

  const PromptOpening := "Interior design makeover of a "
  const PromptClosing := "High quality, realistic, well-lit interior photograph."
  const FurnitureClause := "Preserve and enhance existing furniture. "

  /** The sentence each of the three variations adds; other numbers add none. */
  function VariationDirective(variation: int): (r: string)
    ensures r == "" <==> variation !in {1, 2, 3}
    ensures r != "" ==> EndsWith(r, ". ")
  {
    if variation == 1 then "Focus on maintaining existing furniture while adding decorative elements. "
    else if variation == 2 then "Blend existing furniture with new complementary pieces. "
    else if variation == 3 then "Bold transformation with creative furniture arrangement. "
    else ""
  }

  /** The colour preference is used when it is present and not empty. */
  predicate HasColorPreference(request: DecorationRequest) {
    request.colorPreference.Some? && request.colorPreference.value != ""
  }

  function ColorClause(preference: string): string {
    "Incorporate " + preference + " colors. "
  }

  /** The part of the prompt that the request flags do not influence. */
  function PromptContext(style: DesignStyle, analysis: RoomAnalysis, variation: int): (r: string)
    ensures PromptOpening <= r
  {
    PromptOpening + (Lower(analysis.roomType) + " in " + DisplayName(style) + " style. "
      + Description(style) + ". "
      + "Current room has: " + Join(", ", analysis.detectedElements)
      + " with " + Lower(analysis.lighting) + " lighting and "
      + Lower(analysis.colorScheme) + " color scheme. "
      + VariationDirective(variation))
  }

  function ColorPart(request: DecorationRequest): string {
    if HasColorPreference(request) then ColorClause(request.colorPreference.value) else ""
  }

  function FurniturePart(request: DecorationRequest): string {
    if request.preserveExistingFurniture then FurnitureClause else ""
  }

  /** The prompt built from its request-independent part: the colour
      sentence, the furniture sentence and the closing phrase follow it. */
  function AssemblePrompt(context: string, request: DecorationRequest): (r: string)
    ensures context <= r
    ensures EndsWith(r, PromptClosing)
  {
    var head := context + ColorPart(request) + FurniturePart(request);
    SuffixOfAppend(head, PromptClosing);
    PrefixOfAppend(context, ColorPart(request), FurniturePart(request), PromptClosing);
    head + PromptClosing
  }

  /** `createDecorationPrompt`: always opens with the makeover phrase and
      closes with the photograph phrase. */
  function CreateDecorationPrompt(style: DesignStyle, analysis: RoomAnalysis, request: DecorationRequest, variation: int): (r: string)
    ensures PromptOpening <= r
    ensures EndsWith(r, PromptClosing)
  {
    AssemblePrompt(PromptContext(style, analysis, variation), request)
  }

  /** The colour sentence, for any request-independent part. */
  lemma ColorInsertion(context: string, request: DecorationRequest)
    ensures var plain := AssemblePrompt(context, request.(colorPreference := None));
      var prompt := AssemblePrompt(context, request);
      && (prompt == plain <==> !HasColorPreference(request))
      && (HasColorPreference(request) ==>
            exists k :: 0 <= k <= |plain| && prompt == plain[..k] + ColorClause(request.colorPreference.value) + plain[k..])
  {
    var plain := AssemblePrompt(context, request.(colorPreference := None));
    var prompt := AssemblePrompt(context, request);
    if HasColorPreference(request) {
      var clause := ColorClause(request.colorPreference.value);
      MiddleInsertion(context, clause, FurniturePart(request), PromptClosing);
      var k := |context|;
      assert prompt == plain[..k] + clause + plain[k..];
      assert |prompt| > |plain|;
    }
  }

  /** The colour sentence is inserted exactly when a non-empty preference is
      given; otherwise the prompt is the same as with no preference. */
  lemma ColorClauseExactlyWhenPreferred(style: DesignStyle, analysis: RoomAnalysis, request: DecorationRequest, variation: int)
    ensures var plain := CreateDecorationPrompt(style, analysis, request.(colorPreference := None), variation);
      var prompt := CreateDecorationPrompt(style, analysis, request, variation);
      && (prompt == plain <==> !HasColorPreference(request))
      && (HasColorPreference(request) ==>
            exists k :: 0 <= k <= |plain| && prompt == plain[..k] + ColorClause(request.colorPreference.value) + plain[k..])
  {
    ColorInsertion(PromptContext(style, analysis, variation), request);
  }

  /** The furniture sentence, for any request-independent part. */
  lemma FurnitureInsertion(context: string, request: DecorationRequest)
    ensures var plain := AssemblePrompt(context, request.(preserveExistingFurniture := false));
      var prompt := AssemblePrompt(context, request);
      && (prompt == plain <==> !request.preserveExistingFurniture)
      && (request.preserveExistingFurniture ==>
            prompt == plain[..|plain| - |PromptClosing|] + FurnitureClause + PromptClosing)
  {
    var plain := AssemblePrompt(context, request.(preserveExistingFurniture := false));
    var prompt := AssemblePrompt(context, request);
    if request.preserveExistingFurniture {
      TailInsertion(context + ColorPart(request), FurnitureClause, PromptClosing);
      assert |prompt| > |plain|;
    }
  }

  /** The furniture sentence is inserted, right before the closing phrase,
      exactly when furniture is to be preserved. */
  lemma FurnitureClauseExactlyWhenPreserved(style: DesignStyle, analysis: RoomAnalysis, request: DecorationRequest, variation: int)
    ensures var plain := CreateDecorationPrompt(style, analysis, request.(preserveExistingFurniture := false), variation);
      var prompt := CreateDecorationPrompt(style, analysis, request, variation);
      && (prompt == plain <==> !request.preserveExistingFurniture)
      && (request.preserveExistingFurniture ==>
            prompt == plain[..|plain| - |PromptClosing|] + FurnitureClause + PromptClosing)
  {
    FurnitureInsertion(PromptContext(style, analysis, variation), request);
  }

  /** Variations with the same directive share the request-independent part. */
  lemma ContextReadsDirective(style: DesignStyle, analysis: RoomAnalysis, v1: int, v2: int)
    requires VariationDirective(v1) == VariationDirective(v2)
    ensures PromptContext(style, analysis, v1) == PromptContext(style, analysis, v2)
  {
  }

  /** Assembly reads only the colour preference and the furniture flag. */
  lemma AssemblyReadsTwoFields(context: string, r1: DecorationRequest, r2: DecorationRequest)
    requires r1.colorPreference == r2.colorPreference
    requires r1.preserveExistingFurniture == r2.preserveExistingFurniture
    ensures AssemblePrompt(context, r1) == AssemblePrompt(context, r2)
  {
  }

  /** The prompt reads only the colour preference and the furniture flag of
      the request; variations other than 1, 2 and 3 all give the same prompt. */
  lemma PromptIgnoresOtherInputs(style: DesignStyle, analysis: RoomAnalysis, r1: DecorationRequest, r2: DecorationRequest, v1: int, v2: int)
    requires r1.colorPreference == r2.colorPreference
    requires r1.preserveExistingFurniture == r2.preserveExistingFurniture
    requires v1 == v2 || (v1 !in {1, 2, 3} && v2 !in {1, 2, 3})
    ensures CreateDecorationPrompt(style, analysis, r1, v1) == CreateDecorationPrompt(style, analysis, r2, v2)
  {
    ContextReadsDirective(style, analysis, v1, v2);
    AssemblyReadsTwoFields(PromptContext(style, analysis, v1), r1, r2);
  }

  // ---------------------------------------------------------------------
  // generateDescription

  function DescriptionOpening(style: DesignStyle, analysis: RoomAnalysis): string {
    "This " + DisplayName(style) + " design transforms your " + Lower(analysis.roomType) + " with "
  }

  /** The sentences of a variation's narrative before the style name. */
  function NarrativeBody(variation: int): string {
    if variation == 1 then
      "subtle enhancements that complement your existing furniture. "
      + "Added decorative elements maintain the room's current character while introducing "
    else if variation == 2 then
      "a balanced approach mixing your current pieces with new complementary furniture. "
      + "The design creates harmony between existing and new elements in true "
    else
      "a bold reimagining of the space with creative furniture arrangements. "
      + "This variation embraces the full potential of "
  }

  /** The words after the style name that end a variation's narrative. */
  function NarrativeClosing(variation: int): (r: string)
    ensures |r| >= 3
  {
    if variation == 1 then " aesthetics."
    else if variation == 2 then " fashion."
    else " design principles."
  }

  /** The narrative each of the three variations adds; other numbers add none. */
  function VariationNarrative(style: DesignStyle, variation: int): (r: string)
    ensures r == "" <==> variation !in {1, 2, 3}
  {
    if 1 <= variation <= 3 then NarrativeBody(variation) + Lower(DisplayName(style)) + NarrativeClosing(variation)
    else ""
  }

  /** `generateDescription`: opens with the style and room; a variation other
      than 1, 2 or 3 leaves the sentence unfinished after "with ". */
  function GenerateDescription(style: DesignStyle, analysis: RoomAnalysis, variation: int): (r: string)
    ensures DescriptionOpening(style, analysis) <= r
    ensures (variation < 1 || variation > 3) ==> r == DescriptionOpening(style, analysis)
  {
    DescriptionOpening(style, analysis) + VariationNarrative(style, variation)
  }

  /** A variation's description ends with the lower-cased style name and that
      variation's closing words. */
  lemma DescriptionEndsWithClosing(style: DesignStyle, analysis: RoomAnalysis, variation: int)
    requires 1 <= variation <= 3
    ensures EndsWith(GenerateDescription(style, analysis, variation), Lower(DisplayName(style)) + NarrativeClosing(variation))
  {
    EndsWithNested(DescriptionOpening(style, analysis), NarrativeBody(variation),
                   Lower(DisplayName(style)), NarrativeClosing(variation));
  }

  /** Each of the three variations ends its description with the lower-cased
      style name and its own closing words. */
  lemma DescriptionEnding(style: DesignStyle, analysis: RoomAnalysis, variation: int)
    requires 1 <= variation <= 3
    ensures variation == 1 ==> EndsWith(GenerateDescription(style, analysis, 1), Lower(DisplayName(style)) + " aesthetics.")
    ensures variation == 2 ==> EndsWith(GenerateDescription(style, analysis, 2), Lower(DisplayName(style)) + " fashion.")
    ensures variation == 3 ==> EndsWith(GenerateDescription(style, analysis, 3), Lower(DisplayName(style)) + " design principles.")
  {
    DescriptionEndsWithClosing(style, analysis, variation);
  }

  /** The three variations of one style and room have different descriptions. */
  lemma DescriptionsDiffer(style: DesignStyle, analysis: RoomAnalysis, v: int, w: int)
    requires 1 <= v <= 3 && 1 <= w <= 3 && v != w
    ensures GenerateDescription(style, analysis, v) != GenerateDescription(style, analysis, w)
  {
    var cv, cw := NarrativeClosing(v), NarrativeClosing(w);
    assert cv[|cv| - 3..] != cw[|cw| - 3..];
    DescriptionEndsWithClosing(style, analysis, v);
    DescriptionEndsWithClosing(style, analysis, w);
    DistinctClosings(GenerateDescription(style, analysis, v), GenerateDescription(style, analysis, w),
                     Lower(DisplayName(style)), cv, cw);
  }

  // ---------------------------------------------------------------------
  // generateAddedElements and generateModifiedElements

  const DefaultAccents: seq<string> := ["Modern accessories", "Clean lines", "Neutral colors", "Functional design"]

  /** The four style-specific additions; every style the switch does not name
      (Modern and Traditional) shares the default list. */
  function StyleAccents(style: DesignStyle): (r: seq<string>)
    ensures |r| == 4
  {
    match style
    case Finnish => ["Birch wood accents", "Minimalist lighting fixtures", "Natural textiles", "Clean-lined furniture"]
    case Swedish => ["Cozy throw blankets", "Hygge candles", "Light wood furniture", "Neutral cushions"]
    case Arabic => ["Ornate patterns", "Rich tapestries", "Metallic accents", "Geometric designs"]
    case Russian => ["Imperial-style furniture", "Rich fabrics", "Ornate decorations", "Classical elements"]
    case American => ["Contemporary art", "Mixed textures", "Bold accent pieces", "Functional storage"]
    case _ => DefaultAccents
  }

  function VariationAccents(variation: int): (r: seq<string>)
    ensures |r| == 2
  {
    if variation == 1 then ["Wall art", "Decorative plants"]
    else if variation == 2 then ["Area rug", "Accent furniture"]
    else ["Statement pieces", "Architectural elements"]
  }

  /** `generateAddedElements`: six entries, four chosen by the style followed
      by two chosen by the variation. */
  function GenerateAddedElements(style: DesignStyle, variation: int): (r: seq<string>)
    ensures |r| == 6
    ensures r[..4] == StyleAccents(style)
    ensures variation == 1 ==> r[4..] == ["Wall art", "Decorative plants"]
    ensures variation == 2 ==> r[4..] == ["Area rug", "Accent furniture"]
    ensures variation != 1 && variation != 2 ==> r[4..] == ["Statement pieces", "Architectural elements"]
  {
    StyleAccents(style) + VariationAccents(variation)
  }

  predicate UsesDefaultAccents(style: DesignStyle) {
    style == Modern || style == Traditional
  }

  /** Two added-element lists are equal exactly when the styles share their
      accents and the variations share their extras. */
  lemma AddedElementsEqualIff(s1: DesignStyle, v1: int, s2: DesignStyle, v2: int)
    ensures GenerateAddedElements(s1, v1) == GenerateAddedElements(s2, v2) <==>
      && (s1 == s2 || (UsesDefaultAccents(s1) && UsesDefaultAccents(s2)))
      && (v1 == v2 || (v1 != 1 && v1 != 2 && v2 != 1 && v2 != 2))
  {
    var a1 := GenerateAddedElements(s1, v1);
    var a2 := GenerateAddedElements(s2, v2);
    if a1 == a2 {
      assert a1[..4] == a2[..4];
      assert a1[4..] == a2[4..];
      assert StyleAccents(s1)[0] == StyleAccents(s2)[0];
      assert VariationAccents(v1)[0] == VariationAccents(v2)[0];
    }
  }

  const BaseModifications: seq<string> := ["Wall color", "Lighting arrangement", "Furniture positioning"]

  /** `generateModifiedElements`: always the three base entries first; three
      entries up to variation 1, seven for variation 3, five otherwise. */
  function GenerateModifiedElements(variation: int): (r: seq<string>)
    ensures BaseModifications <= r
    ensures |r| == (if variation <= 1 then 3 else if variation == 3 then 7 else 5)
  {
    BaseModifications
      + (if variation > 1 then ["Flooring treatment", "Window treatments"] else [])
      + (if variation == 3 then ["Room layout", "Architectural features"] else [])
  }

  /** Each variation's list extends the previous one, and every other
      variation number repeats the list of 1 or of 2. */
  lemma ModifiedElementsNested(variation: int)
    ensures GenerateModifiedElements(1) <= GenerateModifiedElements(2)
    ensures GenerateModifiedElements(2) <= GenerateModifiedElements(3)
    ensures variation <= 1 ==> GenerateModifiedElements(variation) == GenerateModifiedElements(1)
    ensures variation == 2 || variation >= 4 ==> GenerateModifiedElements(variation) == GenerateModifiedElements(2)
  {
  }

  // ---------------------------------------------------------------------
  // generateFallbackOptions and regenerateOption

  const FallbackAdded: seq<string> := ["Style-appropriate furniture", "Complementary colors", "Suitable lighting"]
  const FallbackModified: seq<string> := ["Room layout", "Color scheme", "Furniture arrangement"]

  function FallbackOpening(i: nat): string {
    "Fallback design option " + NatToDecimal(i) + " in "
  }

  function FallbackBody(style: DesignStyle): string {
    DisplayName(style) + " style. " + "This design incorporates " + Lower(Description(style)) + " elements."
  }

  function FallbackOption(style: DesignStyle, i: nat): (r: DecoratedRoomOption)
    ensures r.id == FreshUuid && r.designStyle == DisplayName(style) && r.imageBase64 == PlaceholderImage
    ensures r.addedElements == FallbackAdded && r.modifiedElements == FallbackModified
    ensures FallbackOpening(i) <= r.description
  {
    DecoratedRoomOption(
      FreshUuid,
      DisplayName(style),
      PlaceholderImage,
      FallbackOpening(i) + FallbackBody(style),
      FallbackAdded,
      FallbackModified)
  }

  /** The three placeholder options of one style, the i-th described as
      "Fallback design option i in ...". */
  function FallbackOptions(style: DesignStyle): (r: seq<DecoratedRoomOption>)
    ensures |r| == 3
    ensures forall i :: 0 <= i < |r| ==>
      && r[i].id == FreshUuid
      && r[i].designStyle == DisplayName(style)
      && r[i].imageBase64 == PlaceholderImage
      && r[i].addedElements == FallbackAdded
      && r[i].modifiedElements == FallbackModified
      && FallbackOpening(i + 1) <= r[i].description
  {
    seq(3, i requires 0 <= i < 3 => FallbackOption(style, i + 1))
  }

  /** `generateFallbackOptions`: the placeholder options of the requested
      style. */
  function GenerateFallbackOptions(request: DecorationRequest): (r: seq<DecoratedRoomOption>)
    ensures |r| == 3
    ensures forall i :: 0 <= i < |r| ==>
      && r[i].id == FreshUuid
      && r[i].designStyle == DisplayName(FromString(request.designStyle))
      && r[i].imageBase64 == PlaceholderImage
      && r[i].addedElements == FallbackAdded
      && r[i].modifiedElements == FallbackModified
      && FallbackOpening(i + 1) <= r[i].description
  {
    FallbackOptions(FromString(request.designStyle))
  }

  /** The three fallback options have different descriptions. */
  lemma FallbackDescriptionsDiffer(request: DecorationRequest, i: nat, j: nat)
    requires i < 3 && j < 3 && i != j
    ensures GenerateFallbackOptions(request)[i].description != GenerateFallbackOptions(request)[j].description
  {
    var r := GenerateFallbackOptions(request);
    var di, dj := NatToDecimal(i + 1), NatToDecimal(j + 1);
    assert |di| == 1 && |dj| == 1;
    assert di != dj;
    DistinctMiddle("Fallback design option ", di, dj, " in ");
    DistinctPrefixes(FallbackOpening(i + 1), FallbackOpening(j + 1), r[i].description, r[j].description);
  }

  const RegeneratedModified: seq<string> := ["Updated layout", "Revised color scheme", "Modified furniture"]

  /** `regenerateOption`: keeps the caller's identifier and uses the added
      elements of variation 2 with a placeholder image. */
  function RegenerateOption(optionId: string, request: DecorationRequest): (r: DecoratedRoomOption)
    ensures r.id == Given(optionId)
    ensures r.designStyle == DisplayName(FromString(request.designStyle))
    ensures r.imageBase64 == PlaceholderImage
    ensures r.addedElements == GenerateAddedElements(FromString(request.designStyle), 2)
    ensures r.addedElements[4..] == ["Area rug", "Accent furniture"]
    ensures r.modifiedElements == RegeneratedModified
  {
    var style := FromString(request.designStyle);
    DecoratedRoomOption(
      Given(optionId),
      DisplayName(style),
      PlaceholderImage,
      "Regenerated " + DisplayName(style) + " design with updated preferences.",
      GenerateAddedElements(style, 2),
      RegeneratedModified)
  }

  // ---------------------------------------------------------------------
  // generateSingleOption and generateDecorationOptions

  /** `generateSingleOption`: the option of one variation, whose image is the
      endpoint's reply to that variation's prompt, or the placeholder. */
  function GenerateSingleOption(request: DecorationRequest, analysis: RoomAnalysis, variation: int,
                                imageService: string -> Option<string>): (r: DecoratedRoomOption)
    ensures r.designStyle == DisplayName(FromString(request.designStyle))
    ensures imageService(CreateDecorationPrompt(FromString(request.designStyle), analysis, request, variation)).None?
      ==> r.imageBase64 == PlaceholderImage
    ensures |r.addedElements| == 6 && BaseModifications <= r.modifiedElements
    ensures r.id == FreshUuid
    ensures r.description == GenerateDescription(FromString(request.designStyle), analysis, variation)
    ensures r.addedElements == GenerateAddedElements(FromString(request.designStyle), variation)
    ensures r.modifiedElements == GenerateModifiedElements(variation)
    ensures imageService(CreateDecorationPrompt(FromString(request.designStyle), analysis, request, variation)).Some?
      ==> r.imageBase64 == imageService(CreateDecorationPrompt(FromString(request.designStyle), analysis, request, variation)).value
  {
    var style := FromString(request.designStyle);
    var prompt := CreateDecorationPrompt(style, analysis, request, variation);
    DecoratedRoomOption(
      FreshUuid,
      DisplayName(style),
      imageService(prompt).GetOr(PlaceholderImage),
      GenerateDescription(style, analysis, variation),
      GenerateAddedElements(style, variation),
      GenerateModifiedElements(variation))
  }

  /** The values of the present entries, in order. */
  function Present<T(!new)>(xs: seq<Option<T>>): (r: seq<T>)
    ensures |r| <= |xs|
    ensures r == [] <==> forall i :: 0 <= i < |xs| ==> xs[i].None?
    ensures forall x :: x in r <==> Some(x) in xs
    decreases |xs|
  {
    if |xs| == 0 then []
    else (if xs[0].Some? then [xs[0].value] else []) + Present(xs[1..])
  }

  lemma {:induction false} PresentAppend<T(!new)>(a: seq<Option<T>>, b: seq<Option<T>>)
    ensures Present(a + b) == Present(a) + Present(b)
    decreases |a|
  {
    if |a| == 0 {
      assert a + b == b;
    } else {
      assert (a + b)[1..] == a[1..] + b;
      PresentAppend(a[1..], b);
    }
  }

  lemma PresentOfThree<T(!new)>(a: Option<T>, b: Option<T>, c: Option<T>)
    ensures Present([a, b, c]) ==
      (if a.Some? then [a.value] else []) + (if b.Some? then [b.value] else []) + (if c.Some? then [c.value] else [])
  {
    assert [a, b, c][1..] == [b, c];
    assert [b, c][1..] == [c];
    assert [c][1..] == [];
  }

  /** The collecting loop of `generateDecorationOptions`: keep each non-null
      result, in submission order. */
  method CollectResults<T(!new)>(results: seq<Option<T>>) returns (options: seq<T>)
    ensures options == Present(results)
    ensures |options| <= |results|
  {
    options := [];
    var i := 0;
    while i < |results|
      invariant 0 <= i <= |results|
      invariant options == Present(results[..i])
    {
      PresentAppend(results[..i], [results[i]]);
      assert results[..i + 1] == results[..i] + [results[i]];
      if results[i].Some? {
        options := options + [results[i].value];
      }
      i := i + 1;
    }
    assert results[..i] == results;
  }

  /** How one of the three submitted tasks ended: it completed, or it threw
      (or returned null). */
  datatype TaskOutcome = Completed | Crashed

  type TaskOutcomes = (TaskOutcome, TaskOutcome, TaskOutcome)

  /** The variations whose tasks completed, in increasing order. */
  function CompletedVariations(tasks: TaskOutcomes): (r: seq<int>)
    ensures |r| <= 3
  {
    (if tasks.0.Completed? then [1] else [])
      + (if tasks.1.Completed? then [2] else [])
      + (if tasks.2.Completed? then [3] else [])
  }

  /** The futures of the three variations, in submission order: the option
      `make` builds for a completed variation, null for a crashed one. */
  function TaskResults<T>(tasks: TaskOutcomes, make: int -> T): seq<Option<T>> {
    [ if tasks.0.Completed? then Some(make(1)) else None,
      if tasks.1.Completed? then Some(make(2)) else None,
      if tasks.2.Completed? then Some(make(3)) else None ]
  }

  /** Keeping the non-null results keeps exactly the completed variations,
      in variation order. */
  lemma PresentTaskResults<T(!new)>(tasks: TaskOutcomes, make: int -> T)
    ensures var r := Present(TaskResults(tasks, make));
      && |r| == |CompletedVariations(tasks)|
      && forall i :: 0 <= i < |r| ==> r[i] == make(CompletedVariations(tasks)[i])
  {
    var results := TaskResults(tasks, make);
    PresentOfThree(results[0], results[1], results[2]);
    assert results == [results[0], results[1], results[2]];
  }

  /** The gathering rule of `generateDecorationOptions`: the non-null task
      results in submission order, or `fallback` when every task failed. */
  function Gather<T(!new)>(tasks: TaskOutcomes, make: int -> T, fallback: seq<T>): (r: seq<T>)
    ensures CompletedVariations(tasks) == [] ==> r == fallback
    ensures CompletedVariations(tasks) != [] ==>
      && |r| == |CompletedVariations(tasks)|
      && forall i :: 0 <= i < |r| ==> r[i] == make(CompletedVariations(tasks)[i])
  {
    PresentTaskResults(tasks, make);
    var options := Present(TaskResults(tasks, make));
    if options == [] then fallback else options
  }

  /** `generateDecorationOptions`, with the three tasks run in sequence. The
      result is never empty: the options of the completed variations in
      variation order, or the three fallback options when none completed. */
  function GenerateDecorationOptions(request: DecorationRequest, analysis: RoomAnalysis,
                                     imageService: string -> Option<string>, tasks: TaskOutcomes): (r: seq<DecoratedRoomOption>)
    ensures 1 <= |r| <= 3
    ensures forall i :: 0 <= i < |r| ==> r[i].designStyle == DisplayName(FromString(request.designStyle))
    ensures CompletedVariations(tasks) == [] ==> r == GenerateFallbackOptions(request)
    ensures CompletedVariations(tasks) != [] ==>
      && |r| == |CompletedVariations(tasks)|
      && forall i :: 0 <= i < |r| ==>
           r[i] == GenerateSingleOption(request, analysis, CompletedVariations(tasks)[i], imageService)
  {
    var make := (v: int) => GenerateSingleOption(request, analysis, v, imageService);
    var completed := CompletedVariations(tasks);
    var r := Gather(tasks, make, GenerateFallbackOptions(request));
    assert completed != [] ==> forall i :: 0 <= i < |r| ==>
      r[i] == GenerateSingleOption(request, analysis, completed[i], imageService) by {
      if completed != [] {
        forall i | 0 <= i < |r|
          ensures r[i] == GenerateSingleOption(request, analysis, completed[i], imageService)
        {
          assert r[i] == make(completed[i]);
        }
      }
    }
    assert forall i :: 0 <= i < |r| ==> r[i].designStyle == DisplayName(FromString(request.designStyle)) by {
      if completed != [] {
        forall i | 0 <= i < |r|
          ensures r[i].designStyle == DisplayName(FromString(request.designStyle))
        {
          assert r[i] == GenerateSingleOption(request, analysis, completed[i], imageService);
        }
      }
    }
    r
  }

}
