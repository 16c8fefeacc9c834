/** `ImageAnalysisService`: the contour heuristics of `detectRoomElements`,
    the keyword classifier `determineRoomType`, and how `analyzeRoom` puts
    the pieces together or falls back to a fixed record. The vision library
    and the language-model call are inputs. */
module ImageAnalysis {
  import opened Wrappers
  import opened Text

  /** The `RoomAnalysis` record. */
  datatype RoomAnalysis = RoomAnalysis(
    detectedElements: seq<string>,
    aiDescription: string,
    roomType: string,
    lighting: string,
    colorScheme: string)

  /** The three results of `analyzeLighting`. */
  datatype Lighting = Bright | Natural | Dim

  /** The three results of `analyzeColorScheme`. */
  datatype ColorScheme = Warm | Cool | Neutral

  function LightingLabel(l: Lighting): string {
    match l
    case Bright => "Bright"
    case Natural => "Natural"
    case Dim => "Dim"
  }

  function ColorSchemeLabel(c: ColorScheme): string {
    match c
    case Warm => "Warm"
    case Cool => "Cool"
    case Neutral => "Neutral"
  }

  // ---------------------------------------------------------------------
  // Contour heuristics of detectRoomElements

  /** What the vision library reports for one contour: its area and the width
      and height of its bounding rectangle. */
  datatype Contour = Contour(area: real, width: nat, height: nat)

  /** Only contours larger than this are considered furniture. */
  const MinFurnitureArea: real := 5000.0

  const TableLabel := "Table/Desk"
  const ChairLabel := "Chair/Square Furniture"
  const SofaLabel := "Sofa/Long Furniture"
  const FurnitureLabels: seq<string> := [TableLabel, ChairLabel, SofaLabel]

  /** Reported when no contour qualifies. */
  const DefaultElements: seq<string> := ["Walls", "Floor", "General Furniture"]

  /** Appended when the vision library fails part-way. */
  const ScanFailureElement := "Basic Room Structure"

  /** Width over height as an exact rational. */
  function AspectRatio(c: Contour): (r: real)
    requires c.height > 0
    ensures r >= 0.0 && r * c.height as real == c.width as real
  {
    c.width as real / c.height as real
  }

  /** The label one contour contributes, if any. A zero height makes the
      floating-point quotient infinite (positive width, a sofa) or NaN (zero
      width, which fails every comparison). */
  function ContourLabel(c: Contour): (r: Option<string>)
    ensures c.area <= MinFurnitureArea ==> r.None?
    ensures r.Some? ==> r.value in FurnitureLabels
    ensures c.height > 0 && AspectRatio(c) <= 0.7 ==> r.None?
    ensures c.height > 0 && 1.3 <= AspectRatio(c) <= 1.5 ==> r.None?
    ensures c.height > 0 && AspectRatio(c) == 3.0 ==> r.None?
  {
    if c.area <= MinFurnitureArea then None
    else if c.height == 0 then (if c.width == 0 then None else Some(SofaLabel))
    else
      var ratio := AspectRatio(c);
      if 1.5 < ratio < 3.0 then Some(TableLabel)
      else if 0.7 < ratio < 1.3 then Some(ChairLabel)
      else if ratio > 3.0 then Some(SofaLabel)
      else None
  }

  /** Exactly when a contour is labelled, and with which label. */
  lemma ContourLabelIff(c: Contour)
    ensures ContourLabel(c) == Some(TableLabel) <==>
      c.area > MinFurnitureArea && c.height > 0 && 1.5 < AspectRatio(c) < 3.0
    ensures ContourLabel(c) == Some(ChairLabel) <==>
      c.area > MinFurnitureArea && c.height > 0 && 0.7 < AspectRatio(c) < 1.3
    ensures ContourLabel(c) == Some(SofaLabel) <==>
      c.area > MinFurnitureArea && (if c.height == 0 then c.width > 0 else AspectRatio(c) > 3.0)
  {
  }

  function LabelOf(c: Contour): seq<string> {
    match ContourLabel(c)
    case Some(l) => [l]
    case None => []
  }

  predicate Unlabelled(cs: seq<Contour>) {
    forall i :: 0 <= i < |cs| ==> ContourLabel(cs[i]).None?
  }

  /** The labels of the qualifying contours, in contour order: at most one per
      contour, and none exactly when no contour qualifies. */
  function Labels(cs: seq<Contour>): (r: seq<string>)
    ensures |r| <= |cs|
    ensures forall e :: e in r ==> e in FurnitureLabels
    ensures r == [] <==> Unlabelled(cs)
    decreases |cs|
  {
    if |cs| == 0 then []
    else Labels(cs[..|cs| - 1]) + LabelOf(cs[|cs| - 1])
  }

  /** What the vision library did: it produced every contour, or it threw
      after the loop had handled the contours in `before` (none, if it failed
      before `findContours` returned). */
  datatype ContourScan = Scanned(contours: seq<Contour>) | ScanFailed(before: seq<Contour>)

  /** The element list of `detectRoomElements`. */
  function RoomElements(scan: ContourScan): (r: seq<string>)
    ensures |r| > 0
    ensures forall e :: e in r ==> e in FurnitureLabels || e in DefaultElements || e == ScanFailureElement
  {
    match scan
    case Scanned(cs) =>
      var labels := Labels(cs);
      if labels == [] then DefaultElements else labels
    case ScanFailed(before) =>
      Labels(before) + [ScanFailureElement]
  }

  /** The contour loop of `detectRoomElements`: one pass, keeping each
      contour's label in order. */
  method ScanLabels(cs: seq<Contour>) returns (labels: seq<string>)
    ensures labels == Labels(cs)
    ensures labels == [] <==> Unlabelled(cs)
  {
    labels := [];
    var i := 0;
    while i < |cs|
      invariant 0 <= i <= |cs|
      invariant labels == Labels(cs[..i])
    {
      assert cs[..i + 1][..i] == cs[..i];
      var found := ContourLabel(cs[i]);
      if found.Some? {
        labels := labels + [found.value];
      }
      i := i + 1;
    }
    assert cs[..i] == cs;
  }

  /** `detectRoomElements`: the contour loop, then the default list when
      nothing qualified, or the failure entry when the library threw. */
  method DetectRoomElements(scan: ContourScan) returns (elements: seq<string>)
    ensures elements == RoomElements(scan)
    ensures |elements| > 0
    ensures scan.Scanned? && Unlabelled(scan.contours) ==> elements == DefaultElements
    ensures scan.Scanned? && !Unlabelled(scan.contours) ==> |elements| <= |scan.contours|
    ensures scan.ScanFailed? ==> elements[|elements| - 1] == ScanFailureElement
  {
    match scan
    case Scanned(cs) =>
      elements := ScanLabels(cs);
      if elements == [] {
        elements := DefaultElements;
      }
    case ScanFailed(before) =>
      elements := ScanLabels(before);
      elements := elements + [ScanFailureElement];
  }

  // ---------------------------------------------------------------------
  // determineRoomType

  const GeneralRoom := "General Room"

  /** The six labels `determineRoomType` can return. */
  const RoomTypes: seq<string> := ["Kitchen", "Bedroom", "Bathroom", "Dining Room", "Living Room", GeneralRoom]

  /** `determineRoomType`: the first keyword group found in the lower-cased
      analysis text names the room; the detected elements are not consulted. */
  function DetermineRoomType(elements: seq<string>, aiAnalysis: string): (r: string)
    ensures r in RoomTypes
  {
    var text := Lower(aiAnalysis);
    if Contains(text, "kitchen") || Contains(text, "stove") || Contains(text, "refrigerator") then "Kitchen"
    else if Contains(text, "bedroom") || Contains(text, "bed") then "Bedroom"
    else if Contains(text, "bathroom") || Contains(text, "toilet") || Contains(text, "shower") then "Bathroom"
    else if Contains(text, "dining") || Contains(text, "dining table") then "Dining Room"
    else if Contains(text, "living") || Contains(text, "sofa") || Contains(text, "couch") then "Living Room"
    else GeneralRoom
  }

  /** A reference for the classifier: an ordered table of keyword rules. */
  datatype KeywordRule = KeywordRule(roomType: string, keywords: seq<string>)

  const RoomRules: seq<KeywordRule> := [
    KeywordRule("Kitchen", ["kitchen", "stove", "refrigerator"]),
    KeywordRule("Bedroom", ["bedroom", "bed"]),
    KeywordRule("Bathroom", ["bathroom", "toilet", "shower"]),
    KeywordRule("Dining Room", ["dining", "dining table"]),
    KeywordRule("Living Room", ["living", "sofa", "couch"])
  ]

  predicate ContainsAny(text: string, words: seq<string>)
    decreases |words|
  {
    |words| > 0 && (Contains(text, words[0]) || ContainsAny(text, words[1..]))
  }

  predicate Fires(rule: KeywordRule, text: string) {
    ContainsAny(text, rule.keywords)
  }

  /** The label of the first rule that fires, or the general label. */
  function FirstFiring(rules: seq<KeywordRule>, text: string): string
    decreases |rules|
  {
    if |rules| == 0 then GeneralRoom
    else if Fires(rules[0], text) then rules[0].roomType
    else FirstFiring(rules[1..], text)
  }

  /** Earlier rules win: the result is the label of rule `k` whenever rule `k`
      fires and no earlier rule does. */
  lemma {:induction false} FirstFiringPriority(rules: seq<KeywordRule>, text: string, k: nat)
    requires k < |rules| && Fires(rules[k], text)
    requires forall j :: 0 <= j < k ==> !Fires(rules[j], text)
    ensures FirstFiring(rules, text) == rules[k].roomType
    decreases k
  {
    if k > 0 {
      FirstFiringPriority(rules[1..], text, k - 1);
    }
  }

  /** With no rule firing, the result is the general label. */
  lemma {:induction false} FirstFiringNone(rules: seq<KeywordRule>, text: string)
    requires forall j :: 0 <= j < |rules| ==> !Fires(rules[j], text)
    ensures FirstFiring(rules, text) == GeneralRoom
    decreases |rules|
  {
    if |rules| > 0 {
      FirstFiringNone(rules[1..], text);
    }
  }

  /** The classifier is the rule table applied to the lower-cased text. */
  lemma RoomTypeFollowsRules(elements: seq<string>, aiAnalysis: string)
    ensures DetermineRoomType(elements, aiAnalysis) == FirstFiring(RoomRules, Lower(aiAnalysis))
  {
    var text := Lower(aiAnalysis);
    assert RoomRules[1..][1..][1..][1..][1..] == [];
  }

  /** The elements argument has no effect on the room type. */
  lemma RoomTypeIgnoresElements(e1: seq<string>, e2: seq<string>, aiAnalysis: string)
    ensures DetermineRoomType(e1, aiAnalysis) == DetermineRoomType(e2, aiAnalysis)
  {
  }

  /** Only the lower-cased analysis text matters. */
  lemma RoomTypeIgnoresCase(elements: seq<string>, a: string, b: string)
    requires Lower(a) == Lower(b)
    ensures DetermineRoomType(elements, a) == DetermineRoomType(elements, b)
  {
  }

  /** Kitchen words beat every later group. */
  lemma KitchenWins(elements: seq<string>, aiAnalysis: string)
    requires Contains(Lower(aiAnalysis), "refrigerator")
    ensures DetermineRoomType(elements, aiAnalysis) == "Kitchen"
  {
  }

  /** Any text with "bed" (every "bedroom" included) and no kitchen word is a
      bedroom, whatever else it mentions. */
  lemma BedMeansBedroom(elements: seq<string>, aiAnalysis: string)
    requires var text := Lower(aiAnalysis);
      !Contains(text, "kitchen") && !Contains(text, "stove") && !Contains(text, "refrigerator")
    requires Contains(Lower(aiAnalysis), "bed") || Contains(Lower(aiAnalysis), "bedroom")
    ensures DetermineRoomType(elements, aiAnalysis) == "Bedroom"
  {
  }

  /** The "bedroom" and "dining table" keywords never decide anything: each
      contains the shorter keyword of its own group. */
  lemma RedundantKeywords(text: string)
    ensures Contains(text, "bedroom") ==> Contains(text, "bed")
    ensures Contains(text, "dining table") ==> Contains(text, "dining")
  {
    if Contains(text, "bedroom") {
      ContainsPrefixOf(text, "bedroom", "bed");
    }
    if Contains(text, "dining table") {
      ContainsPrefixOf(text, "dining table", "dining");
    }
  }

  // ---------------------------------------------------------------------
  // analyzeRoom

  /** What `analyzeWithOpenAI` falls back to when the call fails. */
  const UnavailableAnalysis := "AI analysis unavailable. Basic room detected with standard furniture layout."

  /** The record `analyzeRoom` returns when anything throws. */
  const FailedAnalysis := RoomAnalysis(["Unable to analyze"], "Analysis failed", "Unknown", "Natural", "Neutral")

  /** The outcome of the foreign calls `analyzeRoom` makes: it failed outright,
      or it observed a contour scan, a language-model reply (`None` when that
      call failed) and the lighting and colour classes of the image. */
  datatype VisionOutcome =
    | VisionFailed
    | Observed(scan: ContourScan, aiReply: Option<string>, lighting: Lighting, colorScheme: ColorScheme)

  /** `analyzeRoom`. Its room type is one of the six labels exactly when the
      analysis did not fail; the failure record says "Unknown". */
  function AnalyzeRoom(outcome: VisionOutcome): (r: RoomAnalysis)
    ensures outcome.VisionFailed? ==> r == FailedAnalysis
    ensures r.roomType in RoomTypes <==> outcome.Observed?
    ensures |r.detectedElements| > 0
    ensures outcome.Observed? ==> r.roomType == DetermineRoomType(r.detectedElements, r.aiDescription)
    ensures outcome.Observed? && outcome.aiReply.None? ==> r.aiDescription == UnavailableAnalysis
    ensures outcome.Observed? && outcome.aiReply.Some? ==> r.aiDescription == outcome.aiReply.value
    ensures outcome.Observed? ==>
      && r.detectedElements == RoomElements(outcome.scan)
      && r.lighting == LightingLabel(outcome.lighting)
      && r.colorScheme == ColorSchemeLabel(outcome.colorScheme)
  {
    match outcome
    case VisionFailed => FailedAnalysis
    case Observed(scan, reply, lighting, scheme) =>
      var elements := RoomElements(scan);
      var analysis := reply.GetOr(UnavailableAnalysis);
      RoomAnalysis(elements, analysis, DetermineRoomType(elements, analysis),
                   LightingLabel(lighting), ColorSchemeLabel(scheme))
  }
}
