# RoomDecorator core, modelled in Dafny

RoomDecorator is a Spring service. It takes a photo of a room and a design
style and returns up to three AI-generated "redecorated" variants of the room,
or three placeholder options when no variant could be generated. Most
of it is glue around OpenAI, Stability AI and OpenCV. This project models the
deterministic layer around those calls and proves its properties:

- `Styles` (`DesignStyle.java`): the seven-style enum with display names,
  descriptions and constant names, and the case-insensitive, total
  `fromString` lookup that falls back to `MODERN`.
- `ImageAnalysis` (`ImageAnalysisService.java`):
  - the per-contour aspect-ratio bucketing and the default and failure rules of `detectRoomElements`;
  - the prioritised keyword classifier `determineRoomType`;
  - how `analyzeRoom` builds its record, or the fixed record it returns when analysis fails.
- `Decoration` (`AIDecorationService.java`):
  - the image prompt, the description, and the added and modified element lists;
  - the three fallback options and the regenerated option;
  - the rule that gathers the three variants. The variants run one after another: keep the non-null results in variation order, and use the fallback list when none survive.
- `Controller` (`RoomDecoratorController.java`):
  - the MIME whitelist;
  - the order of the empty-file, type and read checks of the multipart endpoint;
  - the JSON endpoint, which has no such checks;
  - the success message and the published style list.
- `Dto`: the records of the `model` package, as plain datatypes.
- `Text`: the `java.lang.String` behaviour the core relies on.
  - `equalsIgnoreCase`, `contains`, `String.join` and decimal rendering of an `int` each come with an independent characterisation.
  - `toLowerCase` is given only by its per-character definition.

The project models Java nulls as `Option.None` and thrown exceptions as
`Result.Failure` or as an explicit outcome input. Everything external comes in
as a value:

- The vision library becomes a `ContourScan`: the (area, width, height) of each contour, or the contours handled before it threw.
- The language-model reply is an `Option<string>`.
- The image endpoint is a function from prompt to `Option<string>`.
- The Base64 decoder is a function from the image text to a `Result`. A null image field makes the decoder throw; the model takes that exception's message as an input.
- Each generation task's end is a `TaskOutcome`.

Aspect ratios are exact rationals (`real`) compared with 0.7, 1.3, 1.5 and 3.0.
The source divides two `int`s as doubles. For 32-bit widths and heights, a
quotient that differs from one of these thresholds differs by far more than
the rounding error. A quotient equal to 7/10 or 13/10 rounds to the same
double as the literal. So each comparison gives the same answer as in the
source. A zero height is modelled as the source's floating point behaves:
positive width over zero is +infinity, which gets the sofa label, and zero
over zero is NaN, which gets no label.

## Model

| member | source | states |
|---|---|---|
| Text.EqualsIgnoreCaseIff | src/main/java/com/room/decorator/model/DesignStyle.java:25 | `equalsIgnoreCase` (per-character upper/lower comparison, null never equal) holds exactly when the lower-cased strings are equal |
| Text.ContainsIff | src/main/java/com/room/decorator/service/ImageAnalysisService.java:168-177 | the recursive `contains` holds exactly when the keyword occurs at some index of the text |
| Text.Join | src/main/java/com/room/decorator/service/AIDecorationService.java:150 | joining no elements gives the empty string; otherwise the length is the elements' total length plus one separator per neighbouring pair |
| Text.JoinAppend | src/main/java/com/room/decorator/service/AIDecorationService.java:150 | appending an element to a non-empty list appends a separator and that element to the joined text |
| Text.NatToDecimal | src/main/java/com/room/decorator/controller/RoomDecoratorController.java:79 | the decimal text of a count is non-empty, all digits, starts with '0' only for zero, and denotes the count |
| Styles.DisplayName | src/main/java/com/room/decorator/model/DesignStyle.java:4-10 | every display name is one capitalised ASCII word: an upper-case first letter, then lower-case letters |
| Styles.Description | src/main/java/com/room/decorator/model/DesignStyle.java:4-10 | the seven descriptions, verbatim (a lookup table with no contract of its own) |
| Styles.ConstantName | src/main/java/com/room/decorator/model/DesignStyle.java:4-10 | every constant name is non-empty and all upper-case ASCII letters |
| Styles.NamesFold | src/main/java/com/room/decorator/model/DesignStyle.java:4-10 | each style's display name and constant name are equal ignoring case |
| Styles.FoldedNamesDistinct | src/main/java/com/room/decorator/model/DesignStyle.java:4-10 | no two styles share a name ignoring case |
| Styles.MatchesIff | src/main/java/com/room/decorator/model/DesignStyle.java:25 | a style matches an input exactly when the lower-cased input is the style's lower-case name |
| Styles.MatchIsUnique | src/main/java/com/room/decorator/model/DesignStyle.java:24-27 | at most one style matches any input, so the first match in declaration order is the only match |
| Styles.FirstMatch | src/main/java/com/room/decorator/model/DesignStyle.java:24-28 | the loop returns a style from the list that matches, and returns nothing only when no style in the list matches |
| Styles.FromString | src/main/java/com/room/decorator/model/DesignStyle.java:23-30 | total; the result matches the input or is `MODERN` with no style matching; every matching style equals the result, so a result other than the default always matches |
| Styles.FromStringIff | src/main/java/com/room/decorator/model/DesignStyle.java:23-30 | `fromString(x) == s` exactly when `s` matches `x`, or `s` is `MODERN` and nothing matches |
| Styles.FromStringNull | src/main/java/com/room/decorator/model/DesignStyle.java:23-30 | a null input yields `MODERN` |
| Styles.FromStringDisplayName | src/main/java/com/room/decorator/model/DesignStyle.java:15-30 | round trip: the display name of every style parses back to that style |
| Styles.FromStringConstantName | src/main/java/com/room/decorator/model/DesignStyle.java:23-30 | round trip: the constant name of every style parses back to that style |
| Styles.FromStringIgnoresCase | src/main/java/com/room/decorator/model/DesignStyle.java:25 | inputs that differ only in ASCII case give the same style |
| ImageAnalysis.ContourLabel | src/main/java/com/room/decorator/service/ImageAnalysisService.java:86-96 | a contour of area at most 5000 gets no label; with positive height, ratios up to 0.7, ratios in [1.3, 1.5] and a ratio of exactly 3.0 get no label; any label is one of the three furniture labels |
| ImageAnalysis.AspectRatio | src/main/java/com/room/decorator/service/ImageAnalysisService.java:87 | the ratio is non-negative and times the height gives back the width, so it is the exact quotient |
| ImageAnalysis.ContourLabelIff | src/main/java/com/room/decorator/service/ImageAnalysisService.java:86-96 | exact conditions for each of the three labels, including zero height (infinite ratio with positive width) |
| ImageAnalysis.Labels | src/main/java/com/room/decorator/service/ImageAnalysisService.java:81-97 | at most one label per contour, only furniture labels, and none exactly when no contour qualifies |
| ImageAnalysis.ScanLabels | src/main/java/com/room/decorator/service/ImageAnalysisService.java:81-97 | the contour loop appends each qualifying contour's label in order and yields none exactly when no contour qualifies |
| ImageAnalysis.RoomElements | src/main/java/com/room/decorator/service/ImageAnalysisService.java:63-110 | the element list is never empty and holds only furniture labels, default entries or the failure entry |
| ImageAnalysis.DetectRoomElements | src/main/java/com/room/decorator/service/ImageAnalysisService.java:63-110 | the loop computes the element list; without a qualifying contour it is exactly Walls, Floor, General Furniture; otherwise no longer than the contour list; a failure ends it with "Basic Room Structure" |
| ImageAnalysis.DetermineRoomType | src/main/java/com/room/decorator/service/ImageAnalysisService.java:165-181 | the result is one of exactly six labels |
| ImageAnalysis.FirstFiringPriority | src/main/java/com/room/decorator/service/ImageAnalysisService.java:168-180 | in an ordered keyword table, the first rule that fires decides the label |
| ImageAnalysis.FirstFiringNone | src/main/java/com/room/decorator/service/ImageAnalysisService.java:178-180 | with no rule firing the label is "General Room" |
| ImageAnalysis.RoomTypeFollowsRules | src/main/java/com/room/decorator/service/ImageAnalysisService.java:165-181 | the classifier equals the keyword table applied to the lower-cased text |
| ImageAnalysis.RoomTypeIgnoresElements | src/main/java/com/room/decorator/service/ImageAnalysisService.java:165-166 | the elements argument has no effect |
| ImageAnalysis.RoomTypeIgnoresCase | src/main/java/com/room/decorator/service/ImageAnalysisService.java:166 | texts with the same lower-case form classify alike |
| ImageAnalysis.KitchenWins | src/main/java/com/room/decorator/service/ImageAnalysisService.java:168-169 | any text mentioning "refrigerator" is a kitchen, whatever else it mentions |
| ImageAnalysis.BedMeansBedroom | src/main/java/com/room/decorator/service/ImageAnalysisService.java:168-171 | without kitchen words, any text containing "bed" or "bedroom" is a bedroom |
| ImageAnalysis.RedundantKeywords | src/main/java/com/room/decorator/service/ImageAnalysisService.java:170-174 | containing "bedroom" implies containing "bed", and "dining table" implies "dining", so those disjuncts never decide |
| ImageAnalysis.AnalyzeRoom | src/main/java/com/room/decorator/service/ImageAnalysisService.java:40-61 | failure yields the fixed record with "Unknown"; otherwise the record holds the detected elements of the scan, the reply (or the unavailable text), the room type classified from them, and the lighting and colour-scheme labels; the room type is one of the six labels exactly when analysis did not fail |
| Decoration.PromptContext | src/main/java/com/room/decorator/service/AIDecorationService.java:144-165 | the request-independent part of the prompt starts with "Interior design makeover of a " |
| Decoration.VariationDirective | src/main/java/com/room/decorator/service/AIDecorationService.java:155-165 | variations 1, 2 and 3 add a sentence ending ". ", and every other number adds nothing |
| Decoration.AssemblePrompt | src/main/java/com/room/decorator/service/AIDecorationService.java:166-178 | the colour and furniture sentences and the closing phrase come after the request-independent part, and the prompt ends with the closing phrase |
| Decoration.CreateDecorationPrompt | src/main/java/com/room/decorator/service/AIDecorationService.java:138-179 | every prompt starts with "Interior design makeover of a " and ends with "High quality, realistic, well-lit interior photograph." |
| Decoration.ColorClauseExactlyWhenPreferred | src/main/java/com/room/decorator/service/AIDecorationService.java:168-170 | "Incorporate <pref> colors. " is inserted exactly when the preference is non-null and non-empty; otherwise the prompt is unchanged |
| Decoration.FurnitureClauseExactlyWhenPreserved | src/main/java/com/room/decorator/service/AIDecorationService.java:172-176 | "Preserve and enhance existing furniture. " is inserted just before the closing sentence exactly when the flag is set |
| Decoration.ColorInsertion | src/main/java/com/room/decorator/service/AIDecorationService.java:168-170 | after any request-independent part, the colour sentence is inserted exactly when a non-empty preference is given |
| Decoration.FurnitureInsertion | src/main/java/com/room/decorator/service/AIDecorationService.java:172-176 | after any request-independent part, the furniture sentence goes just before the closing phrase exactly when the flag is set |
| Decoration.PromptIgnoresOtherInputs | src/main/java/com/room/decorator/service/AIDecorationService.java:138-179 | the prompt reads no request field besides colour and furniture, and all variations outside 1 to 3 give the same prompt |
| Decoration.GenerateDescription | src/main/java/com/room/decorator/service/AIDecorationService.java:218-242 | the description opens with the style and lower-cased room; outside variations 1 to 3 it is only that opening |
| Decoration.VariationNarrative | src/main/java/com/room/decorator/service/AIDecorationService.java:223-239 | the narrative is empty exactly for variation numbers other than 1, 2 and 3 |
| Decoration.DescriptionEndsWithClosing | src/main/java/com/room/decorator/service/AIDecorationService.java:223-239 | a variation's description ends with the lower-cased display name followed by that variation's closing words |
| Decoration.DescriptionEnding | src/main/java/com/room/decorator/service/AIDecorationService.java:223-239 | variation 1 ends with the lower-cased display name and " aesthetics.", variation 2 with it and " fashion.", variation 3 with it and " design principles." |
| Decoration.DescriptionsDiffer | src/main/java/com/room/decorator/service/AIDecorationService.java:223-239 | for one style and room, the descriptions of variations 1, 2 and 3 are pairwise different |
| Decoration.StyleAccents | src/main/java/com/room/decorator/service/AIDecorationService.java:247-265 | four style accents for every style |
| Decoration.VariationAccents | src/main/java/com/room/decorator/service/AIDecorationService.java:268-277 | two variation accents for every variation number |
| Decoration.GenerateAddedElements | src/main/java/com/room/decorator/service/AIDecorationService.java:244-280 | exactly six entries: the style's four, then Wall art/Decorative plants for 1, Area rug/Accent furniture for 2, Statement pieces/Architectural elements otherwise |
| Decoration.AddedElementsEqualIff | src/main/java/com/room/decorator/service/AIDecorationService.java:244-280 | two added lists are equal exactly when the styles are equal or both fall to the default branch (Modern, Traditional) and the variations share their extras |
| Decoration.GenerateModifiedElements | src/main/java/com/room/decorator/service/AIDecorationService.java:282-299 | starts with Wall color, Lighting arrangement, Furniture positioning; length 3 for v at most 1, 7 for v = 3, 5 otherwise |
| Decoration.ModifiedElementsNested | src/main/java/com/room/decorator/service/AIDecorationService.java:286-296 | list 1 is a prefix of list 2, which is a prefix of list 3; v at most 1 repeats list 1 and v = 2 or v at least 4 repeats list 2 |
| Decoration.FallbackOption | src/main/java/com/room/decorator/service/AIDecorationService.java:313-323 | a fallback option has a fresh id, the style's display name, the placeholder image, the fixed lists and the numbered opening |
| Decoration.FallbackOptions | src/main/java/com/room/decorator/service/AIDecorationService.java:312-324 | exactly three options of the given style, with the placeholder image and fixed lists, option i opening "Fallback design option i in " |
| Decoration.GenerateFallbackOptions | src/main/java/com/room/decorator/service/AIDecorationService.java:307-328 | exactly three options, each in the requested style with the placeholder image and fixed lists, option i described as "Fallback design option i in " |
| Decoration.FallbackDescriptionsDiffer | src/main/java/com/room/decorator/service/AIDecorationService.java:313-319 | the three fallback descriptions are pairwise different |
| Decoration.RegenerateOption | src/main/java/com/room/decorator/service/AIDecorationService.java:374-388 | keeps the given id, uses the variation-2 added elements (ending Area rug, Accent furniture), the placeholder and the fixed modified list |
| Decoration.GenerateSingleOption | src/main/java/com/room/decorator/service/AIDecorationService.java:102-136 | a variant has a fresh id, the requested style, that variation's description, added and modified lists, and the image service's reply to that variation's prompt, or the placeholder when the call fails |
| Decoration.Present | src/main/java/com/room/decorator/service/AIDecorationService.java:82-92 | the kept results are no more than the submitted ones, none exactly when all are null, and exactly the non-null values |
| Decoration.CollectResults | src/main/java/com/room/decorator/service/AIDecorationService.java:82-92 | the collecting loop keeps the non-null results in submission order |
| Decoration.PresentTaskResults | src/main/java/com/room/decorator/service/AIDecorationService.java:72-92 | the kept results are the completed variations' options, in variation order |
| Decoration.Gather | src/main/java/com/room/decorator/service/AIDecorationService.java:82-94 | with no completed task the result is the fallback list; otherwise it holds exactly the completed variations' options, in variation order |
| Decoration.GenerateDecorationOptions | src/main/java/com/room/decorator/service/AIDecorationService.java:63-100 | never empty and at most three; all in the requested style; the completed variations in order, or the fallback list when none completed |
| Controller.IsValidImageType | src/main/java/com/room/decorator/controller/RoomDecoratorController.java:147-154 | accepts exactly image/jpeg, image/jpg, image/png, image/webp; null is rejected |
| Controller.ImageTypeExamples | src/main/java/com/room/decorator/controller/RoomDecoratorController.java:147-154 | matching is case-sensitive and exact: upper case, other types, trailing blanks and null are rejected |
| Controller.SuccessMessageInjective | src/main/java/com/room/decorator/controller/RoomDecoratorController.java:75-80 | the success message determines the option count |
| Controller.SuccessMessage | src/main/java/com/room/decorator/controller/RoomDecoratorController.java:79 | the message is "Successfully generated ", a run of decimal digits denoting the count, then " decoration options" |
| Controller.Decorate | src/main/java/com/room/decorator/controller/RoomDecoratorController.java:64-80 | analysis then generation: a successful response carrying the generated options for the room's analysis, one to three of them, their count in the message, and the analysis text |
| Controller.DecorateRoom | src/main/java/com/room/decorator/controller/RoomDecoratorController.java:35-90 | an empty file gets "No image provided" whatever its type; then an invalid type gets the format message; success exactly when non-empty, valid and readable. On success the options are those generated for the request built from the parameters and the room's analysis, one to three of them, with the message "Successfully generated n decoration options" |
| Controller.DecorateRoomJson | src/main/java/com/room/decorator/controller/RoomDecoratorController.java:92-132 | a null image or a decoding failure fails with "Error processing request: " and the exception's message; otherwise success, with the options generated for the request copied from the body and the analysis, one to three of them, the success message and the analysis text |
| Controller.EmptyImageOnlyRejectedByMultipart | src/main/java/com/room/decorator/controller/RoomDecoratorController.java:44-115 | an empty image is refused by the multipart endpoint, but the empty Base64 text succeeds through the JSON endpoint, which checks neither emptiness nor type |
| Controller.GetAvailableStyles | src/main/java/com/room/decorator/controller/RoomDecoratorController.java:134-140 | the seven display names, in the declaration order of the enum |
| Controller.AvailableStylesRoundTrip | src/main/java/com/room/decorator/controller/RoomDecoratorController.java:136-138 | every published style name parses back to the style at the same position |

## Left out

- Styles.FromString: matches ignoring ASCII case only. Java's `equalsIgnoreCase` also folds non-ASCII letters; for example U+017F (long s) upper-cases to 'S', so Java accepts inputs the model rejects.
- ImageAnalysis.DetermineRoomType: lower-cases ASCII letters only, independently of locale. Java's `toLowerCase()` uses full Unicode and the default locale; under a Turkish locale "KITCHEN" lowers to a dotless i and is not found.
- Decoration.CreateDecorationPrompt: the room type, lighting and colour scheme are lower-cased with the ASCII-only mapping; the display name and description go in unchanged. Decoration.GenerateDescription lower-cases the display name and the room type, and Decoration.FallbackOptions the description. Within the model every such string is a fixed ASCII label: a room type from the six labels or "Unknown", a lighting or colour-scheme label, a display name or a description. So the mapping agrees with Java on every string the model passes to these functions.
- The HTTP calls are not modelled: `analyzeWithOpenAI`, `generateDecoratedImage` and the unused `generateWithStableDiffusion`, with their request building and JSON parsing. They are network I/O. Their outcomes are inputs: the reply text (or none) and the image-service function.
- The OpenCV primitives (`imdecode`, `cvtColor`, `Canny`, `findContours`, `boundingRect`, `contourArea`, `Core.mean`) are foreign calls; contours are given as (area, width, height).
- `analyzeLighting` and `analyzeColorScheme` threshold double channel means from OpenCV; their three-way results are inputs (`Lighting`, `ColorScheme`).
- Confidence scores use `Math.random` and double arithmetic; `DecoratedRoomOption` has no score field.
- UUIDs are random; a generated id is the marker `FreshUuid`, and distinct draws are not modelled.
- Base64 encoding and decoding are library calls. Decoding is a function parameter of the JSON endpoint. The message of the exception a null image field raises depends on the JVM, so it is a parameter too.
- The thread pool and `CompletableFuture` fan-out are not modelled; the three tasks run in sequence. The outer catch of `generateDecorationOptions` fires when a task cannot be submitted. It returns the same fallback list as three crashed tasks, so the model has no separate input for it.
- Spring wiring, annotations, HTTP status codes and logging are not modelled. Neither is the `healthCheck` endpoint, which returns a constant string.
- The DTO getters and setters are not modelled. Jackson's binding of the JSON body is not modelled either, so the field default `preserveExistingFurniture = true` does not appear.
- `generateAddedElements` and `generateModifiedElements` take a room analysis that they never read; the model drops that parameter.
- `regenerateOption` catches an exception that only a null request could raise; the model has no null request.
- Exception messages are given as strings; a null `getMessage()`, which Java prints as "null", is the caller's string.
- The multipart `designStyle` parameter is required, so Spring refuses a missing one before the handler runs; the model takes it as a non-null string.
