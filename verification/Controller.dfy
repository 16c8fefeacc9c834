/** `RoomDecoratorController`: request validation and response shaping of the
    two decoration endpoints, the MIME whitelist and the published style
    list. The services run as modelled in `ImageAnalysis` and `Decoration`;
    what the external services do is described by a `Backend` value. */
module Controller {
  import opened Wrappers
  import opened Text
  import opened Styles
  import opened Dto
  import opened ImageAnalysis
  import opened Decoration

  /** The content types `isValidImageType` accepts, compared case-sensitively. */
  const AcceptedImageTypes: seq<string> := ["image/jpeg", "image/jpg", "image/png", "image/webp"]

  const NoImageMessage := "No image provided"
  const InvalidFormatMessage := "Invalid image format. Please use JPG, PNG, or WEBP"

  /** An uploaded multipart file: its bytes, its declared content type (null
      when absent), and the message of the exception `getBytes` throws, if
      reading it fails. */
  datatype Upload = Upload(content: seq<Byte>, contentType: Option<string>, readFailure: Option<string>)

  /** The behaviour of everything outside the controller for one request:
      what image analysis observes, how the image endpoint answers a prompt,
      and how each of the three generation tasks ends. */
  datatype Backend = Backend(
    vision: VisionOutcome,
    imageService: string -> Option<string>,
    tasks: TaskOutcomes)

  /** `isValidImageType`: exactly the four whitelisted types; null is rejected. */
  function IsValidImageType(contentType: Option<string>): (ok: bool)
    ensures ok <==> contentType.Some? && contentType.value in AcceptedImageTypes
  {
    contentType.Some? && (
      contentType.value == "image/jpeg" ||
      contentType.value == "image/jpg" ||
      contentType.value == "image/png" ||
      contentType.value == "image/webp")
  }

  /** Matching is case-sensitive and exact. */
  lemma ImageTypeExamples()
    ensures !IsValidImageType(Some("IMAGE/JPEG")) && !IsValidImageType(Some("image/gif"))
    ensures !IsValidImageType(Some("image/jpeg ")) && !IsValidImageType(None)
    ensures IsValidImageType(Some("image/webp"))
  {
  }

  const SuccessPrefix := "Successfully generated "
  const SuccessSuffix := " decoration options"

  /** The message of a successful response, with the option count in decimal. */
  function SuccessMessage(n: nat): (r: string)
    ensures SuccessPrefix <= r && EndsWith(r, SuccessSuffix)
    ensures |SuccessPrefix| + |SuccessSuffix| < |r|
    ensures var digits := r[|SuccessPrefix|..|r| - |SuccessSuffix|];
      AllDigits(digits) && DecimalValue(digits) == n
  {
    var r := SuccessPrefix + NatToDecimal(n) + SuccessSuffix;
    assert r[|SuccessPrefix|..|r| - |SuccessSuffix|] == NatToDecimal(n);
    r
  }

  /** The success message determines the option count. */
  lemma SuccessMessageInjective(m: nat, n: nat)
    requires SuccessMessage(m) == SuccessMessage(n)
    ensures m == n
  {
    var sm, sn := SuccessMessage(m), SuccessMessage(n);
    var dm, dn := NatToDecimal(m), NatToDecimal(n);
    assert sm[|SuccessPrefix|..|sm| - |SuccessSuffix|] == dm;
    assert sn[|SuccessPrefix|..|sn| - |SuccessSuffix|] == dn;
    NatToDecimalInjective(m, n);
  }

  function Failed(message: string): DecorationResponse {
    DecorationResponse(None, "", false, message)
  }

  /** The successful response for an analysis and its options. */
  function Succeeded(analysis: RoomAnalysis, options: seq<DecoratedRoomOption>): DecorationResponse {
    DecorationResponse(Some(options), analysis.aiDescription, true, SuccessMessage(|options|))
  }

  /** Analysis then generation, as both endpoints run them. */
  function Decorate(request: DecorationRequest, backend: Backend): (r: DecorationResponse)
    ensures r.success && r.options == Some(GenerateDecorationOptions(request, AnalyzeRoom(backend.vision),
                                                                    backend.imageService, backend.tasks))
    ensures 1 <= |r.options.value| <= 3 && r.message == SuccessMessage(|r.options.value|)
    ensures r.originalImageAnalysis == AnalyzeRoom(backend.vision).aiDescription
  {
    var analysis := AnalyzeRoom(backend.vision);
    var options := GenerateDecorationOptions(request, analysis, backend.imageService, backend.tasks);
    Succeeded(analysis, options)
  }

  /** `decorateRoom` (the multipart endpoint). An empty file is rejected
      before its content type is looked at; then an unlisted type is rejected;
      a file that cannot be read gives the internal-error message; otherwise
      the response succeeds and reports how many options it carries. */
  function DecorateRoom(imageFile: Upload, designStyle: string, roomType: Option<string>,
                        colorPreference: Option<string>, budgetRange: Option<string>,
                        preserveExistingFurniture: bool, backend: Backend): (r: DecorationResponse)
    ensures |imageFile.content| == 0 ==> r == Failed(NoImageMessage)
    ensures |imageFile.content| > 0 && !IsValidImageType(imageFile.contentType) ==> r == Failed(InvalidFormatMessage)
    ensures r.success <==>
      |imageFile.content| > 0 && IsValidImageType(imageFile.contentType) && imageFile.readFailure.None?
    ensures !r.success ==> r.options.None? && r.originalImageAnalysis == ""
    ensures r.success ==>
      && r.options.Some?
      && 1 <= |r.options.value| <= 3
      && r.message == SuccessMessage(|r.options.value|)
      && r.originalImageAnalysis == AnalyzeRoom(backend.vision).aiDescription
    ensures r.success ==>
      r.options.value == GenerateDecorationOptions(
        DecorationRequest(Some(designStyle), roomType, colorPreference, budgetRange, preserveExistingFurniture),
        AnalyzeRoom(backend.vision), backend.imageService, backend.tasks)
  {
    if |imageFile.content| == 0 then Failed(NoImageMessage)
    else if !IsValidImageType(imageFile.contentType) then Failed(InvalidFormatMessage)
    else match imageFile.readFailure
      case Some(message) => Failed("Internal server error: " + message)
      case None =>
        var request := DecorationRequest(Some(designStyle), roomType, colorPreference, budgetRange, preserveExistingFurniture);
        Decorate(request, backend)
  }

  /** The `DecorationRequest` the JSON endpoint builds from its body. */
  function JsonDecorationRequest(request: DecorationRequestWithImage): DecorationRequest {
    DecorationRequest(request.designStyle, request.roomType, request.colorPreference,
                      request.budgetRange, request.preserveExistingFurniture)
  }

  /** `decorateRoomJson`. `decode` is the Base64 decoder applied to a present
      image field; a null field makes the decoder throw, with `nullMessage` as
      the exception's message. Decoding is the only step that can fail:
      there is no emptiness or content-type check, so any decodable image,
      even an empty one, gets a successful response. */
  function DecorateRoomJson(request: DecorationRequestWithImage, decode: string -> Result<seq<Byte>>,
                            nullMessage: string, backend: Backend): (r: DecorationResponse)
    ensures request.imageBase64.None? ==> r == Failed("Error processing request: " + nullMessage)
    ensures request.imageBase64.Some? && decode(request.imageBase64.value).Failure? ==>
      r == Failed("Error processing request: " + decode(request.imageBase64.value).message)
    ensures r.success <==> request.imageBase64.Some? && decode(request.imageBase64.value).Success?
    ensures r.success ==>
      && r.options.Some?
      && 1 <= |r.options.value| <= 3
      && r.message == SuccessMessage(|r.options.value|)
      && r.originalImageAnalysis == AnalyzeRoom(backend.vision).aiDescription
      && r.options.value == GenerateDecorationOptions(
           DecorationRequest(request.designStyle, request.roomType, request.colorPreference,
                             request.budgetRange, request.preserveExistingFurniture),
           AnalyzeRoom(backend.vision), backend.imageService, backend.tasks)
  {
    match request.imageBase64
    case None => Failed("Error processing request: " + nullMessage)
    case Some(image) =>
      match decode(image)
      case Failure(message) => Failed("Error processing request: " + message)
      case Success(_) => Decorate(JsonDecorationRequest(request), backend)
  }

  /** The same empty image is refused by the multipart endpoint and accepted by
      the JSON endpoint, given as the empty Base64 text, which decodes to no
      bytes. */
  lemma EmptyImageOnlyRejectedByMultipart(contentType: Option<string>, designStyle: string,
                                          request: DecorationRequestWithImage,
                                          decode: string -> Result<seq<Byte>>, nullMessage: string, backend: Backend)
    requires request.imageBase64 == Some("") && decode("") == Success([])
    ensures DecorateRoom(Upload([], contentType, None), designStyle, None, None, None, true, backend).message == NoImageMessage
    ensures DecorateRoomJson(request, decode, nullMessage, backend).success
  {
  }

  /** `getAvailableStyles`: the display names in declaration order. */
  function GetAvailableStyles(): (r: seq<string>)
    ensures |r| == |AllStyles|
    ensures forall i :: 0 <= i < |r| ==> r[i] == DisplayName(AllStyles[i])
  {
    ["Finnish", "Swedish", "Arabic", "Russian", "American", "Modern", "Traditional"]
  }

  /** Every published style name is understood by `fromString` as the style
      it names. */
  lemma AvailableStylesRoundTrip(i: nat)
    requires i < |GetAvailableStyles()|
    ensures FromString(Some(GetAvailableStyles()[i])) == AllStyles[i]
  {
    FromStringDisplayName(AllStyles[i]);
  }
}
