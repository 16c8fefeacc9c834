/** The records of the `model` package. They carry data only; Java's nullable
    strings are `Option<string>`. */
module Dto {
  import opened Wrappers
  import ImageAnalysis

  newtype Byte = b: int | 0 <= b < 256

  /** An option's identifier: a random UUID drawn for it (not modelled beyond
      being fresh), or one the caller supplied. */
  datatype OptionId = FreshUuid | Given(id: string)

  /** `DecoratedRoomOption`, without its confidence score. */
  datatype DecoratedRoomOption = DecoratedRoomOption(
    id: OptionId,
    designStyle: string,
    imageBase64: string,
    description: string,
    addedElements: seq<string>,
    modifiedElements: seq<string>)

  /** `DecorationRequest`. */
  datatype DecorationRequest = DecorationRequest(
    designStyle: Option<string>,
    roomType: Option<string>,
    colorPreference: Option<string>,
    budgetRange: Option<string>,
    preserveExistingFurniture: bool)

  /** `DecorationRequestWithImage` (both copies have the same fields). */
  datatype DecorationRequestWithImage = DecorationRequestWithImage(
    imageBase64: Option<string>,
    designStyle: Option<string>,
    roomType: Option<string>,
    colorPreference: Option<string>,
    budgetRange: Option<string>,
    preserveExistingFurniture: bool)

  /** `DecorationResponse`; `None` options stand for a null list. */
  datatype DecorationResponse = DecorationResponse(
    options: Option<seq<DecoratedRoomOption>>,
    originalImageAnalysis: string,
    success: bool,
    message: string)

  /** `RoomAnalysisResponse`. */
  datatype RoomAnalysisResponse = RoomAnalysisResponse(
    analysis: ImageAnalysis.RoomAnalysis,
    success: bool,
    message: string)

  /** `DesignStyleInfo`. */
  datatype DesignStyleInfo = DesignStyleInfo(name: string, description: string)
}
