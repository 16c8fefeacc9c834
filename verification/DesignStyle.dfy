/** The `DesignStyle` enum: seven constants, each with a display name and a
    description, and the case-insensitive lookup `fromString`. */
module Styles {
  import opened Wrappers
  import opened Text

  datatype DesignStyle = Finnish | Swedish | Arabic | Russian | American | Modern | Traditional

  /** `DesignStyle.values()`: every constant, in declaration order. */
  const AllStyles: seq<DesignStyle> := [Finnish, Swedish, Arabic, Russian, American, Modern, Traditional]

  /** The style `fromString` returns when nothing matches. */
  const DefaultStyle: DesignStyle := Modern

  /** `getDisplayName()`: one capitalised word. */
  function DisplayName(s: DesignStyle): (r: string)
    ensures |r| > 0 && 'A' <= r[0] <= 'Z'
    ensures forall i :: 1 <= i < |r| ==> 'a' <= r[i] <= 'z'
  {
    match s
    case Finnish => "Finnish"
    case Swedish => "Swedish"
    case Arabic => "Arabic"
    case Russian => "Russian"
    case American => "American"
    case Modern => "Modern"
    case Traditional => "Traditional"
  }

  /** `getDescription()`: the style's phrases, used verbatim in prompts. */
  function Description(s: DesignStyle): string {
    match s
    case Finnish => "Minimalist, natural wood, clean lines, functional design, light colors"
    case Swedish => "Scandinavian, hygge, neutral tones, cozy textiles, simple elegance"
    case Arabic => "Rich patterns, ornate details, warm colors, geometric designs, luxurious fabrics"
    case Russian => "Classical elegance, rich materials, imperial colors, ornate furniture"
    case American => "Contemporary comfort, mixed materials, bold colors, casual sophistication"
    case Modern => "Clean lines, neutral colors, minimal clutter, sleek furniture"
    case Traditional => "Classic furniture, warm colors, patterned fabrics, timeless appeal"
  }

  /** `Enum.name()`: the identifier of the constant. */
  function ConstantName(s: DesignStyle): (r: string)
    ensures |r| > 0 && forall i :: 0 <= i < |r| ==> 'A' <= r[i] <= 'Z'
  {
    match s
    case Finnish => "FINNISH"
    case Swedish => "SWEDISH"
    case Arabic => "ARABIC"
    case Russian => "RUSSIAN"
    case American => "AMERICAN"
    case Modern => "MODERN"
    case Traditional => "TRADITIONAL"
  }

  /** The lower-case spelling shared by both names of a style. */
  function FoldedName(s: DesignStyle): string {
    match s
    case Finnish => "finnish"
    case Swedish => "swedish"
    case Arabic => "arabic"
    case Russian => "russian"
    case American => "american"
    case Modern => "modern"
    case Traditional => "traditional"
  }

  /** The test `fromString` applies to each constant. */
  predicate Matches(s: DesignStyle, input: Option<string>) {
    EqualsIgnoreCase(DisplayName(s), input) || EqualsIgnoreCase(ConstantName(s), input)
  }

  predicate NoStyleMatches(input: Option<string>) {
    forall s: DesignStyle :: !Matches(s, input)
  }

  lemma AllStylesComplete(s: DesignStyle)
    ensures s in AllStyles
  {
  }

  /** A style's display name lower-cases to its folded name. */
  lemma DisplayNameFolds(s: DesignStyle)
    ensures Lower(DisplayName(s)) == FoldedName(s)
  {
    match s
    case Finnish =>
    case Swedish =>
    case Arabic =>
    case Russian =>
    case American =>
    case Modern =>
    case Traditional =>
  }

  /** A style's constant name lower-cases to its folded name. */
  lemma ConstantNameFolds(s: DesignStyle)
    ensures Lower(ConstantName(s)) == FoldedName(s)
  {
    match s
    case Finnish =>
    case Swedish =>
    case Arabic =>
    case Russian =>
    case American =>
    case Modern =>
    case Traditional =>
  }

  /** Both names of a style lower-case to its folded name. */
  lemma NamesFold(s: DesignStyle)
    ensures Lower(DisplayName(s)) == FoldedName(s)
    ensures Lower(ConstantName(s)) == FoldedName(s)
  {
    DisplayNameFolds(s);
    ConstantNameFolds(s);
  }

  /** No two styles share a folded name. */
  lemma FoldedNamesDistinct(s: DesignStyle, t: DesignStyle)
    ensures s != t ==> FoldedName(s) != FoldedName(t)
  {
  }

  /** A style matches exactly the inputs that lower-case to its folded name. */
  lemma MatchesIff(s: DesignStyle, x: string)
    ensures Matches(s, Some(x)) <==> Lower(x) == FoldedName(s)
  {
    EqualsIgnoreCaseIff(DisplayName(s), x);
    EqualsIgnoreCaseIff(ConstantName(s), x);
    NamesFold(s);
  }

  /** At most one style matches any input, so the declaration order in which
      `fromString` tries them never decides between two candidates. */
  lemma MatchIsUnique(input: Option<string>, s: DesignStyle, t: DesignStyle)
    requires Matches(s, input) && Matches(t, input)
    ensures s == t
  {
    MatchesIff(s, input.value);
    MatchesIff(t, input.value);
    FoldedNamesDistinct(s, t);
  }

  /** The loop of `fromString`: the first style of `styles` that matches. */
  function FirstMatch(styles: seq<DesignStyle>, input: Option<string>): (r: Option<DesignStyle>)
    ensures r.Some? ==> r.value in styles && Matches(r.value, input)
    ensures r.None? ==> forall s :: s in styles ==> !Matches(s, input)
    decreases |styles|
  {
    if |styles| == 0 then None
    else if Matches(styles[0], input) then Some(styles[0])
    else FirstMatch(styles[1..], input)
  }

  /** `DesignStyle.fromString`: total; the unique style whose display name or
      constant name equals the input ignoring case, and `Modern` when there is
      none (a null input included). */
  function FromString(input: Option<string>): (r: DesignStyle)
    ensures Matches(r, input) || (r == DefaultStyle && NoStyleMatches(input))
    ensures forall s :: Matches(s, input) ==> s == r
  {
    match FirstMatch(AllStyles, input)
    case Some(s) =>
      assert forall t :: Matches(t, input) ==> t == s by {
        forall t | Matches(t, input) ensures t == s {
          MatchIsUnique(input, s, t);
        }
      }
      s
    case None =>
      assert NoStyleMatches(input) by {
        forall t: DesignStyle ensures !Matches(t, input) {
          AllStylesComplete(t);
        }
      }
      DefaultStyle
  }

  /** The complete description of `fromString` as an if-and-only-if. */
  lemma FromStringIff(input: Option<string>, s: DesignStyle)
    ensures FromString(input) == s <==> Matches(s, input) || (s == DefaultStyle && NoStyleMatches(input))
  {
  }

  lemma FromStringNull()
    ensures FromString(None) == DefaultStyle
  {
  }

  /** Round trip through the display name. */
  lemma FromStringDisplayName(s: DesignStyle)
    ensures FromString(Some(DisplayName(s))) == s
  {
    assert Matches(s, Some(DisplayName(s)));
  }

  /** Round trip through the constant name. */
  lemma FromStringConstantName(s: DesignStyle)
    ensures FromString(Some(ConstantName(s))) == s
  {
    assert Matches(s, Some(ConstantName(s)));
  }

  /** Changing the case of the input does not change the style. */
  lemma FromStringIgnoresCase(x: string, y: string)
    requires Lower(x) == Lower(y)
    ensures FromString(Some(x)) == FromString(Some(y))
  {
    forall s: DesignStyle ensures Matches(s, Some(x)) <==> Matches(s, Some(y)) {
      MatchesIff(s, x);
      MatchesIff(s, y);
    }
  }
}
