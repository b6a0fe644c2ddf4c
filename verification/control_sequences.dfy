/**
 * The control-sequence builders of src/control_sequences.rs: one function per control sequence, mapping optional
 * numbers and enumerations to the decimal parameters of `CSI ... F`, with the defaults of the `sequence!` macro.
 */
module ControlSequences {
  import opened Wrappers
  import opened Characters
  import opened Strings
  import opened ControlFunctions
  import Modes

  /** Rust's `u32`. */
  type U32 = n: nat | n < 0x1_0000_0000

  /** `ascii!(xx/yy)`: a one-character identifier. */
  function Id(xx: int, yy: int): string
    requires 0 <= xx <= 7 && 0 <= yy <= 15
  {
    [Ascii(xx, yy)]
  }

  /** `ascii!(02/00, xx/yy)`: an identifier with the intermediate byte. */
  function IntermediateId(xx: int, yy: int): string
    requires 0 <= xx <= 7 && 0 <= yy <= 15
  {
    [INTERMEDIATE, Ascii(xx, yy)]
  }

  /**
   * `f` is the control sequence `value` whose parameters, read as decimal numbers, are `numbers`: each parameter
   * is written the way `u32::to_string` writes it.
   */
  predicate Encodes(f: ControlFunction, value: string, numbers: seq<nat>) {
    && f.functionType == ControlSequence
    && f.value == value
    && |f.parameters| == |numbers|
    && forall i :: 0 <= i < |numbers| ==> IsCanonicalDecimal(f.parameters[i]) && DecimalValue(f.parameters[i]) == numbers[i]
  }

  /** The body shared by every arm of `sequence!`: each number becomes one parameter, in order. */
  function Sequence(value: string, numbers: seq<nat>): (f: ControlFunction)
    ensures Encodes(f, value, numbers)
  {
    NewSequence(value, seq(|numbers|, i requires 0 <= i < |numbers| => Decimal(numbers[i])))
  }

  /** The numbers a list of enumerated parameters is written as: the discriminant of each item, in order. */
  function Discriminants<T>(items: seq<T>, discriminant: T -> nat): (values: seq<nat>)
    ensures |values| == |items|
    ensures forall i :: 0 <= i < |items| ==> values[i] == discriminant(items[i])
  {
    seq(|items|, i requires 0 <= i < |items| => discriminant(items[i]))
  }

  /** An identifier and a list of numbers determine the control sequence. */
  lemma EncodesDetermines(f: ControlFunction, g: ControlFunction, value: string, numbers: seq<nat>)
    requires Encodes(f, value, numbers) && Encodes(g, value, numbers)
    ensures f == g
  {
    forall i | 0 <= i < |numbers|
      ensures f.parameters[i] == g.parameters[i]
    {
      CanonicalDecimal(f.parameters[i]);
      CanonicalDecimal(g.parameters[i]);
    }
  }

  /** Two builder results agree exactly when their identifiers and numbers do. */
  lemma EncodesInjective(f: ControlFunction, g: ControlFunction, value: string, numbers: seq<nat>, value': string, numbers': seq<nat>)
    requires Encodes(f, value, numbers) && Encodes(g, value', numbers')
    ensures f == g <==> value == value' && numbers == numbers'
  {
    if value == value' && numbers == numbers' {
      EncodesDetermines(f, g, value, numbers);
    }
  }

  /** The identifier `xx/yy`, after the intermediate byte `02/00` when `intermediate` holds. */
  function Identifier(xx: int, yy: int, intermediate: bool): string
    requires 0 <= xx <= 7 && 0 <= yy <= 15
  {
    if intermediate then IntermediateId(xx, yy) else Id(xx, yy)
  }

  /** The identifiers the builders use, a final byte from column `04` to `07` alone or after `02/00`, make well-formed sequences. */
  lemma SequenceValid(xx: int, yy: int, numbers: seq<nat>)
    requires 4 <= xx <= 7 && 0 <= yy <= 15
    ensures Valid(Sequence(Id(xx, yy), numbers)) && Valid(Sequence(IntermediateId(xx, yy), numbers))
  {
  }

  // ---- Parameter enumerations ---------------------------------------------------------------------

  /** The tabulation stops CTC sets or clears; `Value()` is the number it writes. */
  datatype TabulationControl =
    | SetCharacterTabulationStop | SetLineTabulationStop | ClearCharacterTabulationStop
    | ClearLineTabulationStop | ClearCharacterTabulationStopsInLine | ClearAllCharacterTabulationStops
    | ClearAllLineTabulationStops
  {
    /** The discriminant, `as u32`. */
    function Value(): nat {
      match this
      case SetCharacterTabulationStop => 0
      case SetLineTabulationStop => 1
      case ClearCharacterTabulationStop => 2
      case ClearLineTabulationStop => 3
      case ClearCharacterTabulationStopsInLine => 4
      case ClearAllCharacterTabulationStops => 5
      case ClearAllLineTabulationStops => 6
    }
  }

  /** What DA carries: a request for the device's attributes, or an identification `x` sent in reply. */
  datatype DeviceAttributes =
    | Request | Identify(x: U32)

  /** How DAQ qualifies the area that starts at the active position; `Value()` is the number it writes. */
  datatype AreaQualification =
    | UnprotectedUnguarded | ProtectedGuarded | GraphicCharacterInput | NumericInput | AlphabeticInput
    | InputAlignedRight | FillZeros | SetCharacterTabulationStop | ProtectedUnguarded | FillSpaces
    | InputAlignedLeft | Reversed
  {
    /** The discriminant, `as u32`. */
    function Value(): nat {
      match this
      case UnprotectedUnguarded => 0
      case ProtectedGuarded => 1
      case GraphicCharacterInput => 2
      case NumericInput => 3
      case AlphabeticInput => 4
      case InputAlignedRight => 5
      case FillZeros => 6
      case SetCharacterTabulationStop => 7
      case ProtectedUnguarded => 8
      case FillSpaces => 9
      case InputAlignedLeft => 10
      case Reversed => 11
    }
  }

  /** The status DSR reports or requests; `Value()` is the number it writes. */
  datatype DeviceStatusReport =
    | Ready | BusyRepeat | BusyLater | MalfunctionRepeat | MalfunctionLater | RequestDeviceStatusReport
    | RequestActivePositionReport
  {
    /** The discriminant, `as u32`. */
    function Value(): nat {
      match this
      case Ready => 0
      case BusyRepeat => 1
      case BusyLater => 2
      case MalfunctionRepeat => 3
      case MalfunctionLater => 4
      case RequestDeviceStatusReport => 5
      case RequestActivePositionReport => 6
    }
  }

  /** The part of the active area EA erases; `Value()` is the number it writes. */
  datatype EraseArea =
    | ActivePositionToEnd | BeginToActivePosition | BeginToEnd
  {
    /** The discriminant, `as u32`. */
    function Value(): nat {
      match this
      case ActivePositionToEnd => 0
      case BeginToActivePosition => 1
      case BeginToEnd => 2
    }
  }

  /** The part of the active page ED erases; `Value()` is the number it writes. */
  datatype ErasePage =
    | ActivePositionToEnd | BeginToActivePosition | BeginToEnd
  {
    /** The discriminant, `as u32`. */
    function Value(): nat {
      match this
      case ActivePositionToEnd => 0
      case BeginToActivePosition => 1
      case BeginToEnd => 2
    }
  }

  /** The part of the active field EF erases; `Value()` is the number it writes. */
  datatype EraseField =
    | ActivePositionToEnd | BeginToActivePosition | BeginToEnd
  {
    /** The discriminant, `as u32`. */
    function Value(): nat {
      match this
      case ActivePositionToEnd => 0
      case BeginToActivePosition => 1
      case BeginToEnd => 2
    }
  }

  /** The part of the active line EL erases; `Value()` is the number it writes. */
  datatype EraseLine =
    | ActivePositionToEnd | BeginToActivePosition | BeginToEnd
  {
    /** The discriminant, `as u32`. */
    function Value(): nat {
      match this
      case ActivePositionToEnd => 0
      case BeginToActivePosition => 1
      case BeginToEnd => 2
    }
  }

  /** The primary font or one of the nine alternatives FNT designates; `Value()` is the number it writes. */
  datatype Font =
    | Primary | Alternative1 | Alternative2 | Alternative3 | Alternative4 | Alternative5 | Alternative6
    | Alternative7 | Alternative8 | Alternative9
  {
    /** The discriminant, `as u32`. */
    function Value(): nat {
      match this
      case Primary => 0
      case Alternative1 => 1
      case Alternative2 => 2
      case Alternative3 => 3
      case Alternative4 => 4
      case Alternative5 => 5
      case Alternative6 => 6
      case Alternative7 => 7
      case Alternative8 => 8
      case Alternative9 => 9
    }
  }

  /** How GCC combines the graphic characters that follow; `Value()` is the number it writes. */
  datatype GraphicCharacterCombination =
    | CombineTwo | StartOfCombination | EndOfCombination
  {
    /** The discriminant, `as u32`. */
    function Value(): nat {
      match this
      case CombineTwo => 0
      case StartOfCombination => 1
      case EndOfCombination => 2
    }
  }

  /** The purpose IDCS announces for the next DEVICE CONTROL STRING, or a private purpose `i`. */
  datatype IdentifyDeviceControlString =
    | Diagnostic | DynamicallyRedefinableCharacterSet | Private(i: U32)

  /** The way JFY justifies the text that follows; `Value()` is the number it writes. */
  datatype Justification =
    | None | WordFill | WordSpace | LetterSpace | Hyphenation | Left | Centre | Right | ItalianHyphenation
  {
    /** The discriminant, `as u32`. */
    function Value(): nat {
      match this
      case None => 0
      case WordFill => 1
      case WordSpace => 2
      case LetterSpace => 3
      case Hyphenation => 4
      case Left => 5
      case Centre => 6
      case Right => 7
      case ItalianHyphenation => 8
    }
  }

  /** The transfer or relay MC starts or stops; `Value()` is the number it writes. */
  datatype MediaCopy =
    | BeginTransferToPrimary | BeginTransferFromPrimary | BeginTransferToSecondary | BeginTransferFromSecondary
    | StopRelayPrimary | StartRelayPrimary | StopRelaySecondary | StartRelaySecondary
  {
    /** The discriminant, `as u32`. */
    function Value(): nat {
      match this
      case BeginTransferToPrimary => 0
      case BeginTransferFromPrimary => 1
      case BeginTransferToSecondary => 2
      case BeginTransferFromSecondary => 3
      case StopRelayPrimary => 4
      case StartRelayPrimary => 5
      case StopRelaySecondary => 6
      case StartRelaySecondary => 7
    }
  }

  /** The spacing PEC selects for the text that follows; `Value()` is the number it writes. */
  datatype PresentationExpandContract =
    | Normal | Expanded | Condensed
  {
    /** The discriminant, `as u32`. */
    function Value(): nat {
      match this
      case Normal => 0
      case Expanded => 1
      case Condensed => 2
    }
  }

  /** The page format PFS selects; `Value()` is the number it writes. */
  datatype PageFormat =
    | TallBasicText | WideBasicText | TallBasicA4 | WideBasicA4 | TallLetter | WideLetter | TallExtendedA4
    | WideExtendedA4 | TallLegal | WideLegal | A4ShortLines | A4LongLines | B5ShortLines | B5LongLines
    | B4ShortLines | B4LongLines
  {
    /** The discriminant, `as u32`. */
    function Value(): nat {
      match this
      case TallBasicText => 0
      case WideBasicText => 1
      case TallBasicA4 => 2
      case WideBasicA4 => 3
      case TallLetter => 4
      case WideLetter => 5
      case TallExtendedA4 => 6
      case WideExtendedA4 => 7
      case TallLegal => 8
      case WideLegal => 9
      case A4ShortLines => 10
      case A4LongLines => 11
      case B5ShortLines => 12
      case B5LongLines => 13
      case B4ShortLines => 14
      case B4LongLines => 15
    }
  }

  /** The start or end of a parallel text PTX marks; `Value()` is the number it writes. */
  datatype ParallelText =
    | End | BeginPrincipal | BeginSupplementary | BeginJapanesePhonetic | BeginChinesePhonetic | EndPhonetic
  {
    /** The discriminant, `as u32`. */
    function Value(): nat {
      match this
      case End => 0
      case BeginPrincipal => 1
      case BeginSupplementary => 2
      case BeginJapanesePhonetic => 3
      case BeginChinesePhonetic => 4
      case EndPhonetic => 5
    }
  }

  /** How QUAD aligns the text of the line; `Value()` is the number it writes. */
  datatype Alignment =
    | LineHome | LineHomeLeader | Centre | CentreLeader | LineLimit | LineLimitLeader | Justify
  {
    /** The discriminant, `as u32`. */
    function Value(): nat {
      match this
      case LineHome => 0
      case LineHomeLeader => 1
      case Centre => 2
      case CentreLeader => 3
      case LineLimit => 4
      case LineLimitLeader => 5
      case Justify => 6
    }
  }

  /** The presentation variant SAPV selects; `Value()` is the number it writes. */
  datatype PresentationVariant =
    | Default | LatinDecimals | ArabicDecimals | MirrorPairs | MirrorFormulae | Isolated | Initial | Medial
    | Final | DecimalFullStop | DecimalComma | VowelAboveOrBelow | VowelAfterPreceding
    | ContextualShapeArabicScriptWithLamAleph | ContextualShapeArabicScript | NoMirroring | NoVowels
    | SlantFollowsStringDirection | NoContextualShapeArabicScript | NoContextualShapeArabicScriptExceptDigits
    | DeviceDependentDecimalDigits | PersistCharacterForm | DesistCharacterForm
  {
    /** The discriminant, `as u32`. */
    function Value(): nat {
      match this
      case Default => 0
      case LatinDecimals => 1
      case ArabicDecimals => 2
      case MirrorPairs => 3
      case MirrorFormulae => 4
      case Isolated => 5
      case Initial => 6
      case Medial => 7
      case Final => 8
      case DecimalFullStop => 9
      case DecimalComma => 10
      case VowelAboveOrBelow => 11
      case VowelAfterPreceding => 12
      case ContextualShapeArabicScriptWithLamAleph => 13
      case ContextualShapeArabicScript => 14
      case NoMirroring => 15
      case NoVowels => 16
      case SlantFollowsStringDirection => 17
      case NoContextualShapeArabicScript => 18
      case NoContextualShapeArabicScriptExceptDigits => 19
      case DeviceDependentDecimalDigits => 20
      case PersistCharacterForm => 21
      case DesistCharacterForm => 22
    }
  }

  /** The rotation of the characters SCO selects, in steps of 45 degrees; `Value()` is the number it writes. */
  datatype CharacterOrientation =
    | Normal | Rotate45 | Rotate90 | Rotate135 | Rotate180 | Rotate225 | Rotate270 | Rotate315
  {
    /** The discriminant, `as u32`. */
    function Value(): nat {
      match this
      case Normal => 0
      case Rotate45 => 1
      case Rotate90 => 2
      case Rotate135 => 3
      case Rotate180 => 4
      case Rotate225 => 5
      case Rotate270 => 6
      case Rotate315 => 7
    }
  }

  /** The character path SCP selects; `Value()` is the number it writes. */
  datatype CharacterPath =
    | LefToRight | RightToLeft
  {
    /** The discriminant, `as u32`. */
    function Value(): nat {
      match this
      case LefToRight => 1
      case RightToLeft => 2
    }
  }

  /** The component whose contents SCP keeps in place; `Value()` is the number it writes. */
  datatype CharacterPathScope =
    | Undefined | InPresentationComponent | InDataComponent
  {
    /** The discriminant, `as u32`. */
    function Value(): nat {
      match this
      case Undefined => 0
      case InPresentationComponent => 1
      case InDataComponent => 2
    }
  }

  /** The start or end of a directed string SDS marks; `Value()` is the number it writes. */
  datatype StringDirection =
    | End | StartLeftToRight | StartRightToLeft
  {
    /** The discriminant, `as u32`. */
    function Value(): nat {
      match this
      case End => 0
      case StartLeftToRight => 1
      case StartRightToLeft => 2
    }
  }

  /** How far SEE lets editing functions reach; `Value()` is the number it writes. */
  datatype EditingExtend =
    | ActivePage | ActiveLine | ActiveField | QualifiedArea | All
  {
    /** The discriminant, `as u32`. */
    function Value(): nat {
      match this
      case ActivePage => 0
      case ActiveLine => 1
      case ActiveField => 2
      case QualifiedArea => 3
      case All => 4
    }
  }

  /** The paper bin SEF feeds from, or none. */
  datatype Load =
    | None | Bin(bin: U32)

  /** The stacker SEF ejects into, or none. */
  datatype Stack =
    | None | Stacker(stacker: U32)

  /** A rendition aspect SGR selects; `Value()` is the number it writes. */
  datatype GraphicRendition =
    | Default | HighIntensity | LowIntensity | Italicized | Underlined | SlowlyBlinking | RapidlyBlinking
    | Negative | Concealed | CrossedOut | PrimaryFont | FirstAlternativeFont | SecondAlternativeFont
    | ThirdAlternativeFont | ForthAlternativeFont | FifthAlternativeFont | SixthAlternativeFont
    | SeventhAlternativeFont | EighthAlternativeFont | NinthAlternativeFont | Fraktur | DoublyUnderlined
    | NormalIntensity | NormalStyle | NotUnderlined | NotBlinking | Positive | Revealed | NotCrossedOut
    | BlackForeground | RedForeground | GreenForeground | YellowForeground | BlueForeground | MagentaForeground
    | CyanForeground | WhiteForeground | DefaultForeground | BlackBackground | RedBackground | GreenBackground
    | YellowBackground | BlueBackground | MagentaBackground | CyanBackground | WhiteBackground
    | DefaultBackground | Framed | Encircled | Overlined | NotFramed | NotOverlined | IdeogramUnderline
    | IdeogramDoubleUnderline | IdeogramStressMarking | CancelIdeogramRendition
  {
    /** The discriminant, `as u32`. */
    function Value(): nat {
      match this
      case Default => 0
      case HighIntensity => 1
      case LowIntensity => 2
      case Italicized => 3
      case Underlined => 4
      case SlowlyBlinking => 5
      case RapidlyBlinking => 6
      case Negative => 7
      case Concealed => 8
      case CrossedOut => 9
      case PrimaryFont => 10
      case FirstAlternativeFont => 11
      case SecondAlternativeFont => 12
      case ThirdAlternativeFont => 13
      case ForthAlternativeFont => 14
      case FifthAlternativeFont => 15
      case SixthAlternativeFont => 16
      case SeventhAlternativeFont => 17
      case EighthAlternativeFont => 18
      case NinthAlternativeFont => 19
      case Fraktur => 20
      case DoublyUnderlined => 21
      case NormalIntensity => 22
      case NormalStyle => 23
      case NotUnderlined => 24
      case NotBlinking => 25
      case Positive => 27
      case Revealed => 28
      case NotCrossedOut => 29
      case BlackForeground => 30
      case RedForeground => 31
      case GreenForeground => 32
      case YellowForeground => 33
      case BlueForeground => 34
      case MagentaForeground => 35
      case CyanForeground => 36
      case WhiteForeground => 37
      case DefaultForeground => 39
      case BlackBackground => 40
      case RedBackground => 41
      case GreenBackground => 42
      case YellowBackground => 43
      case BlueBackground => 44
      case MagentaBackground => 45
      case CyanBackground => 46
      case WhiteBackground => 47
      case DefaultBackground => 49
      case Framed => 51
      case Encircled => 52
      case Overlined => 53
      case NotFramed => 54
      case NotOverlined => 55
      case IdeogramUnderline => 60
      case IdeogramDoubleUnderline => 61
      case IdeogramStressMarking => 62
      case CancelIdeogramRendition => 63
    }
  }

  /** The character spacing SHS selects; `Value()` is the number it writes. */
  datatype CharacterSpacing =
    | TenCharacters | TwelveCharacters | FifteenCharacters | SixCharacters | ThreeCharacters | NineCharacters
    | FourCharacters
  {
    /** The discriminant, `as u32`. */
    function Value(): nat {
      match this
      case TenCharacters => 0
      case TwelveCharacters => 1
      case FifteenCharacters => 2
      case SixCharacters => 3
      case ThreeCharacters => 4
      case NineCharacters => 5
      case FourCharacters => 6
    }
  }

  /** The direction SIMD makes implicit movement take; `Value()` is the number it writes. */
  datatype MovementDirection =
    | Normal | Opposite
  {
    /** The discriminant, `as u32`. */
    function Value(): nat {
      match this
      case Normal => 0
      case Opposite => 1
    }
  }

  /** The line orientation and progression SPD selects; `Value()` is the number it writes. */
  datatype PresentationDirection =
    | HorizontalLinesTopToBottomLeftToRight | VerticalLinesRightToLeftTopToBottom
    | VerticalLinesLeftToRightTopToBottom | HorizontalLinesTopToBottomRightToLeft
    | VerticalLinesLeftToRightBottomToTop | HorizontalLinesBottomToTopRightToLeft
    | HorizontalLinesBottomToTopLefToRight | VerticalLinesRightToLeftBottomToTop
  {
    /** The discriminant, `as u32`. */
    function Value(): nat {
      match this
      case HorizontalLinesTopToBottomLeftToRight => 0
      case VerticalLinesRightToLeftTopToBottom => 1
      case VerticalLinesLeftToRightTopToBottom => 2
      case HorizontalLinesTopToBottomRightToLeft => 3
      case VerticalLinesLeftToRightBottomToTop => 4
      case HorizontalLinesBottomToTopRightToLeft => 5
      case HorizontalLinesBottomToTopLefToRight => 6
      case VerticalLinesRightToLeftBottomToTop => 7
    }
  }

  /** The component whose contents SPD keeps in place; `Value()` is the number it writes. */
  datatype PresentationDirectionScope =
    | Undefined | InPresentationComponent | InDataComponent
  {
    /** The discriminant, `as u32`. */
    function Value(): nat {
      match this
      case Undefined => 0
      case InPresentationComponent => 1
      case InDataComponent => 2
    }
  }

  /** The print quality and rapidity SPQR selects; `Value()` is the number it writes. */
  datatype PrintQuality =
    | HighQualityLowSpeed | MediumQualityMediumSpeed | LowQualityHighSpeed
  {
    /** The discriminant, `as u32`. */
    function Value(): nat {
      match this
      case HighQualityLowSpeed => 0
      case MediumQualityMediumSpeed => 1
      case LowQualityHighSpeed => 2
    }
  }

  /** The start or end of a reversed string SRS marks; `Value()` is the number it writes. */
  datatype ReversedString =
    | End | Start
  {
    /** The discriminant, `as u32`. */
    function Value(): nat {
      match this
      case End => 0
      case Start => 1
    }
  }

  /** The unit SSU sets for numeric parameters of size; `Value()` is the number it writes. */
  datatype SizeUnit =
    | Character | Millimetre | ComputerDecipoint | Decidot | Mil | BasicMeasuringUnit | Micrometer | Pixel
    | Decipoint
  {
    /** The discriminant, `as u32`. */
    function Value(): nat {
      match this
      case Character => 0
      case Millimetre => 1
      case ComputerDecipoint => 2
      case Decidot => 3
      case Mil => 4
      case BasicMeasuringUnit => 5
      case Micrometer => 6
      case Pixel => 7
      case Decipoint => 8
    }
  }

  /** The line spacing SVS selects; `Value()` is the number it writes. */
  datatype LineSpacing =
    | SixLinesPer25 | FourLinesPer25 | ThreeLinesPer25 | TwelveLinesPer25 | EightLinesPer25 | SixLinesPer30
    | FourLinesPer30 | ThreeLinesPer30 | TwelveLinesPer30 | TwoLinesPer25
  {
    /** The discriminant, `as u32`. */
    function Value(): nat {
      match this
      case SixLinesPer25 => 0
      case FourLinesPer25 => 1
      case ThreeLinesPer25 => 2
      case TwelveLinesPer25 => 3
      case EightLinesPer25 => 4
      case SixLinesPer30 => 5
      case FourLinesPer30 => 6
      case ThreeLinesPer30 => 7
      case TwelveLinesPer30 => 8
      case TwoLinesPer25 => 9
    }
  }

  /** The tabulation stops TBC clears; `Value()` is the number it writes. */
  datatype ClearTabulation =
    | CharacterTabulationStopActivePosition | LineTabulationStopActiveLine
    | AllCharacterTabulationStopsActiveLine | AllCharacterTabulationStops | AllLineTabulationStops
    | AllTabulationStops
  {
    /** The discriminant, `as u32`. */
    function Value(): nat {
      match this
      case CharacterTabulationStopActivePosition => 0
      case LineTabulationStopActiveLine => 1
      case AllCharacterTabulationStopsActiveLine => 2
      case AllCharacterTabulationStops => 3
      case AllLineTabulationStops => 4
      case AllTabulationStops => 5
    }
  }

  /** Reads a discriminant back into the graphic rendition it denotes. */
  function RenditionFromValue(n: int): Option<GraphicRendition> {
    if n == 0 then Some(GraphicRendition.Default) else if n == 1 then Some(GraphicRendition.HighIntensity)
    else if n == 2 then Some(GraphicRendition.LowIntensity)
    else if n == 3 then Some(GraphicRendition.Italicized) else if n == 4 then Some(GraphicRendition.Underlined)
    else if n == 5 then Some(GraphicRendition.SlowlyBlinking)
    else if n == 6 then Some(GraphicRendition.RapidlyBlinking)
    else if n == 7 then Some(GraphicRendition.Negative) else if n == 8 then Some(GraphicRendition.Concealed)
    else if n == 9 then Some(GraphicRendition.CrossedOut)
    else if n == 10 then Some(GraphicRendition.PrimaryFont)
    else if n == 11 then Some(GraphicRendition.FirstAlternativeFont)
    else if n == 12 then Some(GraphicRendition.SecondAlternativeFont)
    else if n == 13 then Some(GraphicRendition.ThirdAlternativeFont)
    else if n == 14 then Some(GraphicRendition.ForthAlternativeFont)
    else if n == 15 then Some(GraphicRendition.FifthAlternativeFont)
    else if n == 16 then Some(GraphicRendition.SixthAlternativeFont)
    else if n == 17 then Some(GraphicRendition.SeventhAlternativeFont)
    else if n == 18 then Some(GraphicRendition.EighthAlternativeFont)
    else if n == 19 then Some(GraphicRendition.NinthAlternativeFont)
    else if n == 20 then Some(GraphicRendition.Fraktur)
    else if n == 21 then Some(GraphicRendition.DoublyUnderlined)
    else if n == 22 then Some(GraphicRendition.NormalIntensity)
    else if n == 23 then Some(GraphicRendition.NormalStyle)
    else if n == 24 then Some(GraphicRendition.NotUnderlined)
    else if n == 25 then Some(GraphicRendition.NotBlinking) else if n == 27 then Some(GraphicRendition.Positive)
    else if n == 28 then Some(GraphicRendition.Revealed)
    else if n == 29 then Some(GraphicRendition.NotCrossedOut)
    else if n == 30 then Some(GraphicRendition.BlackForeground)
    else if n == 31 then Some(GraphicRendition.RedForeground)
    else if n == 32 then Some(GraphicRendition.GreenForeground)
    else if n == 33 then Some(GraphicRendition.YellowForeground)
    else if n == 34 then Some(GraphicRendition.BlueForeground)
    else if n == 35 then Some(GraphicRendition.MagentaForeground)
    else if n == 36 then Some(GraphicRendition.CyanForeground)
    else if n == 37 then Some(GraphicRendition.WhiteForeground)
    else if n == 39 then Some(GraphicRendition.DefaultForeground)
    else if n == 40 then Some(GraphicRendition.BlackBackground)
    else if n == 41 then Some(GraphicRendition.RedBackground)
    else if n == 42 then Some(GraphicRendition.GreenBackground)
    else if n == 43 then Some(GraphicRendition.YellowBackground)
    else if n == 44 then Some(GraphicRendition.BlueBackground)
    else if n == 45 then Some(GraphicRendition.MagentaBackground)
    else if n == 46 then Some(GraphicRendition.CyanBackground)
    else if n == 47 then Some(GraphicRendition.WhiteBackground)
    else if n == 49 then Some(GraphicRendition.DefaultBackground)
    else if n == 51 then Some(GraphicRendition.Framed) else if n == 52 then Some(GraphicRendition.Encircled)
    else if n == 53 then Some(GraphicRendition.Overlined) else if n == 54 then Some(GraphicRendition.NotFramed)
    else if n == 55 then Some(GraphicRendition.NotOverlined)
    else if n == 60 then Some(GraphicRendition.IdeogramUnderline)
    else if n == 61 then Some(GraphicRendition.IdeogramDoubleUnderline)
    else if n == 62 then Some(GraphicRendition.IdeogramStressMarking)
    else if n == 63 then Some(GraphicRendition.CancelIdeogramRendition) else Option.None
  }

  /** The renditions whose discriminants lie between 0 and 15 read back from them. */
  lemma RenditionValueRoundTrip0To15(g: GraphicRendition)
    requires 0 <= g.Value() <= 15
    ensures RenditionFromValue(g.Value()) == Some(g)
  {
  }

  /** The renditions whose discriminants lie between 16 and 31 read back from them. */
  lemma RenditionValueRoundTrip16To31(g: GraphicRendition)
    requires 16 <= g.Value() <= 31
    ensures RenditionFromValue(g.Value()) == Some(g)
  {
  }

  /** The renditions whose discriminants lie between 32 and 47 read back from them. */
  lemma RenditionValueRoundTrip32To47(g: GraphicRendition)
    requires 32 <= g.Value() <= 47
    ensures RenditionFromValue(g.Value()) == Some(g)
  {
  }

  /** The renditions whose discriminants lie between 48 and 63 read back from them. */
  lemma RenditionValueRoundTrip48To63(g: GraphicRendition)
    requires 48 <= g.Value() <= 63
    ensures RenditionFromValue(g.Value()) == Some(g)
  {
  }

  /** Every rendition reads back from its discriminant. */
  lemma RenditionValueRoundTrip(g: GraphicRendition)
    ensures RenditionFromValue(g.Value()) == Some(g)
  {
    if g.Value() <= 15 {
      RenditionValueRoundTrip0To15(g);
    } else if g.Value() <= 31 {
      RenditionValueRoundTrip16To31(g);
    } else if g.Value() <= 47 {
      RenditionValueRoundTrip32To47(g);
    } else {
      RenditionValueRoundTrip48To63(g);
    }
  }

  /** The discriminants from 0 to 7 read back into the renditions they denote. */
  lemma RenditionFromValueInverse0To7(n: int)
    requires 0 <= n <= 7
    ensures RenditionFromValue(n).Some?
    ensures RenditionFromValue(n).Some? ==> RenditionFromValue(n).value.Value() == n
  {
  }

  /** The discriminants from 8 to 15 read back into the renditions they denote. */
  lemma RenditionFromValueInverse8To15(n: int)
    requires 8 <= n <= 15
    ensures RenditionFromValue(n).Some?
    ensures RenditionFromValue(n).Some? ==> RenditionFromValue(n).value.Value() == n
  {
  }

  /** The discriminants from 16 to 23 read back into the renditions they denote. */
  lemma RenditionFromValueInverse16To23(n: int)
    requires 16 <= n <= 23
    ensures RenditionFromValue(n).Some?
    ensures RenditionFromValue(n).Some? ==> RenditionFromValue(n).value.Value() == n
  {
  }

  /** The discriminants from 24 to 31 outside the gaps read back into the renditions they denote. */
  lemma RenditionFromValueInverse24To31(n: int)
    requires 24 <= n <= 31
    ensures RenditionFromValue(n).Some? <==> n !in {26}
    ensures RenditionFromValue(n).Some? ==> RenditionFromValue(n).value.Value() == n
  {
  }

  /** The discriminants from 32 to 39 outside the gaps read back into the renditions they denote. */
  lemma RenditionFromValueInverse32To39(n: int)
    requires 32 <= n <= 39
    ensures RenditionFromValue(n).Some? <==> n !in {38}
    ensures RenditionFromValue(n).Some? ==> RenditionFromValue(n).value.Value() == n
  {
  }

  /** The discriminants from 40 to 47 read back into the renditions they denote. */
  lemma RenditionFromValueInverse40To47(n: int)
    requires 40 <= n <= 47
    ensures RenditionFromValue(n).Some?
    ensures RenditionFromValue(n).Some? ==> RenditionFromValue(n).value.Value() == n
  {
  }

  /** The discriminants from 48 to 55 outside the gaps read back into the renditions they denote. */
  lemma RenditionFromValueInverse48To55(n: int)
    requires 48 <= n <= 55
    ensures RenditionFromValue(n).Some? <==> n !in {48, 50}
    ensures RenditionFromValue(n).Some? ==> RenditionFromValue(n).value.Value() == n
  {
  }

  /** The discriminants from 56 to 63 outside the gaps read back into the renditions they denote. */
  lemma RenditionFromValueInverse56To63(n: int)
    requires 56 <= n <= 63
    ensures RenditionFromValue(n).Some? <==> n !in {56, 57, 58, 59}
    ensures RenditionFromValue(n).Some? ==> RenditionFromValue(n).value.Value() == n
  {
  }

  /**
   * The discriminants run from 0 to 63 with gaps at 26, 38, 48, 50, 56, 57, 58, 59; a discriminant that reads back
   * denotes the rendition it reads as.
   */
  lemma RenditionFromValueInverse(n: int)
    ensures RenditionFromValue(n).Some? <==> 0 <= n <= 63 && n !in {26, 38, 48, 50, 56, 57, 58, 59}
    ensures RenditionFromValue(n).Some? ==> RenditionFromValue(n).value.Value() == n
  {
    if 0 <= n <= 7 {
      RenditionFromValueInverse0To7(n);
    } else if 8 <= n <= 15 {
      RenditionFromValueInverse8To15(n);
    } else if 16 <= n <= 23 {
      RenditionFromValueInverse16To23(n);
    } else if 24 <= n <= 31 {
      RenditionFromValueInverse24To31(n);
    } else if 32 <= n <= 39 {
      RenditionFromValueInverse32To39(n);
    } else if 40 <= n <= 47 {
      RenditionFromValueInverse40To47(n);
    } else if 48 <= n <= 55 {
      RenditionFromValueInverse48To55(n);
    } else if 56 <= n <= 63 {
      RenditionFromValueInverse56To63(n);
    }
  }

  // ---- Builders ---------------------------------------------------------------------------------

  /** `CBT`, CURSOR BACKWARD TABULATION, the control sequence with identifier `05/10`. */
  function CBT(n: Option<U32>): ControlFunction
  {
    Sequence(Id(5, 10), [n.GetOr(1)])
  }

  /** `CHA`, CURSOR CHARACTER ABSOLUTE, the control sequence with identifier `04/07`. */
  function CHA(n: Option<U32>): ControlFunction
  {
    Sequence(Id(4, 7), [n.GetOr(1)])
  }

  /** `CHT`, CURSOR FORWARD TABULATION, the control sequence with identifier `04/09`. */
  function CHT(n: Option<U32>): ControlFunction
  {
    Sequence(Id(4, 9), [n.GetOr(1)])
  }

  /** `CNL`, CURSOR NEXT LINE, the control sequence with identifier `04/05`. */
  function CNL(n: Option<U32>): ControlFunction
  {
    Sequence(Id(4, 5), [n.GetOr(1)])
  }

  /** `CPL`, CURSOR PRECEDING LINE, the control sequence with identifier `04/06`. */
  function CPL(n: Option<U32>): ControlFunction
  {
    Sequence(Id(4, 6), [n.GetOr(1)])
  }

  /** `CPR`, ACTIVE POSITION REPORT, the control sequence with identifier `05/02`. */
  function CPR(n: Option<U32>, m: Option<U32>): ControlFunction
  {
    Sequence(Id(5, 2), [n.GetOr(1), m.GetOr(1)])
  }

  /** `CTC`, CURSOR TABULATION CONTROL, the control sequence with identifier `05/07`. */
  function CTC(s: Option<TabulationControl>): ControlFunction
  {
    Sequence(Id(5, 7), [s.GetOr(TabulationControl.SetCharacterTabulationStop).Value()])
  }

  /** `CUB`, CURSOR LEFT, the control sequence with identifier `04/04`. */
  function CUB(n: Option<U32>): ControlFunction
  {
    Sequence(Id(4, 4), [n.GetOr(1)])
  }

  /** `CUD`, CURSOR DOWN, the control sequence with identifier `04/02`. */
  function CUD(n: Option<U32>): ControlFunction
  {
    Sequence(Id(4, 2), [n.GetOr(1)])
  }

  /** `CUF`, CURSOR RIGHT, the control sequence with identifier `04/03`. */
  function CUF(n: Option<U32>): ControlFunction
  {
    Sequence(Id(4, 3), [n.GetOr(1)])
  }

  /** `CUP`, CURSOR POSITION, the control sequence with identifier `04/08`. */
  function CUP(n: Option<U32>, m: Option<U32>): ControlFunction
  {
    Sequence(Id(4, 8), [n.GetOr(1), m.GetOr(1)])
  }

  /** `CUU`, CURSOR UP, the control sequence with identifier `04/01`. */
  function CUU(n: Option<U32>): ControlFunction
  {
    Sequence(Id(4, 1), [n.GetOr(1)])
  }

  /** `CVT`, CURSOR LINE TABULATION, the control sequence with identifier `05/09`. */
  function CVT(n: Option<U32>): ControlFunction
  {
    Sequence(Id(5, 9), [n.GetOr(1)])
  }

  /** `DA`, DEVICE ATTRIBUTES, the control sequence with identifier `06/03`. */
  function DA(s: Option<DeviceAttributes>): ControlFunction
  {
    var v := match s
      case Some(Request) => 0
      case Some(Identify(x)) => x
      case None => 0;
    Sequence(Id(6, 3), [v])
  }

  /** `DAQ`, DEFINE AREA QUALIFICATION, the control sequence with identifier `06/15`. */
  function DAQ(s: Option<AreaQualification>): ControlFunction
  {
    Sequence(Id(6, 15), [s.GetOr(AreaQualification.UnprotectedUnguarded).Value()])
  }

  /** `DCH`, DELETE CHARACTER, the control sequence with identifier `05/00`. */
  function DCH(n: Option<U32>): ControlFunction
  {
    Sequence(Id(5, 0), [n.GetOr(1)])
  }

  /** `DL`, DELETE LINE, the control sequence with identifier `04/13`. */
  function DL(n: Option<U32>): ControlFunction
  {
    Sequence(Id(4, 13), [n.GetOr(1)])
  }

  /** `DSR`, DEVICE STATUS REPORT, the control sequence with identifier `06/14`. */
  function DSR(s: Option<DeviceStatusReport>): ControlFunction
  {
    Sequence(Id(6, 14), [s.GetOr(DeviceStatusReport.Ready).Value()])
  }

  /** `DTA`, DIMENSION TEXT AREA, the control sequence with identifier `02/00 05/04`. */
  function DTA(n: U32, m: U32): ControlFunction
  {
    Sequence(IntermediateId(5, 4), [n, m])
  }

  /** `EA`, ERASE IN AREA, the control sequence with identifier `04/15`. */
  function EA(s: Option<EraseArea>): ControlFunction
  {
    Sequence(Id(4, 15), [s.GetOr(EraseArea.ActivePositionToEnd).Value()])
  }

  /** `ECH`, ERASE CHARACTER, the control sequence with identifier `05/08`. */
  function ECH(n: Option<U32>): ControlFunction
  {
    Sequence(Id(5, 8), [n.GetOr(1)])
  }

  /** `ED`, ERASE IN PAGE, the control sequence with identifier `04/10`. */
  function ED(s: Option<ErasePage>): ControlFunction
  {
    Sequence(Id(4, 10), [s.GetOr(ErasePage.ActivePositionToEnd).Value()])
  }

  /** `EF`, ERASE IN FIELD, the control sequence with identifier `04/14`. */
  function EF(s: Option<EraseField>): ControlFunction
  {
    Sequence(Id(4, 14), [s.GetOr(EraseField.ActivePositionToEnd).Value()])
  }

  /** `EL`, ERASE IN LINE, the control sequence with identifier `04/11`. */
  function EL(s: Option<EraseLine>): ControlFunction
  {
    Sequence(Id(4, 11), [s.GetOr(EraseLine.ActivePositionToEnd).Value()])
  }

  /** `FNK`, FUNCTION KEY, the control sequence with identifier `02/00 05/07`. */
  function FNK(n: U32): ControlFunction
  {
    Sequence(IntermediateId(5, 7), [n])
  }

  /** `FNT`, FONT SELECTION, the control sequence with identifier `02/00 04/04`. */
  function FNT(s: Option<Font>, t: Option<U32>): ControlFunction
  {
    var a := match s
      case Some(font) => font.Value()
      case None => Font.Primary.Value();
    var b := t.GetOr(0);
    Sequence(IntermediateId(4, 4), [a, b])
  }

  /** `GCC`, GRAPHIC CHARACTER COMBINATION, the control sequence with identifier `02/00 05/15`. */
  function GCC(s: Option<GraphicCharacterCombination>): ControlFunction
  {
    Sequence(IntermediateId(5, 15), [s.GetOr(GraphicCharacterCombination.CombineTwo).Value()])
  }

  /** `GSM`, GRAPHIC SIZE MODIFICATION, the control sequence with identifier `02/00 04/02`. */
  function GSM(h: Option<U32>, w: Option<U32>): ControlFunction
  {
    Sequence(IntermediateId(4, 2), [h.GetOr(100), w.GetOr(100)])
  }

  /** `GSS`, GRAPHIC SIZE SELECTION, the control sequence with identifier `02/00 04/03`. */
  function GSS(n: U32): ControlFunction
  {
    Sequence(IntermediateId(4, 3), [n])
  }

  /** `HPA`, CHARACTER POSITION ABSOLUTE, the control sequence with identifier `06/00`. */
  function HPA(n: Option<U32>): ControlFunction
  {
    Sequence(Id(6, 0), [n.GetOr(1)])
  }

  /** `HPB`, CHARACTER POSITION BACKWARD, the control sequence with identifier `06/10`. */
  function HPB(n: Option<U32>): ControlFunction
  {
    Sequence(Id(6, 10), [n.GetOr(1)])
  }

  /** `HPR`, CHARACTER POSITION FORWARD, the control sequence with identifier `06/01`. */
  function HPR(n: Option<U32>): ControlFunction
  {
    Sequence(Id(6, 1), [n.GetOr(1)])
  }

  /** `HVP`, CHARACTER AND LINE POSITION, the control sequence with identifier `06/06`. */
  function HVP(n: Option<U32>, m: Option<U32>): ControlFunction
  {
    Sequence(Id(6, 6), [n.GetOr(1), m.GetOr(1)])
  }

  /** `ICH`, INSERT CHARACTER, the control sequence with identifier `04/00`. */
  function ICH(n: Option<U32>): ControlFunction
  {
    Sequence(Id(4, 0), [n.GetOr(1)])
  }

  /** `IDCS`, IDENTIFY DEVICE CONTROL STRING, the control sequence with identifier `02/00 04/15`. */
  function IDCS(s: IdentifyDeviceControlString): ControlFunction
  {
    var v := match s
      case Private(i) => i
      case Diagnostic => 1
      case DynamicallyRedefinableCharacterSet => 2;
    Sequence(IntermediateId(4, 15), [v])
  }

  /** `IGS`, IDENTIFY GRAPHIC SUBREPERTOIRE, the control sequence with identifier `02/00 04/13`. */
  function IGS(n: U32): ControlFunction
  {
    Sequence(IntermediateId(4, 13), [n])
  }

  /** `IL`, INSERT LINE, the control sequence with identifier `04/12`. */
  function IL(n: Option<U32>): ControlFunction
  {
    Sequence(Id(4, 12), [n.GetOr(1)])
  }

  /** `JFY`, JUSTIFY, the control sequence with identifier `02/00 04/06`. */
  function JFY(s: Option<Justification>): ControlFunction
  {
    Sequence(IntermediateId(4, 6), [s.GetOr(Justification.None).Value()])
  }

  /** `MC`, MEDIA COPY, the control sequence with identifier `06/09`. */
  function MC(s: Option<MediaCopy>): ControlFunction
  {
    Sequence(Id(6, 9), [s.GetOr(MediaCopy.BeginTransferToPrimary).Value()])
  }

  /** `NP`, NEXT PAGE, the control sequence with identifier `05/05`. */
  function NP(n: Option<U32>): ControlFunction
  {
    Sequence(Id(5, 5), [n.GetOr(1)])
  }

  /** `PEC`, PRESENTATION EXPAND OR CONTRACT, the control sequence with identifier `02/00 05/10`. */
  function PEC(s: Option<PresentationExpandContract>): ControlFunction
  {
    Sequence(IntermediateId(5, 10), [s.GetOr(PresentationExpandContract.Normal).Value()])
  }

  /** `PFS`, PAGE FORMAT SELECTION, the control sequence with identifier `02/00 04/10`. */
  function PFS(s: Option<PageFormat>): ControlFunction
  {
    Sequence(IntermediateId(4, 10), [s.GetOr(PageFormat.TallBasicText).Value()])
  }

  /** `PP`, PRECEDING PAGE, the control sequence with identifier `05/06`. */
  function PP(n: Option<U32>): ControlFunction
  {
    Sequence(Id(5, 6), [n.GetOr(1)])
  }

  /** `PPA`, PAGE POSITION ABSOLUTE, the control sequence with identifier `02/00 05/00`. */
  function PPA(n: Option<U32>): ControlFunction
  {
    Sequence(IntermediateId(5, 0), [n.GetOr(1)])
  }

  /** `PPB`, PAGE POSITION BACKWARD, the control sequence with identifier `02/00 05/02`. */
  function PPB(n: Option<U32>): ControlFunction
  {
    Sequence(IntermediateId(5, 2), [n.GetOr(1)])
  }

  /** `PPR`, PAGE POSITION FORWARD, the control sequence with identifier `02/00 05/01`. */
  function PPR(n: Option<U32>): ControlFunction
  {
    Sequence(IntermediateId(5, 1), [n.GetOr(1)])
  }

  /** `PTX`, PARALLEL TEXTS, the control sequence with identifier `05/12`. */
  function PTX(s: Option<ParallelText>): ControlFunction
  {
    Sequence(Id(5, 12), [s.GetOr(ParallelText.End).Value()])
  }

  /** `QUAD`, QUAD, the control sequence with identifier `02/00 04/08`. */
  function QUAD(s: Option<Alignment>): ControlFunction
  {
    Sequence(IntermediateId(4, 8), [s.GetOr(Alignment.LineHome).Value()])
  }

  /** `REP`, REPEAT, the control sequence with identifier `06/02`. */
  function REP(n: Option<U32>): ControlFunction
  {
    Sequence(Id(6, 2), [n.GetOr(1)])
  }

  /** `RM`, RESET MODE, the control sequence with identifier `06/12`. */
  function RM(v: seq<Modes.Mode>): ControlFunction
  {
    Sequence(Id(6, 12), Discriminants(v, (m: Modes.Mode) => m.Value()))
  }

  /** `SACS`, SET ADDITIONAL CHARACTER REPRESENTATION, the control sequence with identifier `02/00 05/12`. */
  function SACS(n: Option<U32>): ControlFunction
  {
    Sequence(IntermediateId(5, 12), [n.GetOr(0)])
  }

  /** `SAPV`, SELECT ALTERNATIVE PRESENTATION VARIANTS, the control sequence with identifier `02/00 05/13`. */
  function SAPV(s: Option<PresentationVariant>): ControlFunction
  {
    Sequence(IntermediateId(5, 13), [s.GetOr(PresentationVariant.Default).Value()])
  }

  /** `SCO`, SELECT CHARACTER ORIENTATION, the control sequence with identifier `02/00 06/05`. */
  function SCO(s: Option<CharacterOrientation>): ControlFunction
  {
    Sequence(IntermediateId(6, 5), [s.GetOr(CharacterOrientation.Normal).Value()])
  }

  /** `SCP`, SELECT CHARACTER PATH, the control sequence with identifier `02/00 06/11`. */
  function SCP(s: CharacterPath, t: CharacterPathScope): ControlFunction
  {
    Sequence(IntermediateId(6, 11), [s.Value(), t.Value()])
  }

  /** `SCS`, SET CHARACTER SPACING, the control sequence with identifier `02/00 06/07`. */
  function SCS(n: U32): ControlFunction
  {
    Sequence(IntermediateId(6, 7), [n])
  }

  /** `SD`, SCROLL DOWN, the control sequence with identifier `05/04`. */
  function SD(n: Option<U32>): ControlFunction
  {
    Sequence(Id(5, 4), [n.GetOr(1)])
  }

  /** `SDS`, START DIRECTED STRING, the control sequence with identifier `05/13`. */
  function SDS(s: Option<StringDirection>): ControlFunction
  {
    Sequence(Id(5, 13), [s.GetOr(StringDirection.End).Value()])
  }

  /** `SEE`, SELECT EDITING EXTENT, the control sequence with identifier `05/01`. */
  function SEE(s: Option<EditingExtend>): ControlFunction
  {
    Sequence(Id(5, 1), [s.GetOr(EditingExtend.ActivePage).Value()])
  }

  /** `SEF`, SHEET EJECT AND FEED, the control sequence with identifier `02/00 05/09`. */
  function SEF(l: Option<Load>, s: Option<Stack>): ControlFunction
  {
    var n := match l.GetOr(Load.None)
      case None => 0
      case Bin(bin) => bin;
    var m := match s.GetOr(Stack.None)
      case None => 0
      case Stacker(stacker) => stacker;
    Sequence(IntermediateId(5, 9), [n, m])
  }

  /** `SGR`, SELECT GRAPHIC RENDITION, the control sequence with identifier `06/13`. */
  function SGR(s: Option<seq<GraphicRendition>>): ControlFunction
  {
    var g := s.GetOr([GraphicRendition.Default]);
    Sequence(Id(6, 13), Discriminants(g, (r: GraphicRendition) => r.Value()))
  }

  /** `SHS`, SELECT CHARACTER SPACING, the control sequence with identifier `02/00 04/11`. */
  function SHS(s: Option<CharacterSpacing>): ControlFunction
  {
    Sequence(IntermediateId(4, 11), [s.GetOr(CharacterSpacing.TenCharacters).Value()])
  }

  /** `SIMD`, SELECT IMPLICIT MOVEMENT DIRECTION, the control sequence with identifier `05/14`. */
  function SIMD(s: Option<MovementDirection>): ControlFunction
  {
    Sequence(Id(5, 14), [s.GetOr(MovementDirection.Normal).Value()])
  }

  /** `SL`, SCROLL LEFT, the control sequence with identifier `02/00 04/00`. */
  function SL(n: Option<U32>): ControlFunction
  {
    Sequence(IntermediateId(4, 0), [n.GetOr(1)])
  }

  /** `SLH`, SET LINE HOME, the control sequence with identifier `02/00 05/05`. */
  function SLH(n: U32): ControlFunction
  {
    Sequence(IntermediateId(5, 5), [n])
  }

  /** `SLL`, SET LINE LIMIT, the control sequence with identifier `02/00 05/06`. */
  function SLL(n: U32): ControlFunction
  {
    Sequence(IntermediateId(5, 6), [n])
  }

  /** `SLS`, SET LINE SPACING, the control sequence with identifier `02/00 06/08`. */
  function SLS(n: U32): ControlFunction
  {
    Sequence(IntermediateId(6, 8), [n])
  }

  /** `SM`, SET MODE, the control sequence with identifier `06/08`. */
  function SM(s: seq<Modes.Mode>): ControlFunction
  {
    Sequence(Id(6, 8), Discriminants(s, (m: Modes.Mode) => m.Value()))
  }

  /** `SPD`, SELECT PRESENTATION DIRECTIONS, the control sequence with identifier `02/00 05/03`. */
  function SPD(s: Option<PresentationDirection>, t: Option<PresentationDirectionScope>): ControlFunction
  {
    Sequence(IntermediateId(5, 3), [
      s.GetOr(PresentationDirection.HorizontalLinesTopToBottomLeftToRight).Value(),
      t.GetOr(PresentationDirectionScope.Undefined).Value()
    ])
  }

  /** `SPH`, SET PAGE HOME, the control sequence with identifier `02/00 06/09`. */
  function SPH(n: U32): ControlFunction
  {
    Sequence(IntermediateId(6, 9), [n])
  }

  /** `SPI`, SPACING INCREMENT, the control sequence with identifier `02/00 04/07`. */
  function SPI(l: U32, c: U32): ControlFunction
  {
    Sequence(IntermediateId(4, 7), [l, c])
  }

  /** `SPL`, SET PAGE LIMIT, the control sequence with identifier `02/00 06/10`. */
  function SPL(n: U32): ControlFunction
  {
    Sequence(IntermediateId(6, 10), [n])
  }

  /** `SPQR`, SELECT PRINT QUALITY AND RAPIDITY, the control sequence with identifier `02/00 05/08`. */
  function SPQR(s: Option<PrintQuality>): ControlFunction
  {
    Sequence(IntermediateId(5, 8), [s.GetOr(PrintQuality.HighQualityLowSpeed).Value()])
  }

  /** `SRCS`, SET REDUCED CHARACTER SEPARATION, the control sequence with identifier `02/00 06/06`. */
  function SRCS(n: Option<U32>): ControlFunction
  {
    Sequence(IntermediateId(6, 6), [n.GetOr(0)])
  }

  /** `SRS`, START REVERSED STRING, the control sequence with identifier `05/11`. */
  function SRS(s: Option<ReversedString>): ControlFunction
  {
    Sequence(Id(5, 11), [s.GetOr(ReversedString.End).Value()])
  }

  /** `SSU`, SELECT SIZE UNIT, the control sequence with identifier `02/00 04/09`. */
  function SSU(s: Option<SizeUnit>): ControlFunction
  {
    Sequence(IntermediateId(4, 9), [s.GetOr(SizeUnit.Character).Value()])
  }

  /** `SSW`, SET SPACE WIDTH, the control sequence with identifier `02/00 05/11`. */
  function SSW(n: U32): ControlFunction
  {
    Sequence(IntermediateId(5, 11), [n])
  }

  /** `STAB`, SELECTIVE TABULATION, the control sequence with identifier `02/00 05/14`. */
  function STAB(s: U32): ControlFunction
  {
    Sequence(IntermediateId(5, 14), [s])
  }

  /** `SU`, SCROLL UP, the control sequence with identifier `05/03`. */
  function SU(n: Option<U32>): ControlFunction
  {
    Sequence(Id(5, 3), [n.GetOr(1)])
  }

  /** `SVS`, SELECT LINE SPACING, the control sequence with identifier `02/00 04/12`. */
  function SVS(s: Option<LineSpacing>): ControlFunction
  {
    Sequence(IntermediateId(4, 12), [s.GetOr(LineSpacing.SixLinesPer25).Value()])
  }

  /** `TAC`, TABULATION ALIGNED CENTRED, the control sequence with identifier `02/00 06/02`. */
  function TAC(n: U32): ControlFunction
  {
    Sequence(IntermediateId(6, 2), [n])
  }

  /** `TALE`, TABULATION ALIGNED LEADING EDGE, the control sequence with identifier `02/00 06/01`. */
  function TALE(n: U32): ControlFunction
  {
    Sequence(IntermediateId(6, 1), [n])
  }

  /** `TATE`, TABULATION ALIGNED TRAILING EDGE, the control sequence with identifier `02/00 06/00`. */
  function TATE(n: U32): ControlFunction
  {
    Sequence(IntermediateId(6, 0), [n])
  }

  /** `TBC`, TABULATION CLEAR, the control sequence with identifier `06/07`. */
  function TBC(s: Option<ClearTabulation>): ControlFunction
  {
    Sequence(Id(6, 7), [s.GetOr(ClearTabulation.CharacterTabulationStopActivePosition).Value()])
  }

  /** `TCC`, TABULATION CENTRED ON CHARACTER, the control sequence with identifier `02/00 06/03`. */
  function TCC(n: U32, m: Option<U32>): ControlFunction
  {
    var k := m.GetOr(32);
    Sequence(IntermediateId(6, 3), [n, k])
  }

  /** `TSR`, TABULATION STOP REMOVE, the control sequence with identifier `02/00 06/04`. */
  function TSR(n: U32): ControlFunction
  {
    Sequence(IntermediateId(6, 4), [n])
  }

  /** `TSS`, THIN SPACE SPECIFICATION, the control sequence with identifier `02/00 04/05`. */
  function TSS(n: U32): ControlFunction
  {
    Sequence(IntermediateId(4, 5), [n])
  }

  /** `VPA`, LINE POSITION ABSOLUTE, the control sequence with identifier `06/04`. */
  function VPA(n: Option<U32>): ControlFunction
  {
    Sequence(Id(6, 4), [n.GetOr(1)])
  }

  /** `VPB`, LINE POSITION BACKWARD, the control sequence with identifier `06/11`. */
  function VPB(n: Option<U32>): ControlFunction
  {
    Sequence(Id(6, 11), [n.GetOr(1)])
  }

  /** `VPR`, LINE POSITION FORWARD, the control sequence with identifier `06/05`. */
  function VPR(n: Option<U32>): ControlFunction
  {
    Sequence(Id(6, 5), [n.GetOr(1)])
  }

  // ---- What each arm of `sequence!` produces ------------------------------------------------------

  /** A numeric parameter with a default: `None` stands for the default, `Some(n)` for `n`. */
  lemma NumericWithDefault(n: Option<U32>)
    ensures Encodes(CBT(n), "Z", [if n.Some? then n.value else 1])
    ensures Encodes(CHA(n), "G", [if n.Some? then n.value else 1])
    ensures Encodes(CHT(n), "I", [if n.Some? then n.value else 1])
    ensures Encodes(CNL(n), "E", [if n.Some? then n.value else 1])
    ensures Encodes(CPL(n), "F", [if n.Some? then n.value else 1])
    ensures Encodes(CUB(n), "D", [if n.Some? then n.value else 1])
    ensures Encodes(CUD(n), "B", [if n.Some? then n.value else 1])
    ensures Encodes(CUF(n), "C", [if n.Some? then n.value else 1])
    ensures Encodes(CUU(n), "A", [if n.Some? then n.value else 1])
    ensures Encodes(CVT(n), "Y", [if n.Some? then n.value else 1])
    ensures Encodes(DCH(n), "P", [if n.Some? then n.value else 1])
    ensures Encodes(DL(n), "M", [if n.Some? then n.value else 1])
    ensures Encodes(ECH(n), "X", [if n.Some? then n.value else 1])
    ensures Encodes(HPA(n), "`", [if n.Some? then n.value else 1])
    ensures Encodes(HPB(n), "j", [if n.Some? then n.value else 1])
    ensures Encodes(HPR(n), "a", [if n.Some? then n.value else 1])
    ensures Encodes(ICH(n), "@", [if n.Some? then n.value else 1])
    ensures Encodes(IL(n), "L", [if n.Some? then n.value else 1])
    ensures Encodes(NP(n), "U", [if n.Some? then n.value else 1])
    ensures Encodes(PP(n), "V", [if n.Some? then n.value else 1])
    ensures Encodes(REP(n), "b", [if n.Some? then n.value else 1])
    ensures Encodes(SD(n), "T", [if n.Some? then n.value else 1])
    ensures Encodes(SU(n), "S", [if n.Some? then n.value else 1])
    ensures Encodes(VPA(n), "d", [if n.Some? then n.value else 1])
    ensures Encodes(VPB(n), "k", [if n.Some? then n.value else 1])
    ensures Encodes(VPR(n), "e", [if n.Some? then n.value else 1])
  {
  }

  /** Two numeric parameters, each with its own default. */
  lemma TwoNumericWithDefaults(n: Option<U32>, m: Option<U32>)
    ensures Encodes(CPR(n, m), "R", [if n.Some? then n.value else 1, if m.Some? then m.value else 1])
    ensures Encodes(CUP(n, m), "H", [if n.Some? then n.value else 1, if m.Some? then m.value else 1])
    ensures Encodes(HVP(n, m), "f", [if n.Some? then n.value else 1, if m.Some? then m.value else 1])
  {
  }

  /** A selective parameter of an editing function: the discriminant of the choice, and 0, the default choice, for `None`. */
  lemma SelectiveEditing()
    ensures forall s :: Encodes(DAQ(s), "o", [if s.Some? then s.value.Value() else 0])
    ensures forall s :: Encodes(EA(s), "O", [if s.Some? then s.value.Value() else 0])
    ensures forall s :: Encodes(ED(s), "J", [if s.Some? then s.value.Value() else 0])
    ensures forall s :: Encodes(EF(s), "N", [if s.Some? then s.value.Value() else 0])
    ensures forall s :: Encodes(EL(s), "K", [if s.Some? then s.value.Value() else 0])
    ensures forall s :: Encodes(SEE(s), "Q", [if s.Some? then s.value.Value() else 0])
  {
  }

  /** A selective parameter of a tabulation function, 0 for `None`. */
  lemma SelectiveTabulation()
    ensures forall s :: Encodes(CTC(s), "W", [if s.Some? then s.value.Value() else 0])
    ensures forall s :: Encodes(TBC(s), "g", [if s.Some? then s.value.Value() else 0])
  {
  }

  /** A selective parameter of a device function, 0 for `None`. */
  lemma SelectiveDevice()
    ensures forall s :: Encodes(DSR(s), "n", [if s.Some? then s.value.Value() else 0])
    ensures forall s :: Encodes(MC(s), "i", [if s.Some? then s.value.Value() else 0])
  {
  }

  /** A selective parameter of a presentation function, 0 for `None`. */
  lemma SelectivePresentation()
    ensures forall s :: Encodes(PTX(s), "\\", [if s.Some? then s.value.Value() else 0])
    ensures forall s :: Encodes(SDS(s), "]", [if s.Some? then s.value.Value() else 0])
    ensures forall s :: Encodes(SIMD(s), "^", [if s.Some? then s.value.Value() else 0])
    ensures forall s :: Encodes(SRS(s), "[", [if s.Some? then s.value.Value() else 0])
  {
  }

  /** A selective layout parameter after the intermediate byte `02/00`, 0 for `None`. */
  lemma IntermediateSelectiveLayout()
    ensures forall s :: Encodes(JFY(s), " F", [if s.Some? then s.value.Value() else 0])
    ensures forall s :: Encodes(PFS(s), " J", [if s.Some? then s.value.Value() else 0])
    ensures forall s :: Encodes(QUAD(s), " H", [if s.Some? then s.value.Value() else 0])
    ensures forall s :: Encodes(SSU(s), " I", [if s.Some? then s.value.Value() else 0])
    ensures forall s :: Encodes(SVS(s), " L", [if s.Some? then s.value.Value() else 0])
  {
  }

  /** A selective character-imaging parameter after the intermediate byte, 0 for `None`. */
  lemma IntermediateSelectiveCharacters()
    ensures forall s :: Encodes(GCC(s), " _", [if s.Some? then s.value.Value() else 0])
    ensures forall s :: Encodes(PEC(s), " Z", [if s.Some? then s.value.Value() else 0])
    ensures forall s :: Encodes(SAPV(s), " ]", [if s.Some? then s.value.Value() else 0])
    ensures forall s :: Encodes(SCO(s), " e", [if s.Some? then s.value.Value() else 0])
    ensures forall s :: Encodes(SHS(s), " K", [if s.Some? then s.value.Value() else 0])
    ensures forall s :: Encodes(SPQR(s), " X", [if s.Some? then s.value.Value() else 0])
  {
  }

  /** Two selective parameters after the intermediate byte. */
  lemma IntermediateTwoSelectiveWithDefaults()
    ensures forall s, t :: Encodes(SPD(s, t), " S", [if s.Some? then s.value.Value() else 0, if t.Some? then t.value.Value() else 0])
  {
  }

  /** One mandatory numeric parameter after the intermediate byte. */
  lemma IntermediateNumeric(n: U32)
    ensures Encodes(FNK(n), " W", [n])
    ensures Encodes(GSS(n), " C", [n])
    ensures Encodes(IGS(n), " M", [n])
    ensures Encodes(SCS(n), " g", [n])
    ensures Encodes(SLH(n), " U", [n])
    ensures Encodes(SLL(n), " V", [n])
    ensures Encodes(SLS(n), " h", [n])
    ensures Encodes(SPH(n), " i", [n])
    ensures Encodes(SPL(n), " j", [n])
    ensures Encodes(SSW(n), " [", [n])
    ensures Encodes(STAB(n), " ^", [n])
    ensures Encodes(TAC(n), " b", [n])
    ensures Encodes(TALE(n), " a", [n])
    ensures Encodes(TATE(n), " `", [n])
    ensures Encodes(TSR(n), " d", [n])
    ensures Encodes(TSS(n), " E", [n])
  {
  }

  /** A numeric parameter with a default after the intermediate byte. */
  lemma IntermediateNumericWithDefault(n: Option<U32>)
    ensures Encodes(PPA(n), " P", [if n.Some? then n.value else 1])
    ensures Encodes(PPB(n), " R", [if n.Some? then n.value else 1])
    ensures Encodes(PPR(n), " Q", [if n.Some? then n.value else 1])
    ensures Encodes(SACS(n), " \\", [if n.Some? then n.value else 0])
    ensures Encodes(SL(n), " @", [if n.Some? then n.value else 1])
    ensures Encodes(SRCS(n), " f", [if n.Some? then n.value else 0])
  {
  }

  /** Two mandatory numeric parameters after the intermediate byte. */
  lemma IntermediateTwoNumeric(n: U32, m: U32)
    ensures Encodes(DTA(n, m), " T", [n, m])
    ensures Encodes(SPI(n, m), " G", [n, m])
  {
  }

  /** Two numeric parameters with defaults after the intermediate byte. */
  lemma IntermediateTwoNumericWithDefaults(n: Option<U32>, m: Option<U32>)
    ensures Encodes(GSM(n, m), " B", [if n.Some? then n.value else 100, if m.Some? then m.value else 100])
  {
  }

  // ---- Builders that compute their parameters ------------------------------------------------------

  /** `DA`: no argument and `Request` both ask with 0; `Identify(x)` answers with `x`. */
  lemma DAParameters(x: U32)
    ensures Encodes(DA(Option.None), "c", [0])
    ensures Encodes(DA(Some(Request)), "c", [0])
    ensures Encodes(DA(Some(Identify(x))), "c", [x])
  {
  }

  /** `FNT`: the font's discriminant (`Primary`, 0, when absent) and the font number (0 when absent). */
  lemma FNTParameters()
    ensures forall s, t :: Encodes(FNT(s, t), " D", [if s.Some? then s.value.Value() else 0, if t.Some? then t.value else 0])
  {
  }

  /** `IDCS`: `Diagnostic` is 1, `DynamicallyRedefinableCharacterSet` is 2, `Private(i)` is `i`. */
  lemma IDCSParameters(i: U32)
    ensures Encodes(IDCS(Diagnostic), " O", [1])
    ensures Encodes(IDCS(DynamicallyRedefinableCharacterSet), " O", [2])
    ensures Encodes(IDCS(Private(i)), " O", [i])
  {
  }

  /** `SEF`: the bin and the stacker, each 0 when absent or `None`. */
  lemma SEFParameters()
    ensures forall l, s :: Encodes(SEF(l, s), " Y", [
      if l.Some? && l.value.Bin? then l.value.bin else 0,
      if s.Some? && s.value.Stacker? then s.value.stacker else 0])
  {
  }

  /** `SCP`: the character path (left-to-right is 1, right-to-left 2) and its scope. */
  lemma SCPParameters()
    ensures forall s, t :: Encodes(SCP(s, t), " k", [s.Value(), t.Value()])
    ensures CharacterPath.LefToRight.Value() == 1 && CharacterPath.RightToLeft.Value() == 2
  {
  }

  /** `TCC`: the position and the character, 32 (SPACE) when absent. */
  lemma TCCParameters()
    ensures forall n: U32, m: Option<U32> :: Encodes(TCC(n, m), " c", [n, if m.Some? then m.value else 32])
  {
  }

  /**
   * `SGR`: no argument selects the default rendition 0; a list gives one parameter per rendition, in order, and
   * an empty list gives no parameter at all.
   */
  lemma SGRParameters()
    ensures Encodes(SGR(Option.None), "m", [0])
    ensures forall v :: Encodes(SGR(Some(v)), "m", Discriminants(v, (r: GraphicRendition) => r.Value()))
    ensures SGR(Some([])).parameters == []
  {
  }

  /** `SM` and `RM`: one parameter per mode, in order; they differ only in the final byte. */
  lemma ModeSequenceParameters()
    ensures forall v :: Encodes(SM(v), "h", Discriminants(v, (m: Modes.Mode) => m.Value()))
    ensures forall v :: Encodes(RM(v), "l", Discriminants(v, (m: Modes.Mode) => m.Value()))
    ensures SM([]).parameters == [] && RM([]).parameters == []
  {
  }

  // ---- SCROLL RIGHT ------------------------------------------------------------------------------

  /** `SR` as the source builds it, on `02/00 05/08`, the identifier of `SPQR`. */
  function SRAsWritten(n: Option<U32>): ControlFunction {
    Sequence(IntermediateId(5, 8), [n.GetOr(1)])
  }

  /** As written, `SR(Some(q))` cannot be told apart from `SPQR` selecting print quality `q`. */
  lemma SRAsWrittenCollidesWithSPQR()
    ensures SRAsWritten(Some(0)) == SPQR(Option.None)
    ensures forall s: PrintQuality :: SRAsWritten(Some(s.Value())) == SPQR(Some(s))
  {
    forall s: PrintQuality
      ensures SRAsWritten(Some(s.Value())) == SPQR(Some(s))
    {
      EncodesDetermines(SRAsWritten(Some(s.Value())), SPQR(Some(s)), " X", [s.Value()]);
    }
    EncodesDetermines(SRAsWritten(Some(0)), SPQR(Option.None), " X", [0]);
  }

  /** `SR`, SCROLL RIGHT, on the identifier ECMA-48 gives it, `02/00 04/01`. */
  function SR(n: Option<U32>): ControlFunction {
    Sequence(IntermediateId(4, 1), [n.GetOr(1)])
  }

  /** `SR` has its own identifier, so it never equals any `SPQR`, and its one parameter defaults to 1. */
  lemma SRParameters(n: Option<U32>)
    ensures Encodes(SR(n), " A", [if n.Some? then n.value else 1])
    ensures forall s :: SR(n) != SPQR(s)
  {
  }

  /** The builders from `CBT` to `DAQ` all produce well-formed control sequences. */
  lemma BuildersValidCBTToDAQ()
    ensures forall n: Option<U32> :: Valid(CBT(n))
    ensures forall n: Option<U32> :: Valid(CHA(n))
    ensures forall n: Option<U32> :: Valid(CHT(n))
    ensures forall n: Option<U32> :: Valid(CNL(n))
    ensures forall n: Option<U32> :: Valid(CPL(n))
    ensures forall n: Option<U32>, m: Option<U32> :: Valid(CPR(n, m))
    ensures forall s: Option<TabulationControl> :: Valid(CTC(s))
    ensures forall n: Option<U32> :: Valid(CUB(n))
    ensures forall n: Option<U32> :: Valid(CUD(n))
    ensures forall n: Option<U32> :: Valid(CUF(n))
    ensures forall n: Option<U32>, m: Option<U32> :: Valid(CUP(n, m))
    ensures forall n: Option<U32> :: Valid(CUU(n))
    ensures forall n: Option<U32> :: Valid(CVT(n))
    ensures forall s: Option<DeviceAttributes> :: Valid(DA(s))
    ensures forall s: Option<AreaQualification> :: Valid(DAQ(s))
  {
  }

  /** The builders from `DCH` to `HPA` all produce well-formed control sequences. */
  lemma BuildersValidDCHToHPA()
    ensures forall n: Option<U32> :: Valid(DCH(n))
    ensures forall n: Option<U32> :: Valid(DL(n))
    ensures forall s: Option<DeviceStatusReport> :: Valid(DSR(s))
    ensures forall n: U32, m: U32 :: Valid(DTA(n, m))
    ensures forall s: Option<EraseArea> :: Valid(EA(s))
    ensures forall n: Option<U32> :: Valid(ECH(n))
    ensures forall s: Option<ErasePage> :: Valid(ED(s))
    ensures forall s: Option<EraseField> :: Valid(EF(s))
    ensures forall s: Option<EraseLine> :: Valid(EL(s))
    ensures forall n: U32 :: Valid(FNK(n))
    ensures forall s: Option<Font>, t: Option<U32> :: Valid(FNT(s, t))
    ensures forall s: Option<GraphicCharacterCombination> :: Valid(GCC(s))
    ensures forall h: Option<U32>, w: Option<U32> :: Valid(GSM(h, w))
    ensures forall n: U32 :: Valid(GSS(n))
    ensures forall n: Option<U32> :: Valid(HPA(n))
  {
  }

  /** The builders from `HPB` to `PPB` all produce well-formed control sequences. */
  lemma BuildersValidHPBToPPB()
    ensures forall n: Option<U32> :: Valid(HPB(n))
    ensures forall n: Option<U32> :: Valid(HPR(n))
    ensures forall n: Option<U32>, m: Option<U32> :: Valid(HVP(n, m))
    ensures forall n: Option<U32> :: Valid(ICH(n))
    ensures forall s: IdentifyDeviceControlString :: Valid(IDCS(s))
    ensures forall n: U32 :: Valid(IGS(n))
    ensures forall n: Option<U32> :: Valid(IL(n))
    ensures forall s: Option<Justification> :: Valid(JFY(s))
    ensures forall s: Option<MediaCopy> :: Valid(MC(s))
    ensures forall n: Option<U32> :: Valid(NP(n))
    ensures forall s: Option<PresentationExpandContract> :: Valid(PEC(s))
    ensures forall s: Option<PageFormat> :: Valid(PFS(s))
    ensures forall n: Option<U32> :: Valid(PP(n))
    ensures forall n: Option<U32> :: Valid(PPA(n))
    ensures forall n: Option<U32> :: Valid(PPB(n))
  {
  }

  /** The builders from `PPR` to `SGR` all produce well-formed control sequences. */
  lemma BuildersValidPPRToSGR()
    ensures forall n: Option<U32> :: Valid(PPR(n))
    ensures forall s: Option<ParallelText> :: Valid(PTX(s))
    ensures forall s: Option<Alignment> :: Valid(QUAD(s))
    ensures forall n: Option<U32> :: Valid(REP(n))
    ensures forall v: seq<Modes.Mode> :: Valid(RM(v))
    ensures forall n: Option<U32> :: Valid(SACS(n))
    ensures forall s: Option<PresentationVariant> :: Valid(SAPV(s))
    ensures forall s: Option<CharacterOrientation> :: Valid(SCO(s))
    ensures forall s: CharacterPath, t: CharacterPathScope :: Valid(SCP(s, t))
    ensures forall n: U32 :: Valid(SCS(n))
    ensures forall n: Option<U32> :: Valid(SD(n))
    ensures forall s: Option<StringDirection> :: Valid(SDS(s))
    ensures forall s: Option<EditingExtend> :: Valid(SEE(s))
    ensures forall l: Option<Load>, s: Option<Stack> :: Valid(SEF(l, s))
    ensures forall s: Option<seq<GraphicRendition>> :: Valid(SGR(s))
  {
  }

  /** The builders from `SHS` to `SSU` all produce well-formed control sequences. */
  lemma BuildersValidSHSToSSU()
    ensures forall s: Option<CharacterSpacing> :: Valid(SHS(s))
    ensures forall s: Option<MovementDirection> :: Valid(SIMD(s))
    ensures forall n: Option<U32> :: Valid(SL(n))
    ensures forall n: U32 :: Valid(SLH(n))
    ensures forall n: U32 :: Valid(SLL(n))
    ensures forall n: U32 :: Valid(SLS(n))
    ensures forall s: seq<Modes.Mode> :: Valid(SM(s))
    ensures forall s: Option<PresentationDirection>, t: Option<PresentationDirectionScope> :: Valid(SPD(s, t))
    ensures forall n: U32 :: Valid(SPH(n))
    ensures forall l: U32, c: U32 :: Valid(SPI(l, c))
    ensures forall n: U32 :: Valid(SPL(n))
    ensures forall s: Option<PrintQuality> :: Valid(SPQR(s))
    ensures forall n: Option<U32> :: Valid(SRCS(n))
    ensures forall s: Option<ReversedString> :: Valid(SRS(s))
    ensures forall s: Option<SizeUnit> :: Valid(SSU(s))
  {
  }

  /** The builders from `SSW` to `VPR` all produce well-formed control sequences. */
  lemma BuildersValidSSWToVPR()
    ensures forall n: U32 :: Valid(SSW(n))
    ensures forall s: U32 :: Valid(STAB(s))
    ensures forall n: Option<U32> :: Valid(SU(n))
    ensures forall s: Option<LineSpacing> :: Valid(SVS(s))
    ensures forall n: U32 :: Valid(TAC(n))
    ensures forall n: U32 :: Valid(TALE(n))
    ensures forall n: U32 :: Valid(TATE(n))
    ensures forall s: Option<ClearTabulation> :: Valid(TBC(s))
    ensures forall n: U32, m: Option<U32> :: Valid(TCC(n, m))
    ensures forall n: U32 :: Valid(TSR(n))
    ensures forall n: U32 :: Valid(TSS(n))
    ensures forall n: Option<U32> :: Valid(VPA(n))
    ensures forall n: Option<U32> :: Valid(VPB(n))
    ensures forall n: Option<U32> :: Valid(VPR(n))
  {
  }

  /** SCROLL RIGHT, on its own identifier, produces a well-formed control sequence too. */
  lemma SRValid(n: Option<U32>)
    ensures Valid(SR(n))
  {
  }
}
