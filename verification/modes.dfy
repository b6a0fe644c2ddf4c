/**
 * The modes of src/modes.rs that SET MODE and RESET MODE switch, with their ECMA-48 parameter values and the
 * abbreviations the standard gives them.
 */
module Modes {
  import opened Wrappers

  /** A device mode; its discriminant is the parameter value ECMA-48 assigns to it. */
  datatype Mode =
    | GuardedAreaTransferMode | KeyboardActionMode | ControlPresentationMode | InsertionReplacementMode
    | StatusReportTransferMode | ErasureMode | LineEditingMode | BiDirectionalSupportMode
    | DeviceComponentSelectMode | CharacterEditingMode | PositioningUnitMode | SendReceiveMode
    | FormatEffectorActionMode | FormatEffectorTransferMode | MultipleAreaTransferMode | TransferTerminationMode
    | SelectedAreaTransferMode | TabulationStopMode | GraphicRenditionCombinationMode | ZeroDefaultMode
  {
    /** The discriminant, `as u32`. */
    function Value(): nat {
      match this
      case GuardedAreaTransferMode => 1
      case KeyboardActionMode => 2
      case ControlPresentationMode => 3
      case InsertionReplacementMode => 4
      case StatusReportTransferMode => 5
      case ErasureMode => 6
      case LineEditingMode => 7
      case BiDirectionalSupportMode => 8
      case DeviceComponentSelectMode => 9
      case CharacterEditingMode => 10
      case PositioningUnitMode => 11
      case SendReceiveMode => 12
      case FormatEffectorActionMode => 13
      case FormatEffectorTransferMode => 14
      case MultipleAreaTransferMode => 15
      case TransferTerminationMode => 16
      case SelectedAreaTransferMode => 17
      case TabulationStopMode => 18
      case GraphicRenditionCombinationMode => 21
      case ZeroDefaultMode => 22
    }
  }

  const GATM: Mode := GuardedAreaTransferMode
  const KAM: Mode := KeyboardActionMode
  const CRM: Mode := ControlPresentationMode
  const IRM: Mode := InsertionReplacementMode
  const SRTM: Mode := StatusReportTransferMode
  const ERM: Mode := ErasureMode
  const VEM: Mode := LineEditingMode
  const BDSM: Mode := BiDirectionalSupportMode
  const DCSM: Mode := DeviceComponentSelectMode
  const HEM: Mode := CharacterEditingMode
  const PUM: Mode := PositioningUnitMode
  const SRM: Mode := SendReceiveMode
  const FEAM: Mode := FormatEffectorActionMode
  const FETM: Mode := FormatEffectorTransferMode
  const MATM: Mode := MultipleAreaTransferMode
  const TTM: Mode := TransferTerminationMode
  const SATM: Mode := SelectedAreaTransferMode
  const TSM: Mode := TabulationStopMode
  const GRCM: Mode := GraphicRenditionCombinationMode
  const ZDM: Mode := ZeroDefaultMode

  /** Reads a parameter value back into the mode it denotes. */
  function FromValue(n: int): Option<Mode> {
    if n == 1 then Some(GuardedAreaTransferMode) else if n == 2 then Some(KeyboardActionMode)
    else if n == 3 then Some(ControlPresentationMode) else if n == 4 then Some(InsertionReplacementMode)
    else if n == 5 then Some(StatusReportTransferMode) else if n == 6 then Some(ErasureMode)
    else if n == 7 then Some(LineEditingMode) else if n == 8 then Some(BiDirectionalSupportMode)
    else if n == 9 then Some(DeviceComponentSelectMode) else if n == 10 then Some(CharacterEditingMode)
    else if n == 11 then Some(PositioningUnitMode) else if n == 12 then Some(SendReceiveMode)
    else if n == 13 then Some(FormatEffectorActionMode) else if n == 14 then Some(FormatEffectorTransferMode)
    else if n == 15 then Some(MultipleAreaTransferMode) else if n == 16 then Some(TransferTerminationMode)
    else if n == 17 then Some(SelectedAreaTransferMode) else if n == 18 then Some(TabulationStopMode)
    else if n == 21 then Some(GraphicRenditionCombinationMode) else if n == 22 then Some(ZeroDefaultMode) else Option.None
  }

  /** Every mode reads back from its value. */
  lemma ValueRoundTrip(m: Mode)
    ensures FromValue(m.Value()) == Some(m)
  {
  }

  /**
   * The values run from 1 (GATM) to 18 (TSM), then 21 (GRCM) and 22 (ZDM); a value that reads back denotes the
   * mode it reads as.
   */
  lemma FromValueInverse(n: int)
    ensures FromValue(n).Some? <==> 1 <= n <= 18 || n == 21 || n == 22
    ensures FromValue(n).Some? ==> FromValue(n).value.Value() == n
  {
  }

  /** The abbreviations of the modes whose parameter values lie between 1 and 9. */
  lemma AbbreviationValues1To9()
    ensures GATM.Value() == 1
    ensures KAM.Value() == 2
    ensures CRM.Value() == 3
    ensures IRM.Value() == 4
    ensures SRTM.Value() == 5
    ensures ERM.Value() == 6
    ensures VEM.Value() == 7
    ensures BDSM.Value() == 8
    ensures DCSM.Value() == 9
  {
  }

  /** The abbreviations of the modes whose parameter values lie between 10 and 22. */
  lemma AbbreviationValues10To22()
    ensures HEM.Value() == 10
    ensures PUM.Value() == 11
    ensures SRM.Value() == 12
    ensures FEAM.Value() == 13
    ensures FETM.Value() == 14
    ensures MATM.Value() == 15
    ensures TTM.Value() == 16
    ensures SATM.Value() == 17
    ensures TSM.Value() == 18
    ensures GRCM.Value() == 21
    ensures ZDM.Value() == 22
  {
  }
}
