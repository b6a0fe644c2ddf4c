/**
 * `Mode::set` and `Mode::reset` of src/modes.rs: SET MODE and RESET MODE applied to a single mode, and the
 * reading of such a sequence back into the mode and the direction it sets.
 */
module ModeSetting {
  import opened Wrappers
  import opened Characters
  import opened Strings
  import opened ControlFunctions
  import opened Modes
  import ControlSequences

  /** `m.set()`: SET MODE with the one parameter `m`, written `ESC [ <m> h`. */
  function Set(m: Mode): (f: ControlFunction)
    ensures ControlSequences.Encodes(f, "h", [m.Value()])
    ensures Render(f) == [ESCAPE, CSI_FINAL] + Decimal(m.Value()) + "h"
  {
    var f := ControlSequences.SM([m]);
    assert f.parameters == [Decimal(m.Value())];
    f
  }

  /** `m.reset()`: RESET MODE with the one parameter `m`, written `ESC [ <m> l`. */
  function Reset(m: Mode): (f: ControlFunction)
    ensures ControlSequences.Encodes(f, "l", [m.Value()])
    ensures Render(f) == [ESCAPE, CSI_FINAL] + Decimal(m.Value()) + "l"
  {
    var f := ControlSequences.RM([m]);
    assert f.parameters == [Decimal(m.Value())];
    f
  }

  /** Setting and resetting a mode are written alike up to the final byte, `h` against `l`. */
  lemma SetAndResetDifferInFinalByte(m: Mode)
    ensures |Render(Set(m))| == |Render(Reset(m))|
    ensures Render(Set(m))[..|Render(Set(m))| - 1] == Render(Reset(m))[..|Render(Reset(m))| - 1]
    ensures Render(Set(m))[|Render(Set(m))| - 1] == 'h' && Render(Reset(m))[|Render(Reset(m))| - 1] == 'l'
  {
    var p := [ESCAPE, CSI_FINAL] + Decimal(m.Value());
    assert Render(Set(m)) == p + "h";
    assert Render(Reset(m)) == p + "l";
  }

  /**
   * Reads a control function as a mode setting: SET MODE (`true`) or RESET MODE (`false`) with exactly one
   * parameter, written canonically, that names a mode.
   */
  function Setting(f: ControlFunction): Option<(Mode, bool)> {
    if f.functionType == ControlSequence && f.value in {"h", "l"} && |f.parameters| == 1
      && IsCanonicalDecimal(f.parameters[0])
    then
      match FromValue(DecimalValue(f.parameters[0]))
      case Some(m) => Some((m, f.value == "h"))
      case None => None
    else None
  }

  /** `set` and `reset` are read back as the mode and the direction they were built from. */
  lemma SettingOfSetAndReset(m: Mode)
    ensures Setting(Set(m)) == Some((m, true))
    ensures Setting(Reset(m)) == Some((m, false))
  {
    ValueRoundTrip(m);
  }

  /** Conversely, whatever reads as a mode setting is exactly `set` or `reset` of that mode. */
  lemma SettingIsSetOrReset(f: ControlFunction)
    requires Setting(f).Some?
    ensures Setting(f).value.1 ==> f == Set(Setting(f).value.0)
    ensures !Setting(f).value.1 ==> f == Reset(Setting(f).value.0)
  {
    var v := DecimalValue(f.parameters[0]);
    var m := Setting(f).value.0;
    FromValueInverse(v);
    assert m.Value() == v;
    if f.value == "h" {
      ControlSequences.EncodesDetermines(f, Set(m), "h", [v]);
    } else {
      ControlSequences.EncodesDetermines(f, Reset(m), "l", [v]);
    }
  }
}
