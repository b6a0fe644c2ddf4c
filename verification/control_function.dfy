/**
 * The control-function value of src/lib.rs: its four kinds, the private-use constructor, the rendering
 * to text (`Display`), the byte notation of `Debug`, and comparison with strings (`PartialEq<AsRef<str>>`).
 */
module ControlFunctions {
  import opened Wrappers
  import opened Characters
  import opened Strings

  /** Why `private_use` refused a function identifier. */
  datatype InvalidControlFunction =
    | InvalidAsciiError
    | InvalidFunctionValueError
    | InvalidIntermediateByteError
    | InvalidPrivateUseError

  /** The four families of control functions, which differ in how they are written out. */
  datatype ControlFunctionType = C0 | C1 | ControlSequence | IndependentControlFunction

  /**
   * A control function: its family, the one or two characters identifying it (`value`), and the
   * parameters of a control sequence, already rendered as text.
   */
  datatype ControlFunction = ControlFunction(functionType: ControlFunctionType, value: string, parameters: seq<string>)

  /** ESCAPE, `01/11`, which introduces every C1 and independent control function. */
  const ESCAPE: char := Ascii(1, 11)
  /** The final byte of CONTROL SEQUENCE INTRODUCER, `05/11`. */
  const CSI_FINAL: char := Ascii(5, 11)
  /** The one intermediate byte the library supports, `02/00`. */
  const INTERMEDIATE: char := Ascii(2, 0)
  /** The parameter separator, `03/11`. */
  const SEPARATOR: char := Ascii(3, 11)

  /** `new_c0`: a C0 function, which never has parameters. */
  function NewC0(value: string): ControlFunction {
    ControlFunction(C0, value, [])
  }

  /** `new_c1`: a C1 function, which never has parameters. */
  function NewC1(value: string): ControlFunction {
    ControlFunction(C1, value, [])
  }

  /** `new_sequence`: a control sequence with its identifier and parameters. */
  function NewSequence(value: string, parameters: seq<string>): ControlFunction {
    ControlFunction(ControlSequence, value, parameters)
  }

  /** `new_independent_control_function`: an independent function, which never has parameters. */
  function NewIndependent(value: string): ControlFunction {
    ControlFunction(IndependentControlFunction, value, [])
  }

  /** The one- or two-character identifiers ECMA-48 reserves for private use: `07/xx`, optionally after `02/00`. */
  predicate IsPrivateUseValue(value: string) {
    || (|value| == 1 && 0x70 <= value[0] as int <= 0x7F)
    || (|value| == 2 && value[0] == ' ' && 0x70 <= value[1] as int <= 0x7F)
  }

  /**
   * `ControlFunction::private_use`: a control sequence with a caller-chosen identifier, checked in the
   * source's order (7-bit, then length, then intermediate byte, then the private-use column). The source
   * slices the first character unconditionally, so an empty identifier is outside its domain.
   */
  function PrivateUse(value: string, parameters: seq<string>): (r: Result<ControlFunction, InvalidControlFunction>)
    requires |value| >= 1
    ensures r.Ok? <==> IsPrivateUseValue(value)
    ensures r.Ok? ==> r.value == ControlFunction(ControlSequence, value, parameters)
    ensures r == Err(InvalidAsciiError) <==> !IsAsciiString(value)
    ensures r == Err(InvalidFunctionValueError) <==> IsAsciiString(value) && |value| > 2
    ensures r == Err(InvalidIntermediateByteError) <==> IsAsciiString(value) && |value| == 2 && value[0] != ' '
  {
    if !IsAsciiString(value) then Err(InvalidAsciiError)
    else
      AsciiBytes(value);
      if Utf8Len(value) > 2 then Err(InvalidFunctionValueError)
      else if Utf8Len(value) == 2 && value[0] != INTERMEDIATE then Err(InvalidIntermediateByteError)
      else
        var functionValue := if Utf8Len(value) == 2 then value[1] else value[0];
        if Column(functionValue) != 7 then Err(InvalidPrivateUseError)
        else Ok(ControlFunction(ControlSequence, value, parameters))
  }

  /** `format_parameters`: the parameters joined with `03/11`. */
  function FormatParameters(parameters: seq<string>): string {
    Join(parameters, SEPARATOR)
  }

  /**
   * `Display`: a C0 function is its own character; C1 and independent functions follow ESCAPE; a control
   * sequence is CSI, the formatted parameters, then the identifier.
   */
  function Render(f: ControlFunction): string {
    match f.functionType
    case C0 => f.value
    case C1 => [ESCAPE] + f.value
    case IndependentControlFunction => [ESCAPE] + f.value
    case ControlSequence => [ESCAPE, CSI_FINAL] + FormatParameters(f.parameters) + f.value
  }

  /**
   * What `Display` writes: a C0 function alone, a C1 or independent function after ESCAPE, and a control
   * sequence between CSI and its identifier, with parameters that read back as the formatted ones.
   */
  lemma RenderShape(f: ControlFunction)
    ensures var s := Render(f);
      && (f.functionType == C0 ==> s == f.value)
      && (f.functionType in {C1, IndependentControlFunction} ==> |s| == |f.value| + 1 && s[0] == ESCAPE && s[1..] == f.value)
      && (f.functionType == ControlSequence ==>
        && |s| >= 2 + |f.value|
        && s[..2] == [ESCAPE, CSI_FINAL]
        && s[|s| - |f.value|..] == f.value
        && Join(Split(s[2..|s| - |f.value|], SEPARATOR), SEPARATOR) == FormatParameters(f.parameters))
  {
    if f.functionType == ControlSequence {
      var s := Render(f);
      assert s[2..|s| - |f.value|] == FormatParameters(f.parameters);
      JoinSplit(FormatParameters(f.parameters), SEPARATOR);
    }
  }

  /**
   * The parameters of a rendered control sequence can be read back from the text between CSI and the
   * identifier when none holds a separator; no parameters at all read back as one empty parameter.
   */
  lemma RenderedParameters(f: ControlFunction)
    requires f.functionType == ControlSequence
    requires forall i :: 0 <= i < |f.parameters| ==> SEPARATOR !in f.parameters[i]
    ensures var s := Render(f);
      Split(s[2..|s| - |f.value|], SEPARATOR) == if f.parameters == [] then [""] else f.parameters
  {
    var s := Render(f);
    assert s[2..|s| - |f.value|] == FormatParameters(f.parameters);
    if f.parameters != [] {
      SplitJoin(f.parameters, SEPARATOR);
    }
  }

  /** No parameters and one empty parameter render alike, so text cannot tell them apart. */
  lemma RenderEmptyParameters(value: string)
    ensures Render(NewSequence(value, [])) == Render(NewSequence(value, [""]))
    ensures NewSequence(value, []) != NewSequence(value, [""])
  {
  }

  /**
   * The invariants every control function of the library satisfies: one character (or `02/00` and one
   * character for a control sequence), in the column range of its family, and parameters only on
   * control sequences.
   */
  predicate Valid(f: ControlFunction) {
    match f.functionType
    case C0 => |f.value| == 1 && f.value[0] as int < 0x20 && f.parameters == []
    case C1 => |f.value| == 1 && 0x40 <= f.value[0] as int < 0x60 && f.parameters == []
    case IndependentControlFunction => |f.value| == 1 && 0x60 <= f.value[0] as int < 0x7F && f.parameters == []
    case ControlSequence =>
      && 1 <= |f.value| <= 2
      && (|f.value| == 2 ==> f.value[0] == INTERMEDIATE)
      && 0x40 <= f.value[|f.value| - 1] as int <= 0x7F
  }

  /** Whatever `private_use` accepts is a well-formed control sequence. */
  lemma PrivateUseValid(value: string, parameters: seq<string>)
    requires |value| >= 1
    requires PrivateUse(value, parameters).Ok?
    ensures Valid(PrivateUse(value, parameters).value)
  {
  }

  // ---- Debug ----------------------------------------------------------------------------------------

  /** `format!("{:02}/{:02}", b >> 4, b & 0xF)`: one byte in code-table notation. */
  function ByteNotation(b: Byte): (s: string)
    ensures |s| == 5 && s[2] == '/'
  {
    PadTwo(b / 16) + "/" + PadTwo(b % 16)
  }

  /** The `function` field of `Debug`: the notation of each UTF-8 byte of the identifier, space separated. */
  function DebugFunction(value: string): string {
    Join(Notations(Utf8Bytes(value)), ' ')
  }

  /** The notation of each byte, in order. */
  function Notations(bytes: seq<Byte>): (ns: seq<string>)
    ensures |ns| == |bytes|
    ensures forall i :: 0 <= i < |bytes| ==> ns[i] == ByteNotation(bytes[i])
  {
    if |bytes| == 0 then [] else [ByteNotation(bytes[0])] + Notations(bytes[1..])
  }

  /** Reads one `xx/yy` notation back into the byte it names. */
  function ParseNotation(s: string): Option<Byte> {
    if |s| == 5 && IsDecimal(s[..2]) && s[2] == '/' && IsDecimal(s[3..]) then
      var column := DecimalValue(s[..2]);
      var row := DecimalValue(s[3..]);
      if column < 16 && row < 16 then Some(column * 16 + row) else None
    else None
  }

  /** Reads a space-separated list of notations back into bytes. */
  function ParseNotations(parts: seq<string>): Option<seq<Byte>> {
    if |parts| == 0 then Some([])
    else match (ParseNotation(parts[0]), ParseNotations(parts[1..]))
      case (Some(b), Some(bs)) => Some([b] + bs)
      case _ => None
  }

  /** The notation of a byte names that byte. */
  lemma ByteNotationRoundTrip(b: Byte)
    ensures ParseNotation(ByteNotation(b)) == Some(b)
  {
    var s := ByteNotation(b);
    assert s[..2] == PadTwo(b / 16);
    assert s[3..] == PadTwo(b % 16);
  }

  /** The notations of a list of bytes name those bytes, in order. */
  lemma {:induction false} NotationsRoundTrip(bytes: seq<Byte>)
    ensures ParseNotations(Notations(bytes)) == Some(bytes)
  {
    if |bytes| > 0 {
      ByteNotationRoundTrip(bytes[0]);
      NotationsRoundTrip(bytes[1..]);
      assert Notations(bytes)[1..] == Notations(bytes[1..]);
      assert [bytes[0]] + bytes[1..] == bytes;
    }
  }

  /** A notation is digits and a solidus, never a space. */
  lemma NotationHasNoSpace(b: Byte)
    ensures ' ' !in ByteNotation(b)
  {
    var s := ByteNotation(b);
    var column, row := PadTwo(b / 16), PadTwo(b % 16);
    assert s == column + "/" + row;
    forall k | 0 <= k < 5
      ensures s[k] != ' '
    {
      if k < 2 {
        assert s[k] == column[k];
      } else if k > 2 {
        assert s[k] == row[k - 3];
      }
    }
  }

  /** The `function` field of `Debug` determines the identifier's bytes. */
  lemma DebugFunctionRoundTrip(value: string)
    requires |value| >= 1
    ensures ParseNotations(Split(DebugFunction(value), ' ')) == Some(Utf8Bytes(value))
  {
    var bytes := Utf8Bytes(value);
    var ns := Notations(bytes);
    forall i | 0 <= i < |ns|
      ensures ' ' !in ns[i]
    {
      NotationHasNoSpace(bytes[i]);
    }
    SplitJoin(ns, ' ');
    NotationsRoundTrip(bytes);
  }

  /** For a 7-bit identifier `xx/yy` the `Debug` field reads `xx/yy`. */
  lemma DebugOfAscii(xx: int, yy: int)
    requires 0 <= xx <= 7 && 0 <= yy <= 15
    ensures DebugFunction([Ascii(xx, yy)]) == PadTwo(xx) + "/" + PadTwo(yy)
  {
    NotationIsUnique(Ascii(xx, yy), xx, yy);
    AsciiBytes([Ascii(xx, yy)]);
  }

  // ---- Comparison with strings -----------------------------------------------------------------------

  /**
   * The source compares a C1 or independent function by slicing the first byte off the other string; if
   * that string is a single two-byte character, the slice is not on a character boundary and panics.
   */
  predicate Comparable(f: ControlFunction, other: string) {
    f.functionType in {C1, IndependentControlFunction} ==> !(|other| == 1 && Utf8Len(other) == 2)
  }

  /** `impl PartialEq<T: AsRef<str>> for ControlFunction`. */
  predicate EqualsStr(f: ControlFunction, other: string)
    requires Comparable(f, other)
  {
    match f.functionType
    case C0 => f.value == other
    case C1 => Utf8Len(other) == 2 && other[..1] == [ESCAPE] && other[1..2] == f.value
    case IndependentControlFunction => Utf8Len(other) == 2 && other[..1] == [ESCAPE] && other[1..2] == f.value
    case ControlSequence => Render(f) == other
  }

  /**
   * For every function of the library (a 7-bit one-character identifier, or any control sequence) string
   * equality is exactly equality with the rendered text.
   */
  lemma EqualsStrIsRenderEquality(f: ControlFunction, other: string)
    requires Comparable(f, other)
    requires f.functionType != ControlSequence ==> |f.value| == 1 && IsAscii(f.value[0])
    ensures EqualsStr(f, other) <==> other == Render(f)
  {
    if f.functionType in {C1, IndependentControlFunction} {
      if other == Render(f) {
        assert Utf8Len(other) == CharUtf8Len(other[0]) + Utf8Len(other[1..]);
        Utf8LenOne(other[1..]);
      }
      if Utf8Len(other) == 2 && |other| >= 2 {
        assert Utf8Len(other) == CharUtf8Len(other[0]) + Utf8Len(other[1..]);
        assert |other| == 2;
      }
    }
  }
}
