/**
 * The control strings of src/control_strings.rs: an opening delimiter from the C1 set, a command or character
 * string taken verbatim, and the STRING TERMINATOR `ESC \`.
 */
module ControlStrings {
  import opened Wrappers
  import opened Characters
  import opened ControlFunctions
  import C1

  /** The five C1 functions that open a control string. */
  const Openers: seq<ControlFunction> := [C1.APC, C1.DCS, C1.OSC, C1.PM, C1.SOS]

  /** `format!("{}{}{}", opener, content, ST)`. */
  function Wrap(opener: ControlFunction, content: string): string {
    Render(opener) + content + Render(C1.ST)
  }

  /**
   * Wrapping adds exactly the two characters of the opener in front and the two of `ESC \` behind, whatever
   * the content holds: four characters, and four bytes, since all of them are 7-bit.
   */
  lemma {:induction false} WrapShape(i: int, content: string)
    requires 0 <= i < |Openers|
    ensures var s := Wrap(Openers[i], content);
      && |s| == |content| + 4
      && s[..2] == [ESCAPE, Openers[i].value[0]]
      && s[2..|s| - 2] == content
      && s[|s| - 2..] == [ESCAPE, '\\']
      && Utf8Len(s) == Utf8Len(content) + 4
  {
    C1.NewRenders(5, 15);
    C1.NewRenders(5, 0);
    C1.NewRenders(5, 13);
    C1.NewRenders(5, 14);
    C1.NewRenders(5, 8);
    C1.NewRenders(5, 12);
    var s := Wrap(Openers[i], content);
    var opener := Render(Openers[i]);
    assert s == opener + (content + Render(C1.ST));
    Utf8Concat(opener, content + Render(C1.ST));
    Utf8Concat(content, Render(C1.ST));
  }

  /** `application_program_command`: `ESC _`, the command string, `ESC \`. */
  function ApplicationProgramCommand(commandString: string): (s: string)
    ensures |s| == |commandString| + 4 && Utf8Len(s) == Utf8Len(commandString) + 4
    ensures s[..2] == [ESCAPE, '_'] && s[2..|s| - 2] == commandString && s[|s| - 2..] == [ESCAPE, '\\']
  {
    WrapShape(0, commandString);
    Wrap(C1.APC, commandString)
  }

  /** `device_control_string`: `ESC P`, the control string, `ESC \`. */
  function DeviceControlString(controlString: string): (s: string)
    ensures |s| == |controlString| + 4 && Utf8Len(s) == Utf8Len(controlString) + 4
    ensures s[..2] == [ESCAPE, 'P'] && s[2..|s| - 2] == controlString && s[|s| - 2..] == [ESCAPE, '\\']
  {
    WrapShape(1, controlString);
    Wrap(C1.DCS, controlString)
  }

  /** `operating_system_command`: `ESC ]`, the system command, `ESC \`. */
  function OperatingSystemCommand(systemCommand: string): (s: string)
    ensures |s| == |systemCommand| + 4 && Utf8Len(s) == Utf8Len(systemCommand) + 4
    ensures s[..2] == [ESCAPE, ']'] && s[2..|s| - 2] == systemCommand && s[|s| - 2..] == [ESCAPE, '\\']
  {
    WrapShape(2, systemCommand);
    Wrap(C1.OSC, systemCommand)
  }

  /** `privacy_message`: `ESC ^`, the message, `ESC \`. */
  function PrivacyMessage(message: string): (s: string)
    ensures |s| == |message| + 4 && Utf8Len(s) == Utf8Len(message) + 4
    ensures s[..2] == [ESCAPE, '^'] && s[2..|s| - 2] == message && s[|s| - 2..] == [ESCAPE, '\\']
  {
    WrapShape(3, message);
    Wrap(C1.PM, message)
  }

  /** `control_string`: `ESC X`, the character string, `ESC \`. */
  function ControlString(controlString: string): (s: string)
    ensures |s| == |controlString| + 4 && Utf8Len(s) == Utf8Len(controlString) + 4
    ensures s[..2] == [ESCAPE, 'X'] && s[2..|s| - 2] == controlString && s[|s| - 2..] == [ESCAPE, '\\']
  {
    WrapShape(4, controlString);
    Wrap(C1.SOS, controlString)
  }

  /**
   * Reads a control string back into its opening delimiter and its content: the text must start with one of the
   * five openers and end with the STRING TERMINATOR.
   */
  function Unwrap(s: string): Option<(ControlFunction, string)> {
    if |s| >= 4 && s[0] == ESCAPE && s[|s| - 2..] == [ESCAPE, '\\'] then
      var delimiter := s[1];
      var content := s[2..|s| - 2];
      if delimiter == '_' then Some((C1.APC, content))
      else if delimiter == 'P' then Some((C1.DCS, content))
      else if delimiter == ']' then Some((C1.OSC, content))
      else if delimiter == '^' then Some((C1.PM, content))
      else if delimiter == 'X' then Some((C1.SOS, content))
      else None
    else None
  }

  /** Each of the five builders is undone by `Unwrap`, for any content. */
  lemma UnwrapBuilders(content: string)
    ensures Unwrap(ApplicationProgramCommand(content)) == Some((C1.APC, content))
    ensures Unwrap(DeviceControlString(content)) == Some((C1.DCS, content))
    ensures Unwrap(OperatingSystemCommand(content)) == Some((C1.OSC, content))
    ensures Unwrap(PrivacyMessage(content)) == Some((C1.PM, content))
    ensures Unwrap(ControlString(content)) == Some((C1.SOS, content))
  {
  }

  /** Two strings that agree on their first two, their last two and everything between are equal. */
  lemma Reassemble(s: string, w: string)
    requires |s| >= 4 && |w| == |s|
    requires w[..2] == s[..2] && w[2..|w| - 2] == s[2..|s| - 2] && w[|w| - 2..] == s[|s| - 2..]
    ensures s == w
  {
    assert s == s[..2] + s[2..|s| - 2] + s[|s| - 2..];
    assert w == w[..2] + w[2..|w| - 2] + w[|w| - 2..];
  }

  /** Whatever `Unwrap` accepts is the wrapping of its content in one of the five openers. */
  lemma UnwrapIsWrap(s: string)
    requires Unwrap(s).Some?
    ensures Unwrap(s).value.0 in Openers
    ensures s == Wrap(Unwrap(s).value.0, Unwrap(s).value.1)
  {
    var (opener, content) := Unwrap(s).value;
    var i := if s[1] == '_' then 0 else if s[1] == 'P' then 1 else if s[1] == ']' then 2 else if s[1] == '^' then 3 else 4;
    assert Openers[i] == opener;
    WrapShape(i, content);
    C1.NewRenders(5, 15);
    C1.NewRenders(5, 0);
    C1.NewRenders(5, 13);
    C1.NewRenders(5, 14);
    C1.NewRenders(5, 8);
    Reassemble(s, Wrap(opener, content));
  }
}
