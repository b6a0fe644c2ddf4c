/**
 * How the decoder of src/parser.rs reads back what the rest of the library writes: the rendering of a control
 * function comes back as that one function exactly when the decoder's tables and scan accept it, and the
 * worked examples of the parser's documentation and tests.
 */
module RoundTrip {
  import opened Wrappers
  import opened Characters
  import opened Strings
  import opened ControlFunctions
  import opened LookupTables
  import opened Parser
  import C0
  import C1
  import ControlSequences
  import ControlStrings
  import Modes
  import ModeSetting

  // ---- One function read back ----------------------------------------------------------------------

  /**
   * A text comes out of the decoder as a single control function exactly when a function is recognised at
   * its start that spans all of it, and then the token is that function.
   */
  lemma TokenizeSingleFunction(value: string)
    requires |value| > 0
    ensures (|Tokenize(value)| == 1 && Tokenize(value)[0].Function?) <==>
      (Recognize(value).Found? && Recognize(value).length == |value|)
    ensures Recognize(value).Found? && Recognize(value).length == |value| ==>
      Tokenize(value) == [Function(Recognize(value).controlFunction)]
  {
    var s := From(value);
    assert value[0..] == value;
    CollectCons(s);
    NextIsStep(s);
    var s' := Next(s).1;
    if s'.position == |value| {
      CollectAtEnd(s');
    } else {
      CollectCons(s');
    }
    if Recognize(value).Found? {
      StepAtFunction(s);
    }
  }

  /**
   * The functions whose rendering the decoder reads back as one function: every C0 function; ESC with an
   * assigned C1 code other than `[`, or with an independent code; a control sequence whose text after CSI is a
   * well-formed sequence body.
   */
  predicate Decodable(f: ControlFunction) {
    && Valid(f)
    && match f.functionType
       case C0 => true
       case C1 => IsC1Code(f.value[0] as int)
       case IndependentControlFunction => IsIndependentCode(f.value[0] as int)
       case ControlSequence => IsSequenceBody(FormatParameters(f.parameters) + f.value)
  }

  /** A C0 function is recognised from its rendering, ESC included. */
  lemma RecognizeC0Rendering(f: ControlFunction)
    requires Valid(f) && f.functionType == ControlFunctionType.C0
    ensures Recognize(Render(f)) == Found(f, 1)
  {
    assert f.value == [f.value[0]];
    RecognizeIsReference(Render(f));
  }

  /**
   * ESC and a C1 or independent code is recognised as the two-character function exactly when the code is
   * in the decoder's tables; otherwise ESC stands alone, or, before `[`, starts no function at all.
   */
  lemma RecognizeEscapeRendering(f: ControlFunction)
    requires Valid(f) && f.functionType in {ControlFunctionType.C1, IndependentControlFunction}
    ensures (Recognize(Render(f)).Found? && Recognize(Render(f)).length == 2) <==> Decodable(f)
    ensures Decodable(f) ==> Recognize(Render(f)) == Found(f, 2)
  {
    var d := f.value[0];
    assert f.value == [d];
    assert Render(f) == [ESCAPE, d];
    RecognizeEscapePair(d);
    if f.functionType == ControlFunctionType.C1 {
      assert f == NewC1([d]);
    } else {
      assert f == NewIndependent([d]);
    }
  }

  /** ESCAPE followed by a 7-bit character from column `04` on, as the decoder reads it. */
  lemma RecognizeEscapePair(d: char)
    requires 0x40 <= d as int < 0x80
    ensures Recognize([ESCAPE, d]) ==
      if IsC1Code(d as int) then Found(NewC1([d]), 2)
      else if IsIndependentCode(d as int) then Found(NewIndependent([d]), 2)
      else if d == CSI_FINAL then Plain
      else Found(C0.ESC, 1)
  {
    RecognizeIsReference([ESCAPE, d]);
  }

  /**
   * The rendering of a control sequence is recognised in full exactly when the text after CSI is a
   * well-formed sequence body, and then as the sequence that body denotes.
   */
  lemma RecognizeSequenceRendering(f: ControlFunction)
    requires Valid(f) && f.functionType == ControlSequence
    ensures (Recognize(Render(f)).Found? && Recognize(Render(f)).length == |Render(f)|) <==> Decodable(f)
    ensures Decodable(f) ==>
      Recognize(Render(f)).controlFunction == SequenceOf(FormatParameters(f.parameters) + f.value)
  {
    var body := FormatParameters(f.parameters) + f.value;
    var x := Render(f);
    assert Decodable(f) <==> IsSequenceBody(body);
    assert x == [ESCAPE, CSI_FINAL] + body;
    assert x[..2] == [ESCAPE, CSI_FINAL] && x[2..|x|] == body;
    RecognizeControlSequence(x);
  }

  /** Every character of every parameter is a parameter byte other than the separator, as in decimal numbers. */
  predicate PlainParameters(parameters: seq<string>) {
    forall i, j :: 0 <= i < |parameters| && 0 <= j < |parameters[i]| ==>
      IsParameterByte(parameters[i][j]) && parameters[i][j] != SEPARATOR
  }

  /**
   * A well-formed control sequence with at least one parameter, all of them made of parameter bytes other
   * than the separator, is decodable, and its body denotes exactly that sequence.
   */
  lemma SequenceOfRendering(f: ControlFunction)
    requires Valid(f) && f.functionType == ControlSequence
    requires |f.parameters| >= 1 && PlainParameters(f.parameters)
    ensures Decodable(f)
    ensures SequenceOf(FormatParameters(f.parameters) + f.value) == f
  {
    var p := FormatParameters(f.parameters);
    JoinChars(f.parameters, SEPARATOR, c => IsParameterByte(c));
    var body := p + f.value;
    assert forall k :: 0 <= k < |p| ==> body[k] == p[k];
    if |f.value| == 2 {
      assert body[|body| - 2] == INTERMEDIATE;
    }
    assert IsSequenceBody(body);
    var n := IdentifierLength(body);
    assert n == |f.value|;
    assert body[|body| - n..] == f.value && body[..|body| - n] == p;
    assert forall i :: 0 <= i < |f.parameters| ==> SEPARATOR !in f.parameters[i];
    SplitJoin(f.parameters, SEPARATOR);
  }

  /**
   * The rendering of a well-formed control function is read back as a single control function exactly when
   * the function is decodable; decodable C0, C1 and independent functions come back unchanged, and so does a
   * control sequence with at least one parameter, all of them plain.
   */
  lemma RenderRoundTrip(f: ControlFunction)
    requires Valid(f)
    ensures (|Tokenize(Render(f))| == 1 && Tokenize(Render(f))[0].Function?) <==> Decodable(f)
    ensures Decodable(f) && f.functionType != ControlSequence ==> Tokenize(Render(f)) == [Function(f)]
    ensures f.functionType == ControlSequence && |f.parameters| >= 1 && PlainParameters(f.parameters) ==>
      Tokenize(Render(f)) == [Function(f)]
  {
    var x := Render(f);
    match f.functionType
    case C0 =>
      RecognizeC0Rendering(f);
      TokenizeSingleFunction(x);
    case C1 =>
      RecognizeEscapeRendering(f);
      TokenizeSingleFunction(x);
    case IndependentControlFunction =>
      RecognizeEscapeRendering(f);
      TokenizeSingleFunction(x);
    case ControlSequence =>
      assert |x| > 0;
      RecognizeSequenceRendering(f);
      TokenizeSingleFunction(x);
      if |f.parameters| >= 1 && PlainParameters(f.parameters) {
        SequenceOfRendering(f);
      }
  }

  // ---- Many functions read back --------------------------------------------------------------------

  /**
   * The functions that come back unchanged wherever they stand in a text: decodable, not ESC (which would
   * merge with what follows it), and, for a control sequence, at least one parameter, all plain.
   */
  predicate Exact(f: ControlFunction) {
    && Valid(f)
    && f != C0.ESC
    && match f.functionType
       case C0 => true
       case C1 => IsC1Code(f.value[0] as int)
       case IndependentControlFunction => IsIndependentCode(f.value[0] as int)
       case ControlSequence => |f.parameters| >= 1 && PlainParameters(f.parameters)
  }

  /** An exact function is recognised from its rendering whatever text follows it. */
  lemma RecognizeRenderingPrefix(f: ControlFunction, rest: string)
    requires Exact(f)
    ensures |Render(f)| > 0
    ensures Recognize(Render(f) + rest) == Found(f, |Render(f)|)
  {
    var x := Render(f);
    var t := x + rest;
    assert f.value == [f.value[0]] || |f.value| == 2;
    if f.functionType == ControlFunctionType.C0 {
      assert f.value == [f.value[0]] && t[0] == f.value[0];
      RecognizeIsReference(t);
    } else if f.functionType == ControlSequence {
      var body := FormatParameters(f.parameters) + f.value;
      assert x == [ESCAPE, CSI_FINAL] + body;
      assert t[..2] == [ESCAPE, CSI_FINAL] && t[2..|x|] == body;
      SequenceOfRendering(f);
      RecognizeControlSequence(t);
    } else {
      assert f.value == [f.value[0]];
      assert x == [ESCAPE, f.value[0]] && t[..2] == x;
      RecognizeIsReference(t);
    }
  }

  /** Text that starts no control function at any of its characters: no C0 code, and not empty. */
  predicate PlainText(t: string) {
    |t| > 0 && forall k :: 0 <= k < |t| ==> t[k] as int >= 0x20
  }

  /** A token that reads back as itself: plain text, or an exact function. */
  predicate CanonicalToken(t: Token) {
    match t
    case Text(text) => PlainText(text)
    case Function(f) => Exact(f)
  }

  /** Tokens that read back as themselves once spelled: each canonical, and no two texts in a row. */
  predicate Canonical(tokens: seq<Token>) {
    && (forall i :: 0 <= i < |tokens| ==> CanonicalToken(tokens[i]))
    && TextsSeparated(tokens)
  }

  /** What follows a prefix of the text from `p` on. */
  lemma DropPrefix(v: string, p: nat, x: string, rest: string)
    requires p <= |v| && v[p..] == x + rest
    ensures v[p + |x|..] == rest
  {
    assert v[p + |x|..] == v[p..][|x|..];
  }

  /** The tail of canonical tokens is canonical. */
  lemma CanonicalTail(tokens: seq<Token>)
    requires Canonical(tokens) && |tokens| > 0
    ensures Canonical(tokens[1..])
  {
    assert forall i :: 0 <= i < |tokens[1..]| ==> tokens[1..][i] == tokens[i + 1];
  }

  /** Spelled plain text starts no control function anywhere inside it. */
  lemma SpelledTextPlain(v: string, p: nat, t: string, rest: string)
    requires p <= |v| && v[p..] == t + rest && PlainText(t)
    ensures p + |t| <= |v| && PlainBetween(v, p, p + |t|) && v[p..p + |t|] == t
  {
    forall j | p <= j < p + |t|
      ensures !StartsFunction(v, j)
    {
      assert v[j] == v[p..][j - p] == t[j - p];
      RecognizeText(v[j..]);
    }
    assert v[p..p + |t|] == v[p..][..|t|];
  }

  /** Plain text followed by the start of a control function: no function starts before it, one starts after it. */
  lemma TextBeforeFunction(v: string, p: nat, t: string, u: string)
    requires p <= |v| && v[p..] == t + u && PlainText(t) && |u| > 0 && Recognize(u).Found?
    ensures p < p + |t| < |v| && PlainBetween(v, p, p + |t|) && StartsFunction(v, p + |t|) && v[p + |t|..] == u
    ensures v[p..p + |t|] == t
  {
    SpelledTextPlain(v, p, t, u);
    DropPrefix(v, p, t, u);
  }

  /** On plain text followed by the start of a control function, the stream hands out the text and stops there. */
  lemma SpelledTextStep(s: TokenStream, token: Token, u: string, q: nat)
    requires token.Text? && s.position <= |s.value| && s.value[s.position..] == token.text + u
    requires PlainText(token.text) && |u| > 0 && Recognize(u).Found? && q == s.position + |token.text|
    ensures q <= |s.value| && s.value[q..] == u
    ensures Next(s) == (Some(token), s.(position := q))
  {
    TextBeforeFunction(s.value, s.position, token.text, u);
    StepAtText(s, q);
  }

  /** Spelled plain text at the end of the input is handed out as one last text. */
  lemma SpelledTextLast(s: TokenStream, tokens: seq<Token>)
    requires s.position <= |s.value| && s.value[s.position..] == Spell(tokens)
    requires |tokens| == 1 && tokens[0].Text? && PlainText(tokens[0].text)
    ensures Collect(s) == tokens
  {
    var t := tokens[0].text;
    assert Spell(tokens) == t + "";
    SpelledTextPlain(s.value, s.position, t, "");
    assert s.value[s.position..] == t;
    CollectPlainRest(s);
    assert tokens == [Text(t)];
  }

  /** Spelled tokens that start with an exact function are recognised as that function, and the rest follows it. */
  lemma SpelledFunctionHead(tokens: seq<Token>, n: nat)
    requires |tokens| > 0 && tokens[0].Function? && Exact(tokens[0].controlFunction)
    requires n == |Spelling(tokens[0])|
    ensures 0 < n <= |Spell(tokens)| && Recognize(Spell(tokens)) == Found(tokens[0].controlFunction, n)
    ensures Spell(tokens)[n..] == Spell(tokens[1..])
  {
    var f := tokens[0].controlFunction;
    assert Spell(tokens) == Render(f) + Spell(tokens[1..]);
    RecognizeRenderingPrefix(f, Spell(tokens[1..]));
  }

  /** Spelled text followed by a canonical function splits into the text and a spelling that starts with that function. */
  lemma SpelledTextSplit(tokens: seq<Token>)
    requires |tokens| > 1 && tokens[0].Text? && tokens[1].Function? && Exact(tokens[1].controlFunction)
    ensures Spell(tokens) == tokens[0].text + Spell(tokens[1..])
    ensures |Spell(tokens[1..])| > 0 && Recognize(Spell(tokens[1..])).Found?
  {
    SpelledFunctionHead(tokens[1..], |Spelling(tokens[1])|);
  }

  /** On spelled text followed by a canonical function, the stream hands out that text first. */
  lemma SpelledTextHead(s: TokenStream, tokens: seq<Token>, n: nat)
    requires s.position <= |s.value| && s.value[s.position..] == Spell(tokens)
    requires |tokens| > 1 && tokens[0].Text? && PlainText(tokens[0].text)
    requires tokens[1].Function? && Exact(tokens[1].controlFunction)
    requires n == |tokens[0].text|
    ensures s.position + n <= |s.value| && s.value[s.position + n..] == Spell(tokens[1..])
    ensures Next(s) == (Some(tokens[0]), s.(position := s.position + n))
  {
    SpelledTextSplit(tokens);
    SpelledTextStep(s, tokens[0], Spell(tokens[1..]), s.position + n);
  }

  /** On the spelling of a canonical function, the stream hands out that function first. */
  lemma SpelledFunctionStep(s: TokenStream, tokens: seq<Token>, n: nat)
    requires s.position <= |s.value| && s.value[s.position..] == Spell(tokens)
    requires |tokens| > 0 && tokens[0].Function? && Exact(tokens[0].controlFunction)
    requires n == |Spelling(tokens[0])|
    ensures s.position + n <= |s.value| && s.value[s.position + n..] == Spell(tokens[1..])
    ensures Next(s) == (Some(tokens[0]), s.(position := s.position + n))
  {
    SpelledFunctionHead(tokens, n);
    assert s.value[s.position + n..] == s.value[s.position..][n..];
    StepAtFunction(s);
  }

  /** On the spelling of canonical tokens, other than one last text, the stream hands out the first token. */
  lemma SpelledStep(s: TokenStream, tokens: seq<Token>, n: nat)
    requires s.position <= |s.value| && s.value[s.position..] == Spell(tokens)
    requires Canonical(tokens) && |tokens| > 0 && !(|tokens| == 1 && tokens[0].Text?)
    requires n == |Spelling(tokens[0])|
    ensures s.position + n <= |s.value| && s.value[s.position + n..] == Spell(tokens[1..])
    ensures Next(s) == (Some(tokens[0]), s.(position := s.position + n))
  {
    assert CanonicalToken(tokens[0]);
    if tokens[0].Text? {
      assert CanonicalToken(tokens[1]);
      SpelledTextHead(s, tokens, n);
    } else {
      SpelledFunctionStep(s, tokens, n);
    }
  }

  /** Once `next` hands out a token, the stream's tokens are that token and the ones handed out after it. */
  lemma CollectAfterNext(s: TokenStream, token: Token, s': TokenStream)
    requires s.position <= |s.value| && Next(s) == (Some(token), s')
    ensures Collect(s) == [token] + Collect(s')
  {
    CollectCons(s);
  }

  /** A stream positioned on the spelling of canonical tokens hands out exactly those tokens. */
  lemma {:induction false} CollectSpelled(s: TokenStream, tokens: seq<Token>)
    requires s.position <= |s.value| && s.value[s.position..] == Spell(tokens)
    requires Canonical(tokens)
    ensures Collect(s) == tokens
    decreases |tokens|
  {
    if |tokens| == 0 {
      CollectAtEnd(s);
    } else if |tokens| == 1 && tokens[0].Text? {
      assert CanonicalToken(tokens[0]);
      SpelledTextLast(s, tokens);
    } else {
      var n := |Spelling(tokens[0])|;
      var rest := s.(position := s.position + n);
      assert rest.position <= |rest.value| && rest.value[rest.position..] == Spell(tokens[1..])
        && Collect(s) == [tokens[0]] + Collect(rest) by {
        SpelledStep(s, tokens, n);
        CollectAfterNext(s, tokens[0], rest);
      }
      assert Canonical(tokens[1..]) by {
        CanonicalTail(tokens);
      }
      CollectSpelled(rest, tokens[1..]);
      assert [tokens[0]] + tokens[1..] == tokens;
    }
  }

  /**
   * Canonical tokens, spelled out and read back, are the same tokens: the converse of `TokenizeReconstructs`
   * on the inputs whose reading is unambiguous.
   */
  lemma TokenizeSpelled(tokens: seq<Token>)
    requires Canonical(tokens)
    ensures Tokenize(Spell(tokens)) == tokens
  {
    var v := Spell(tokens);
    assert v[0..] == v;
    CollectSpelled(From(v), tokens);
  }

  // ---- What the library writes -------------------------------------------------------------------

  /** Canonical decimal numbers are plain parameters: digits only. */
  lemma DecimalsArePlain(parameters: seq<string>)
    requires forall i :: 0 <= i < |parameters| ==> IsCanonicalDecimal(parameters[i])
    ensures PlainParameters(parameters)
  {
  }

  /**
   * A control sequence the library builds from numbers (`ControlSequences.Sequence`), on an identifier of the form
   * every builder uses and with at least one number, is read back as exactly itself, wherever it stands.
   */
  lemma EncodedRoundTrip(f: ControlFunction, xx: int, yy: int, intermediate: bool, numbers: seq<nat>)
    requires 4 <= xx <= 7 && 0 <= yy <= 15 && |numbers| >= 1
    requires ControlSequences.Encodes(f, ControlSequences.Identifier(xx, yy, intermediate), numbers)
    ensures Exact(f)
    ensures Tokenize(Render(f)) == [Function(f)]
  {
    var value := ControlSequences.Identifier(xx, yy, intermediate);
    ControlSequences.SequenceValid(xx, yy, numbers);
    ControlSequences.EncodesDetermines(f, ControlSequences.Sequence(value, numbers), value, numbers);
    DecimalsArePlain(f.parameters);
    RenderRoundTrip(f);
  }

  /**
   * A control sequence the library builds from an empty list of numbers is written with nothing between CSI and
   * its identifier, and so is read back with one empty parameter instead of none.
   */
  lemma EncodedEmptyRoundTrip(f: ControlFunction, xx: int, yy: int, intermediate: bool)
    requires 4 <= xx <= 7 && 0 <= yy <= 15
    requires ControlSequences.Encodes(f, ControlSequences.Identifier(xx, yy, intermediate), [])
    ensures Tokenize(Render(f)) == [Function(f.(parameters := [""]))]
    ensures Tokenize(Render(f)) != [Function(f)]
  {
    var value := ControlSequences.Identifier(xx, yy, intermediate);
    ControlSequences.SequenceValid(xx, yy, []);
    ControlSequences.EncodesDetermines(f, ControlSequences.Sequence(value, []), value, []);
    var g := f.(parameters := [""]);
    RenderEmptyParameters(f.value);
    assert f == NewSequence(f.value, []) && g == NewSequence(f.value, [""]);
    RenderRoundTrip(g);
  }

  /** SELECT GRAPHIC RENDITION, SET MODE and RESET MODE of an empty list come back with one empty parameter. */
  lemma EmptyListBuilders()
    ensures Tokenize(Render(ControlSequences.SGR(Some([])))) == [Function(NewSequence("m", [""]))]
    ensures Tokenize(Render(ControlSequences.SM([]))) == [Function(NewSequence("h", [""]))]
    ensures Tokenize(Render(ControlSequences.RM([]))) == [Function(NewSequence("l", [""]))]
  {
    ControlSequences.SGRParameters();
    ControlSequences.ModeSequenceParameters();
    EncodedEmptyRoundTrip(ControlSequences.SGR(Some([])), 6, 13, false);
    EncodedEmptyRoundTrip(ControlSequences.SM([]), 6, 8, false);
    EncodedEmptyRoundTrip(ControlSequences.RM([]), 6, 12, false);
  }

  /** SET MODE and RESET MODE of one mode are read back as themselves, and then as that mode and direction. */
  lemma ModeSettingRoundTrip(m: Modes.Mode)
    ensures Tokenize(Render(ModeSetting.Set(m))) == [Function(ModeSetting.Set(m))]
    ensures Tokenize(Render(ModeSetting.Reset(m))) == [Function(ModeSetting.Reset(m))]
    ensures ModeSetting.Setting(Tokenize(Render(ModeSetting.Set(m)))[0].controlFunction) == Some((m, true))
    ensures ModeSetting.Setting(Tokenize(Render(ModeSetting.Reset(m)))[0].controlFunction) == Some((m, false))
  {
    EncodedRoundTrip(ModeSetting.Set(m), 6, 8, false, [m.Value()]);
    EncodedRoundTrip(ModeSetting.Reset(m), 6, 12, false, [m.Value()]);
    ModeSetting.SettingOfSetAndReset(m);
  }

  /** The five openers and STRING TERMINATOR are exact: ESCAPE followed by an assigned C1 code. */
  lemma ControlStringDelimitersExact(i: int)
    requires 0 <= i < |ControlStrings.Openers|
    ensures Exact(ControlStrings.Openers[i]) && Exact(C1.ST)
  {
    C1.NewRenders(5, 12);
    C1.NewRenders(5, 15);
    C1.NewRenders(5, 0);
    C1.NewRenders(5, 13);
    C1.NewRenders(5, 14);
    C1.NewRenders(5, 8);
  }

  /** Reading a control string starts with its opening delimiter. */
  lemma ControlStringHead(i: int, content: string)
    requires 0 <= i < |ControlStrings.Openers|
    ensures var x := ControlStrings.Wrap(ControlStrings.Openers[i], content);
      |x| == |content| + 4 && Collect(From(x)) == [Function(ControlStrings.Openers[i])] + Collect(TokenStream(x, 2))
  {
    var opener := ControlStrings.Openers[i];
    var x := ControlStrings.Wrap(opener, content);
    ControlStrings.WrapShape(i, content);
    ControlStringDelimitersExact(i);
    RecognizeRenderingPrefix(opener, content + Render(C1.ST));
    assert x[0..] == x == Render(opener) + (content + Render(C1.ST));
    CollectFunction(From(x), opener, 2);
  }

  /** Content without C0 codes is read as one text, up to the STRING TERMINATOR. */
  lemma ControlStringContent(i: int, content: string)
    requires 0 <= i < |ControlStrings.Openers| && |content| > 0
    requires forall k :: 0 <= k < |content| ==> content[k] as int >= 0x20
    ensures var x := ControlStrings.Wrap(ControlStrings.Openers[i], content);
      |x| == |content| + 4 && Collect(TokenStream(x, 2)) == [Text(content)] + Collect(TokenStream(x, |x| - 2))
  {
    var x := ControlStrings.Wrap(ControlStrings.Openers[i], content);
    ControlStrings.WrapShape(i, content);
    var e := |x| - 2;
    forall j | 2 <= j < e
      ensures !StartsFunction(x, j)
    {
      assert x[j] == content[j - 2];
      RecognizeText(x[j..]);
    }
    ControlStringTerminator(i, content);
    CollectText(TokenStream(x, 2), e);
  }

  /** The last two characters of a control string are read as STRING TERMINATOR, and nothing follows. */
  lemma ControlStringTerminator(i: int, content: string)
    requires 0 <= i < |ControlStrings.Openers|
    ensures var x := ControlStrings.Wrap(ControlStrings.Openers[i], content);
      && |x| == |content| + 4
      && Recognize(x[|x| - 2..]) == Found(C1.ST, 2)
      && Collect(TokenStream(x, |x| - 2)) == [Function(C1.ST)]
  {
    var x := ControlStrings.Wrap(ControlStrings.Openers[i], content);
    ControlStrings.WrapShape(i, content);
    ControlStringDelimitersExact(i);
    var e := |x| - 2;
    RecognizeRenderingPrefix(C1.ST, "");
    assert x[e..] == Render(C1.ST) + "";
    CollectFunction(TokenStream(x, e), C1.ST, 2);
    CollectAtEnd(TokenStream(x, |x|));
  }

  /**
   * A control string whose content holds no C0 code is read back as its opening delimiter, its content as
   * one text token, and STRING TERMINATOR; with empty content there is no text token between the two.
   */
  lemma TokenizeControlString(i: int, content: string)
    requires 0 <= i < |ControlStrings.Openers|
    requires forall k :: 0 <= k < |content| ==> content[k] as int >= 0x20
    ensures Tokenize(ControlStrings.Wrap(ControlStrings.Openers[i], content)) ==
      if |content| > 0 then [Function(ControlStrings.Openers[i]), Text(content), Function(C1.ST)]
      else [Function(ControlStrings.Openers[i]), Function(C1.ST)]
  {
    ControlStringHead(i, content);
    if |content| > 0 {
      ControlStringContent(i, content);
    }
    ControlStringTerminator(i, content);
  }

  // ---- Worked examples ---------------------------------------------------------------------------

  /** The private-use sequence of the first example and how it is written. */
  lemma ExamplePrivateUse()
    ensures ControlFunctions.PrivateUse("u", ["0"]).Ok?
    ensures var pu := ControlFunctions.PrivateUse("u", ["0"]).value;
      Exact(pu) && Render(pu) == [ESCAPE] + "[0u"
  {
    assert ControlFunctions.PrivateUse("u", ["0"]).value == NewSequence("u", ["0"]);
  }

  /** The decimals the examples use. */
  lemma ExampleDecimals()
    ensures Decimal(6) == "6" && Decimal(23) == "23" && Decimal(62) == "62"
  {
    assert Decimal(2) == "2";
  }

  /** DEVICE ATTRIBUTES identifying as 62 and how it is written. */
  lemma ExampleDeviceAttributes()
    ensures var da := ControlSequences.DA(Some(ControlSequences.Identify(62)));
      Exact(da) && Render(da) == [ESCAPE] + "[62c"
  {
    var da := ControlSequences.DA(Some(ControlSequences.Identify(62)));
    EncodedRoundTrip(da, 6, 3, false, [62]);
    ExampleDecimals();
    assert da.parameters == ["62"];
  }

  /** CURSOR POSITION to line 23, column 6, and how it is written. */
  lemma ExampleCursorPosition()
    ensures var cup := ControlSequences.CUP(Some(23), Some(6));
      Exact(cup) && Render(cup) == [ESCAPE] + "[23;6H"
  {
    var cup := ControlSequences.CUP(Some(23), Some(6));
    ExampleDecimals();
    assert cup.parameters == ["23", "6"];
    assert cup == NewSequence("H", ["23", "6"]);
    assert FormatParameters(cup.parameters) == "23;6";
  }

  /** The two-digit notation of the column and row numbers the examples of `Debug` use. */
  lemma ExamplePadding()
    ensures PadTwo(0) == "00" && PadTwo(4) == "04" && PadTwo(7) == "07" && PadTwo(8) == "08"
  {
    assert Decimal(0) == "0" && Decimal(4) == "4" && Decimal(7) == "7" && Decimal(8) == "8";
  }

  /** `Debug` shows BELL as `00/07`, and CURSOR POSITION with no line and column 10 as `04/08` with `1` and `10`. */
  lemma ExampleDebug()
    ensures DebugFunction(C0.BEL.value) == "00/07"
    ensures var cup := ControlSequences.CUP(Option.None, Some(10));
      DebugFunction(cup.value) == "04/08" && cup.parameters == ["1", "10"]
  {
    DebugOfAscii(0, 7);
    DebugOfAscii(4, 8);
    ExamplePadding();
    ExampleDecimals();
    var cup := ControlSequences.CUP(Option.None, Some(10));
    assert cup.value == [Ascii(4, 8)];
    assert Decimal(10) == "10";
  }

  /** `ESC [ 0 u ESC [ 6 2 c ESC [ 2 3 ; 6 H` is a private-use sequence, DEVICE ATTRIBUTES and CURSOR POSITION. */
  lemma ExampleA()
    ensures ControlFunctions.PrivateUse("u", ["0"]).Ok?
    ensures Tokenize([ESCAPE] + "[0u" + [ESCAPE] + "[62c" + [ESCAPE] + "[23;6H") == [
      Function(ControlFunctions.PrivateUse("u", ["0"]).value),
      Function(ControlSequences.DA(Some(ControlSequences.Identify(62)))),
      Function(ControlSequences.CUP(Some(23), Some(6)))]
  {
    ExamplePrivateUse();
    ExampleDeviceAttributes();
    ExampleCursorPosition();
    var tokens := [
      Function(ControlFunctions.PrivateUse("u", ["0"]).value),
      Function(ControlSequences.DA(Some(ControlSequences.Identify(62)))),
      Function(ControlSequences.CUP(Some(23), Some(6)))];
    assert CanonicalToken(tokens[0]) && CanonicalToken(tokens[1]) && CanonicalToken(tokens[2]);
    assert Spell(tokens[3..]) == "";
    assert Spell(tokens[2..]) == Spelling(tokens[2]);
    assert Spell(tokens[1..]) == Spelling(tokens[1]) + Spelling(tokens[2]);
    assert Spell(tokens) == [ESCAPE] + "[0u" + [ESCAPE] + "[62c" + [ESCAPE] + "[23;6H";
    TokenizeSpelled(tokens);
  }

  /** The tokens of the module example: three lines of text with NEXT LINE between them. */
  function NextLineTokens(): (tokens: seq<Token>)
    ensures Canonical(tokens)
  {
    C1.NewRenders(4, 5);
    assert PlainText("This text");
    assert PlainText("is spread across");
    assert PlainText("multiple lines.");
    [Text("This text"), Function(C1.NEL), Text("is spread across"), Function(C1.NEL), Text("multiple lines.")]
  }

  /** The module example spelled out. */
  lemma NextLineSpelling(tokens: seq<Token>)
    requires tokens ==
      [Text("This text"), Function(C1.NEL), Text("is spread across"), Function(C1.NEL), Text("multiple lines.")]
    ensures Spell(tokens) == "This text" + Render(C1.NEL) + "is spread across" + Render(C1.NEL) + "multiple lines."
  {
    var nel := Render(C1.NEL);
    SpellCons(tokens[4], []);
    assert tokens[4..] == [tokens[4]] + [];
    SpellCons(tokens[3], tokens[4..]);
    assert tokens[3..] == [tokens[3]] + tokens[4..];
    SpellCons(tokens[2], tokens[3..]);
    assert tokens[2..] == [tokens[2]] + tokens[3..];
    SpellCons(tokens[1], tokens[2..]);
    assert tokens[1..] == [tokens[1]] + tokens[2..];
    SpellCons(tokens[0], tokens[1..]);
    assert tokens == [tokens[0]] + tokens[1..];
  }

  /** Text lines separated by NEXT LINE are read as the lines, with NEXT LINE between them. */
  lemma ExampleNextLine()
    ensures Tokenize("This text" + Render(C1.NEL) + "is spread across" + Render(C1.NEL) + "multiple lines.") ==
      [Text("This text"), Function(C1.NEL), Text("is spread across"), Function(C1.NEL), Text("multiple lines.")]
  {
    var tokens := NextLineTokens();
    NextLineSpelling(tokens);
    TokenizeSpelled(tokens);
  }

  /** In `ESC ESC [ ä` the first ESC stands alone, since another ESC follows it. */
  lemma ExampleInvalidHead(x: string)
    requires x == [ESCAPE, ESCAPE, CSI_FINAL, '\U{E4}']
    ensures Collect(From(x)) == [Function(C0.ESC)] + Collect(TokenStream(x, 1))
  {
    assert x[0..] == x;
    RecognizeIsReference(x);
    CollectFunction(From(x), C0.ESC, 1);
  }

  /** `ESC [ ä` is no control sequence: its ESC stays in the text, and so does the rest. */
  lemma ExampleInvalidTail(x: string)
    requires x == [ESCAPE, ESCAPE, CSI_FINAL, '\U{E4}']
    ensures Collect(TokenStream(x, 1)) == [Text([ESCAPE, CSI_FINAL, '\U{E4}'])]
  {
    assert x[1..] == [ESCAPE, CSI_FINAL, '\U{E4}'];
    assert x[1..][2..] == ['\U{E4}'];
    RecognizeIsReference(x[1..]);
    RecognizeText(x[2..]);
    RecognizeText(x[3..]);
    CollectPlainRest(TokenStream(x, 1));
  }

  /**
   * ESC, then ESC `[` before a non-ASCII character: the first ESC stands alone, and the failed control sequence
   * stays text, its ESC included.
   */
  lemma ExampleInvalidControlSequence()
    ensures Tokenize([ESCAPE, ESCAPE, CSI_FINAL, '\U{E4}']) == [Function(C0.ESC), Text([ESCAPE, CSI_FINAL, '\U{E4}'])]
  {
    var x := [ESCAPE, ESCAPE, CSI_FINAL, '\U{E4}'];
    ExampleInvalidHead(x);
    ExampleInvalidTail(x);
  }
}
