/**
 * The tag-driven resolver (Source/Parser/Parser.swift). Foundation's
 * `XMLParser` is outside the model: its work is a `TokenizerRun`, the events
 * it would deliver to the delegate and how its `parse()` ends, produced by a
 * tokenizer function over the UTF-16 units of the XML it is given.
 *
 * The delegate's state is a stack of frames, a character buffer and the
 * output runs. The spec functions below say what each event does to that
 * state; the `Parser` class performs the same steps in place and is proved
 * to agree with them.
 */
module Parsers {
  import opened Wrappers
  import opened Platform
  import opened Attributed
  import StyleDescriptions
  import opened Styles
  import opened StyleProtocol

  /** The tag the input is wrapped in unless `doNotWrapXML` is given. */
  const TopTag: string := "source"

  /** `ParsingOptions`; `doNotWrapXML` is its only option. */
  datatype ParsingOption = DoNotWrapXML

  /** A delegate callback of `XMLParser`. */
  datatype Event =
    | StartElement(name: string, attributes: map<string, string>)
    | EndElement(name: string)
    | FoundCharacters(text: string)

  /** How `XMLParser.parse()` ends: success, or failure with a position and possibly an error object. */
  datatype Outcome =
    | Succeeded
    | Failed(line: int, column: int, error: Option<nat>)

  datatype TokenizerRun = TokenizerRun(events: seq<Event>, outcome: Outcome)

  /** The `fatalError` calls and the runtime trap of `removeLast()` on an empty array. */
  datatype Trap = UnknownTag(name: string) | NoParentFrame | PopEmptyStack

  /** `ParserError`: the tokenizer's error with its line and (corrected) column. */
  datatype ParserError = ParserError(parserError: nat, line: int, column: int)

  /** What `parse()` gives: a result, a thrown `ParserError`, or a trap that ends the process. */
  datatype ParseResult = Parsed(text: AttributedString) | Thrown(error: ParserError) | Trapped(trap: Trap)

  /** `XMLDynamicStyle`: a tag, the style in effect for it, and the tag's XML attributes. */
  datatype Frame = Frame(tag: string, style: Entry, xmlAttributes: Option<map<string, string>>)

  /** What the parser reads from its `XMLStyle`, plus the platform's fonts. */
  datatype Config = Config(styles: map<string, Entry>, base: Option<Entry>, options: set<ParsingOption>, env: Environment)

  datatype ParserState = ParserState(stack: seq<Frame>, currentString: Option<string>, output: AttributedString)

  /** One step of the delegate: go on with a new state, or stop at a trap. */
  datatype Step = Continue(state: ParserState) | Halt(trap: Trap)

  predicate Wraps(options: set<ParsingOption>) {
    DoNotWrapXML !in options
  }

  /** The XML handed to the tokenizer: the text inside `<source>…</source>` unless wrapping is off. */
  function WrappedXml(options: set<ParsingOption>, text: seq<int>): (xml: seq<int>)
    ensures Wraps(options) ==> xml == Utf16("<" + TopTag + ">") + text + Utf16("</" + TopTag + ">")
    ensures !Wraps(options) ==> xml == text
  {
    if Wraps(options) then Utf16("<" + TopTag + ">") + text + Utf16("</" + TopTag + ">") else text
  }

  /** The state after `init`: one base frame under the top tag when there is a base, none otherwise. */
  function InitialState(cfg: Config): (st: ParserState)
    ensures |st.stack| == (if cfg.base.Some? then 1 else 0)
    ensures cfg.base.Some? ==> st.stack[0] == Frame(TopTag, cfg.base.value, None)
    ensures st.currentString.None? && st.output == []
  {
    var stack := if cfg.base.Some? then [Frame(TopTag, cfg.base.value, None)] else [];
    ParserState(stack, None, [])
  }

  // ----- flushing the buffer -----

  /** One pass of the frame loop: a mutable attributed string replaces the content, anything else is applied as a style. */
  function ApplyFrame(content: AttributedString, frame: Frame, env: Environment): AttributedString {
    match frame.style
    case MutableLiteral(text) => text
    case _ => Applying(content, frame.style, env)
  }

  /** The frames applied from the bottom of the stack to the top. */
  function ApplyFrames(content: AttributedString, frames: seq<Frame>, env: Environment): AttributedString
    decreases |frames|
  {
    if frames == [] then content
    else ApplyFrame(ApplyFrames(content, frames[..|frames| - 1], env), frames[|frames| - 1], env)
  }

  /** The run `foundNewString` appends: the buffered text, styled by every frame. */
  function FlushRun(cfg: Config, st: ParserState): AttributedString {
    ApplyFrames(FromString(st.currentString.GetOr(""), map[]), st.stack, cfg.env)
  }

  /** `foundNewString()`: appends one run, empties the buffer, leaves the stack alone. */
  function Flush(cfg: Config, st: ParserState): (r: ParserState)
    ensures r.stack == st.stack && r.currentString.None?
    ensures r.output == st.output + FlushRun(cfg, st)
  {
    ParserState(st.stack, None, st.output + FlushRun(cfg, st))
  }

  // ----- entering and leaving tags -----

  /** `enter(element:attributes:)`. */
  function EnterStep(cfg: Config, st: ParserState, name: string, attributes: map<string, string>): (r: Step)
    ensures name == TopTag ==> r == Continue(st)
    ensures name != TopTag && name !in cfg.styles ==> r == Halt(UnknownTag(name))
    ensures name != TopTag && name in cfg.styles && (IsAttributedString(cfg.styles[name]) || |st.stack| == 1) ==>
      r == Continue(st.(stack := st.stack + [Frame(name, cfg.styles[name], Some(attributes))]))
    ensures name != TopTag && name in cfg.styles && !IsAttributedString(cfg.styles[name]) && |st.stack| != 1 && st.stack != [] ==>
      r == Continue(st.(stack := st.stack + [Frame(name, StyleEntry(Combine(st.stack[|st.stack| - 1].style, cfg.styles[name])), Some(attributes))]))
    ensures name != TopTag && name in cfg.styles && !IsAttributedString(cfg.styles[name]) && st.stack == [] ==>
      r == Halt(NoParentFrame)
  {
    if name == TopTag then Continue(st)
    else if name !in cfg.styles then Halt(UnknownTag(name))
    else
      var custom := cfg.styles[name];
      if IsAttributedString(custom) || |st.stack| == 1 then
        Continue(st.(stack := st.stack + [Frame(name, custom, Some(attributes))]))
      else if st.stack != [] then
        Continue(st.(stack := st.stack + [Frame(name, StyleEntry(Combine(st.stack[|st.stack| - 1].style, custom)), Some(attributes))]))
      else
        Halt(NoParentFrame)
  }

  /**
   * `exit(element:)`: pops the top frame whatever its tag; an empty stack traps.
   * `LegacyParsers.LegacyExitStep` is the same step over the legacy parser's state.
   */
  function ExitStep(st: ParserState): (r: Step)
    ensures st.stack == [] <==> r == Halt(PopEmptyStack)
    ensures st.stack != [] ==> r == Continue(st.(stack := st.stack[..|st.stack| - 1]))
  {
    if st.stack == [] then Halt(PopEmptyStack) else Continue(st.(stack := st.stack[..|st.stack| - 1]))
  }

  /** The three delegate callbacks. */
  function StepEvent(cfg: Config, st: ParserState, e: Event): Step {
    match e
    case StartElement(name, attributes) => EnterStep(cfg, Flush(cfg, st), name, attributes)
    case EndElement(name) =>
      var flushed := Flush(cfg, st);
      if name == TopTag then Continue(flushed) else ExitStep(flushed)
    case FoundCharacters(text) => Continue(st.(currentString := Some(st.currentString.GetOr("") + text)))
  }

  /** The events delivered in order; a trap ends the run. */
  function RunEvents(cfg: Config, st: ParserState, events: seq<Event>): Step
    decreases |events|
  {
    if events == [] then Continue(st)
    else match RunEvents(cfg, st, events[..|events| - 1])
      case Halt(t) => Halt(t)
      case Continue(s) => StepEvent(cfg, s, events[|events| - 1])
  }

  /** The column reported on failure: shifted back past `<source>` only on line 1 of wrapped input. */
  function ReportedColumn(options: set<ParsingOption>, line: int, column: int): (c: int)
    ensures line == 1 && Wraps(options) ==> c == column - 8
    ensures !(line == 1 && Wraps(options)) ==> c == column
  {
    var shiftSize := |TopTag| + 2;
    column - (if line == 1 && Wraps(options) then shiftSize else 0)
  }

  /** `parse()` on a tokenizer run. */
  function ParseSpec(cfg: Config, run: TokenizerRun): ParseResult {
    match RunEvents(cfg, InitialState(cfg), run.events)
    case Halt(t) => Trapped(t)
    case Continue(st) =>
      match run.outcome
      case Succeeded => Parsed(st.output)
      case Failed(line, column, error) =>
        match error
        case None => Parsed([])
        case Some(e) => Thrown(ParserError(e, line, ReportedColumn(cfg.options, line, column)))
  }

  // ----- the delegate object -----

  /** `Parser`: the delegate, its stack, buffer and output. */
  class Parser {
    const config: Config
    const xml: seq<int>
    var xmlDynamicStyles: seq<Frame>
    var currentString: Option<string>
    var attributedString: AttributedString
    var trap: Option<Trap>

    function State(): ParserState
      reads this
    {
      ParserState(xmlDynamicStyles, currentString, attributedString)
    }

    /** `init(xmlStyle:string:)`. */
    constructor (cfg: Config, text: seq<int>)
      ensures config == cfg && xml == WrappedXml(cfg.options, text)
      ensures State() == InitialState(cfg) && trap.None?
    {
      config := cfg;
      xml := WrappedXml(cfg.options, text);
      attributedString := [];
      currentString := None;
      if cfg.base.Some? {
        xmlDynamicStyles := [Frame(TopTag, cfg.base.value, None)];
      } else {
        xmlDynamicStyles := [];
      }
      trap := None;
    }

    /** `foundNewString()`: the frames applied in a loop from the bottom of the stack up. */
    method FoundNewString()
      modifies this
      ensures State() == Flush(config, old(State()))
      ensures trap == old(trap)
    {
      var content := FromString(currentString.GetOr(""), map[]);
      ghost var start := content;
      for i := 0 to |xmlDynamicStyles|
        invariant content == ApplyFrames(start, xmlDynamicStyles[..i], config.env)
      {
        assert xmlDynamicStyles[..i + 1][..i] == xmlDynamicStyles[..i];
        ghost var before := content;
        var style := xmlDynamicStyles[i].style;
        if style.MutableLiteral? {
          content := style.text;
        } else {
          content := Applying(content, style, config.env);
        }
        assert content == ApplyFrame(before, xmlDynamicStyles[i], config.env);
      }
      assert xmlDynamicStyles[..|xmlDynamicStyles|] == xmlDynamicStyles;
      attributedString := attributedString + content;
      currentString := None;
    }

    /** `enter(element:attributes:)`. */
    method Enter(name: string, attributes: map<string, string>)
      requires trap.None?
      modifies this
      ensures EnterStep(config, old(State()), name, attributes) ==
        (if trap.Some? then Halt(trap.value) else Continue(State()))
    {
      if name == TopTag {
        return;
      }
      if name !in config.styles {
        trap := Some(UnknownTag(name));
        return;
      }
      var custom := config.styles[name];
      var dynamicStyle: Frame;
      if IsAttributedString(custom) || |xmlDynamicStyles| == 1 {
        dynamicStyle := Frame(name, custom, Some(attributes));
      } else if xmlDynamicStyles != [] {
        var last := xmlDynamicStyles[|xmlDynamicStyles| - 1].style;
        dynamicStyle := Frame(name, StyleEntry(Combine(last, custom)), Some(attributes));
      } else {
        trap := Some(NoParentFrame);
        return;
      }
      xmlDynamicStyles := xmlDynamicStyles + [dynamicStyle];
    }

    /** `exit(element:)`. */
    method Exit()
      requires trap.None?
      modifies this
      ensures ExitStep(old(State())) == (if trap.Some? then Halt(trap.value) else Continue(State()))
    {
      if xmlDynamicStyles == [] {
        trap := Some(PopEmptyStack);
        return;
      }
      xmlDynamicStyles := xmlDynamicStyles[..|xmlDynamicStyles| - 1];
    }

    /** The delegate callbacks `didStartElement`, `didEndElement` and `foundCharacters`. */
    method HandleEvent(e: Event)
      requires trap.None?
      modifies this
      ensures StepEvent(config, old(State()), e) == (if trap.Some? then Halt(trap.value) else Continue(State()))
    {
      match e {
        case StartElement(name, attributes) =>
          FoundNewString();
          Enter(name, attributes);
        case EndElement(name) =>
          FoundNewString();
          if name != TopTag {
            Exit();
          }
        case FoundCharacters(text) =>
          currentString := Some(currentString.GetOr("") + text);
      }
    }

    /** `parse()`: runs the tokenizer over the XML, feeding each event to the delegate. */
    method Parse(tokenize: seq<int> -> TokenizerRun) returns (result: ParseResult)
      requires State() == InitialState(config) && trap.None?
      modifies this
      ensures result == ParseSpec(config, tokenize(xml))
    {
      var run := tokenize(xml);
      var events := run.events;
      var i := 0;
      while i < |events| && trap.None?
        invariant 0 <= i <= |events|
        invariant RunEvents(config, InitialState(config), events[..i]) ==
          (if trap.Some? then Halt(trap.value) else Continue(State()))
      {
        assert events[..i + 1][..i] == events[..i];
        HandleEvent(events[i]);
        i := i + 1;
      }
      if trap.Some? {
        RunEventsHaltPersists(config, InitialState(config), events, i);
        return Trapped(trap.value);
      }
      assert events[..i] == events;
      match run.outcome {
        case Succeeded =>
          result := Parsed(attributedString);
        case Failed(line, column, error) =>
          var shiftColumn := line == 1 && DoNotWrapXML !in config.options;
          var shiftSize := |TopTag| + 2;
          var reportedColumn := column - (if shiftColumn then shiftSize else 0);
          if error.None? {
            return Parsed([]);
          }
          result := Thrown(ParserError(error.value, line, reportedColumn));
      }
    }
  }

  // ----- properties -----

  /** Once a run has trapped, no later event resumes it. */
  lemma {:induction false} RunEventsHaltPersists(cfg: Config, st: ParserState, events: seq<Event>, n: nat)
    requires n <= |events| && RunEvents(cfg, st, events[..n]).Halt?
    ensures RunEvents(cfg, st, events) == RunEvents(cfg, st, events[..n])
    decreases |events| - n
  {
    if n < |events| {
      assert events[..n + 1][..n] == events[..n];
      RunEventsHaltPersists(cfg, st, events, n + 1);
    } else {
      assert events[..n] == events;
    }
  }

  /** Character chunks are concatenated into the buffer; nothing else changes. */
  lemma CharactersConcatenate(cfg: Config, st: ParserState, a: string, b: string)
    ensures RunEvents(cfg, st, [FoundCharacters(a), FoundCharacters(b)]) ==
      Continue(st.(currentString := Some(st.currentString.GetOr("") + a + b)))
  {
    var events := [FoundCharacters(a), FoundCharacters(b)];
    assert events[..1] == [FoundCharacters(a)];
    assert [FoundCharacters(a)][..0] == [];
    var first := st.(currentString := Some(st.currentString.GetOr("") + a));
    assert RunEvents(cfg, st, events[..1]) == Continue(first);
  }

  /** Every start and end event flushes first: exactly one run is appended and the buffer is emptied. */
  lemma StartAndEndFlush(cfg: Config, st: ParserState, e: Event)
    requires !e.FoundCharacters? && StepEvent(cfg, st, e).Continue?
    ensures var r := StepEvent(cfg, st, e).state;
      r.output == st.output + FlushRun(cfg, st) && r.currentString.None?
  {
  }

  /** The `source` tag never pushes or pops a frame. */
  lemma TopTagKeepsStack(cfg: Config, st: ParserState, attributes: map<string, string>)
    ensures StepEvent(cfg, st, StartElement(TopTag, attributes)) == Continue(Flush(cfg, st))
    ensures StepEvent(cfg, st, EndElement(TopTag)) == Continue(Flush(cfg, st))
  {
  }

  /** A start tag and the end tag after it restore the depth, whatever the end tag's name. */
  lemma StartEndRestoresDepth(cfg: Config, st: ParserState, name: string, attributes: map<string, string>, other: string)
    requires name != TopTag && other != TopTag
    requires StepEvent(cfg, st, StartElement(name, attributes)).Continue?
    ensures var mid := StepEvent(cfg, st, StartElement(name, attributes)).state;
      |mid.stack| == |st.stack| + 1 &&
      StepEvent(cfg, mid, EndElement(other)).Continue? &&
      StepEvent(cfg, mid, EndElement(other)).state.stack == st.stack
  {
    var mid := StepEvent(cfg, st, StartElement(name, attributes)).state;
    assert mid.stack[..|mid.stack| - 1] == st.stack;
  }

  /** An unknown tag is a fatal error. */
  lemma UnknownTagTraps(cfg: Config, st: ParserState, name: string, attributes: map<string, string>)
    requires name != TopTag && name !in cfg.styles
    ensures StepEvent(cfg, st, StartElement(name, attributes)) == Halt(UnknownTag(name))
  {
  }

  /** A style tag opened with no frame at all, which happens only without a base, is a fatal error. */
  lemma NoBaseStyleTagTraps(cfg: Config, name: string, attributes: map<string, string>)
    requires cfg.base.None? && name != TopTag && name in cfg.styles && cfg.styles[name].StyleEntry?
    ensures StepEvent(cfg, InitialState(cfg), StartElement(name, attributes)) == Halt(NoParentFrame)
  {
  }

  /**
   * A tag opened directly above the base frame is pushed as it is, not
   * combined with the base, so its frame carries none of the base's typed fields.
   */
  lemma FirstLevelIsVerbatim(cfg: Config, name: string, attributes: map<string, string>)
    requires cfg.base.Some? && name != TopTag && name in cfg.styles
    ensures var r := StepEvent(cfg, InitialState(cfg), StartElement(name, attributes));
      r.Continue? && r.state.stack == InitialState(cfg).stack + [Frame(name, cfg.styles[name], Some(attributes))]
  {
  }

  /**
   * The start-tag callback runs `foundNewString()` before `enter`, and the
   * flush leaves the stack as it is.
   */
  lemma StartIsFlushThenEnter(cfg: Config, st: ParserState, name: string, attributes: map<string, string>)
    ensures StepEvent(cfg, st, StartElement(name, attributes)) == EnterStep(cfg, Flush(cfg, st), name, attributes)
    ensures Flush(cfg, st).stack == st.stack
  {
  }

  /**
   * A style tag entered above at least two frames pushes the combination of
   * the top frame with the tag's style, and changes nothing else.
   */
  lemma DeeperTagsCombine(cfg: Config, st: ParserState, name: string, attributes: map<string, string>)
    requires name != TopTag && name in cfg.styles && cfg.styles[name].StyleEntry? && |st.stack| >= 2
    ensures var pushed := Frame(name, StyleEntry(Combine(st.stack[|st.stack| - 1].style, cfg.styles[name])), Some(attributes));
      EnterStep(cfg, st, name, attributes) == Continue(st.(stack := st.stack + [pushed]))
  {
  }

  /** With a mutable attributed string on top of the stack, the run is exactly that string. */
  lemma TopLiteralReplaces(cfg: Config, st: ParserState)
    requires st.stack != [] && st.stack[|st.stack| - 1].style.MutableLiteral?
    ensures FlushRun(cfg, st) == st.stack[|st.stack| - 1].style.text
  {
  }

  /** With a style on top of the stack, every key it writes holds the top style's value in every unit of the run. */
  lemma TopStyleWins(cfg: Config, st: ParserState)
    requires st.stack != [] && !st.stack[|st.stack| - 1].style.MutableLiteral?
    ensures var run := FlushRun(cfg, st);
      var top := StyleAttributes(st.stack[|st.stack| - 1].style, cfg.env);
      forall i, k :: 0 <= i < |run| && k in top ==> k in run[i].attributes && run[i].attributes[k] == top[k]
  {
  }

  /** Without literal frames, a run has the buffered text's UTF-16 units. */
  lemma {:induction false} RunKeepsText(content: AttributedString, frames: seq<Frame>, env: Environment)
    requires forall i :: 0 <= i < |frames| ==> !frames[i].style.MutableLiteral?
    ensures Codes(ApplyFrames(content, frames, env)) == Codes(content)
    decreases |frames|
  {
    if frames != [] {
      RunKeepsText(content, frames[..|frames| - 1], env);
    }
  }

  /**
   * The base font never reaches a first-level run: the frame above the base
   * writes the font its own description resolves, from the system font when
   * it sets none.
   */
  lemma FirstLevelFontIgnoresBase(cfg: Config, name: string, attributes: map<string, string>, text: string)
    requires cfg.base.Some? && name != TopTag && name in cfg.styles && cfg.styles[name].StyleEntry?
    ensures var st := StepEvent(cfg, InitialState(cfg), StartElement(name, attributes)).state;
      var run := FlushRun(cfg, st.(currentString := Some(text)));
      var d := DescriptionOf(cfg.styles[name]);
      forall i :: 0 <= i < |run| ==> run[i].attributes[FontKey] == FontValue(StyleDescriptions.FontAttribute(d, cfg.env))
  {
    var d := DescriptionOf(cfg.styles[name]);
    StyleDescriptions.EncodedHasFont(d, cfg.env);
  }

  /** On failure the column is shifted only for line 1 of wrapped input, and a failure without an error object yields an empty result. */
  lemma FailureReporting(cfg: Config, run: TokenizerRun)
    requires RunEvents(cfg, InitialState(cfg), run.events).Continue? && run.outcome.Failed?
    ensures run.outcome.error.None? ==> ParseSpec(cfg, run) == Parsed([])
    ensures run.outcome.error.Some? ==>
      ParseSpec(cfg, run).Thrown? &&
      ParseSpec(cfg, run).error.line == run.outcome.line &&
      ParseSpec(cfg, run).error.column ==
        run.outcome.column - (if run.outcome.line == 1 && Wraps(cfg.options) then 8 else 0)
  {
  }
}
