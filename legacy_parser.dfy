/**
 * The legacy tag-driven resolver (EasyTextKit/Support/Parser.swift). It reads
 * the same tokenizer events as the newer parser in module `Parsers`, with
 * these differences:
 *
 * - a tag is combined with the frame below it only when both are `TextStyle`
 *   objects, and then by `merge`. This happens at the first level too, and an
 *   empty stack simply pushes;
 * - images become attachments when the buffer is flushed;
 * - a failed parse without an error object traps on a force unwrap.
 *
 * `merge` reads the child's paragraph through its lazy getter, and that getter
 * stores a default paragraph in the child. The child is the object in the
 * style table. So the table entry changes, and so does every frame that holds
 * the same object. The state therefore carries the table, and every frame
 * pushed straight from the table remembers the name it came from.
 */
module LegacyParsers {
  import opened Wrappers
  import opened Platform
  import opened Attributed
  import opened LegacyTextStyles
  import Parsers
  import Builder

  /**
   * What a table entry or the base can be, as the parser's casts tell them apart:
   * - a `TextStyle`;
   * - a nested `XMLTextStyle`, whose own attributes are empty;
   * - a mutable attributed string;
   * - an image (as the attachment it produces);
   * - any other `StyleProtocol` value, which none of the casts match.
   */
  datatype LegacyEntry =
    | TextStyleEntry(style: LegacyState)
    | GroupEntry
    | MutableText(text: AttributedString)
    | Image(attachment: nat)
    | OtherEntry

  /** `XMLDynamicStyle`, plus the table name of the object it shares, if it shares one. */
  datatype LegacyFrame = LegacyFrame(
    tag: string,
    style: LegacyEntry,
    tableName: Option<string>,
    xmlAttributes: Option<map<string, string>>)

  /** The `fatalError` call, `removeLast()` on an empty array, and the force unwrap of a missing parser error. */
  datatype LegacyTrap = UnknownTag(name: string) | PopEmptyStack | NilParserError

  /** What the parser reads from its `XMLTextStyle` besides the table, plus the platform's fonts. */
  datatype LegacyConfig = LegacyConfig(base: Option<LegacyEntry>, options: set<Parsers.ParsingOption>, env: Environment)

  datatype LegacyParserState = LegacyParserState(
    styles: map<string, LegacyEntry>,
    stack: seq<LegacyFrame>,
    currentString: Option<string>,
    output: AttributedString)

  datatype LegacyStep = Continue(state: LegacyParserState) | Halt(trap: LegacyTrap)

  datatype LegacyParseResult =
    | Parsed(text: AttributedString)
    | Thrown(error: Parsers.ParserError)
    | Trapped(trap: LegacyTrap)

  /** The state after `init`: the table, and one base frame under the top tag when there is a base. */
  function InitialState(cfg: LegacyConfig, styles: map<string, LegacyEntry>): (st: LegacyParserState)
    ensures st.styles == styles && st.currentString.None? && st.output == []
    ensures |st.stack| == (if cfg.base.Some? then 1 else 0)
    ensures cfg.base.Some? ==> st.stack[0] == LegacyFrame(Parsers.TopTag, cfg.base.value, None, None)
  {
    var stack := if cfg.base.Some? then [LegacyFrame(Parsers.TopTag, cfg.base.value, None, None)] else [];
    LegacyParserState(styles, stack, None, [])
  }

  // ----- flushing the buffer -----

  /**
   * One pass of the frame loop. A mutable attributed string replaces the
   * content, and so does an image, by its attachment. A text style adds its
   * attributes over the whole content. Anything else leaves the content alone.
   */
  function ApplyLegacyFrame(content: AttributedString, frame: LegacyFrame, env: Environment): AttributedString {
    match frame.style
    case MutableText(text) => text
    case Image(attachment) => Builder.BuildImage(attachment)
    case TextStyleEntry(s) => AddAttributes(content, AttributesOf(s, env), Whole(content))
    case GroupEntry => AddAttributes(content, map[], Whole(content))
    case OtherEntry => content
  }

  /** The frames applied from the bottom of the stack to the top. */
  function ApplyLegacyFrames(content: AttributedString, frames: seq<LegacyFrame>, env: Environment): AttributedString
    decreases |frames|
  {
    if frames == [] then content
    else ApplyLegacyFrame(ApplyLegacyFrames(content, frames[..|frames| - 1], env), frames[|frames| - 1], env)
  }

  /** The run `foundNewString` appends: the buffered text, styled by every frame. */
  function LegacyFlushRun(cfg: LegacyConfig, st: LegacyParserState): AttributedString {
    ApplyLegacyFrames(FromString(st.currentString.GetOr(""), map[]), st.stack, cfg.env)
  }

  /** `foundNewString()`: appends one run and empties the buffer. */
  function LegacyFlush(cfg: LegacyConfig, st: LegacyParserState): (r: LegacyParserState)
    ensures r.styles == st.styles && r.stack == st.stack && r.currentString.None?
    ensures r.output == st.output + LegacyFlushRun(cfg, st)
  {
    st.(currentString := None, output := st.output + LegacyFlushRun(cfg, st))
  }

  // ----- entering and leaving tags -----

  /** The table entry `name` after `merge` has read its paragraph. */
  function Touched(s: LegacyState): LegacyState {
    s.(innerAttributes := WithLazyParagraph(s.innerAttributes))
  }

  /** Every frame that holds the object of table entry `name` sees it as `entry`. */
  function Retarget(stack: seq<LegacyFrame>, name: string, entry: LegacyEntry): (r: seq<LegacyFrame>)
    ensures |r| == |stack|
    ensures forall i :: 0 <= i < |stack| ==>
      r[i] == (if stack[i].tableName == Some(name) then stack[i].(style := entry) else stack[i])
  {
    seq(|stack|, i requires 0 <= i < |stack| =>
      if stack[i].tableName == Some(name) then stack[i].(style := entry) else stack[i])
  }

  /** Whether `enter` merges: the top frame and the table entry are both `TextStyle` objects. */
  predicate Merges(st: LegacyParserState, custom: LegacyEntry) {
    st.stack != [] && st.stack[|st.stack| - 1].style.TextStyleEntry? && custom.TextStyleEntry?
  }

  /** `enter(element:attributes:)`. */
  function LegacyEnterStep(st: LegacyParserState, name: string, attributes: map<string, string>): LegacyStep {
    if name == Parsers.TopTag then Continue(st)
    else if name !in st.styles then Halt(UnknownTag(name))
    else
      var custom := st.styles[name];
      if Merges(st, custom) then
        var parent := st.stack[|st.stack| - 1].style.style;
        var merged := TextStyleEntry(MergeSpec(custom.style, parent));
        var touched := TextStyleEntry(Touched(custom.style));
        Continue(st.(styles := st.styles[name := touched],
          stack := Retarget(st.stack, name, touched) + [LegacyFrame(name, merged, None, Some(attributes))]))
      else
        Continue(st.(stack := st.stack + [LegacyFrame(name, custom, Some(name), Some(attributes))]))
  }

  /**
   * `exit(element:)`: pops the top frame whatever its tag; an empty stack traps.
   * The same step as `Parsers.ExitStep`, over the legacy parser's state.
   */
  function LegacyExitStep(st: LegacyParserState): (r: LegacyStep)
    ensures st.stack == [] <==> r == Halt(PopEmptyStack)
    ensures st.stack != [] ==> r == Continue(st.(stack := st.stack[..|st.stack| - 1]))
  {
    if st.stack == [] then Halt(PopEmptyStack) else Continue(st.(stack := st.stack[..|st.stack| - 1]))
  }

  /** The three delegate callbacks. */
  function LegacyStepEvent(cfg: LegacyConfig, st: LegacyParserState, e: Parsers.Event): LegacyStep {
    match e
    case StartElement(name, attributes) => LegacyEnterStep(LegacyFlush(cfg, st), name, attributes)
    case EndElement(name) =>
      var flushed := LegacyFlush(cfg, st);
      if name == Parsers.TopTag then Continue(flushed) else LegacyExitStep(flushed)
    case FoundCharacters(text) => Continue(st.(currentString := Some(st.currentString.GetOr("") + text)))
  }

  /** The events delivered in order; a trap ends the run. */
  function LegacyRunEvents(cfg: LegacyConfig, st: LegacyParserState, events: seq<Parsers.Event>): LegacyStep
    decreases |events|
  {
    if events == [] then Continue(st)
    else match LegacyRunEvents(cfg, st, events[..|events| - 1])
      case Halt(t) => Halt(t)
      case Continue(s) => LegacyStepEvent(cfg, s, events[|events| - 1])
  }

  /** `parse()` on a tokenizer run. A failure without an error object traps on the force unwrap. */
  function LegacyParseSpec(cfg: LegacyConfig, styles: map<string, LegacyEntry>, run: Parsers.TokenizerRun): LegacyParseResult {
    match LegacyRunEvents(cfg, InitialState(cfg, styles), run.events)
    case Halt(t) => Trapped(t)
    case Continue(st) =>
      match run.outcome
      case Succeeded => Parsed(st.output)
      case Failed(line, column, error) =>
        match error
        case None => Trapped(NilParserError)
        case Some(e) => Thrown(Parsers.ParserError(e, line, Parsers.ReportedColumn(cfg.options, line, column)))
  }

  // ----- the delegate object -----

  /** The legacy `Parser`: the delegate, the style table it reaches through, its stack, buffer and output. */
  class LegacyParser {
    const config: LegacyConfig
    const xml: seq<int>
    var styles: map<string, LegacyEntry>
    var xmlDynamicStyles: seq<LegacyFrame>
    var currentString: Option<string>
    var attributedString: AttributedString
    var trap: Option<LegacyTrap>

    function State(): LegacyParserState
      reads this
    {
      LegacyParserState(styles, xmlDynamicStyles, currentString, attributedString)
    }

    /** `init(styleGroup:string:)`. */
    constructor (cfg: LegacyConfig, table: map<string, LegacyEntry>, text: seq<int>)
      ensures config == cfg && xml == Parsers.WrappedXml(cfg.options, text)
      ensures State() == InitialState(cfg, table) && trap.None?
    {
      config := cfg;
      xml := Parsers.WrappedXml(cfg.options, text);
      styles := table;
      attributedString := [];
      currentString := None;
      if cfg.base.Some? {
        xmlDynamicStyles := [LegacyFrame(Parsers.TopTag, cfg.base.value, None, None)];
      } else {
        xmlDynamicStyles := [];
      }
      trap := None;
    }

    /** `foundNewString()`: the frames applied in a loop from the bottom of the stack up. */
    method FoundNewString()
      modifies this
      ensures State() == LegacyFlush(config, old(State()))
      ensures trap == old(trap)
    {
      var content := FromString(currentString.GetOr(""), map[]);
      ghost var start := content;
      for i := 0 to |xmlDynamicStyles|
        invariant content == ApplyLegacyFrames(start, xmlDynamicStyles[..i], config.env)
      {
        assert xmlDynamicStyles[..i + 1][..i] == xmlDynamicStyles[..i];
        ghost var before := content;
        var style := xmlDynamicStyles[i].style;
        if style.MutableText? {
          content := style.text;
        } else if style.Image? {
          content := Builder.BuildImage(style.attachment);
        } else if style.TextStyleEntry? {
          content := AddAttributes(content, AttributesOf(style.style, config.env), Whole(content));
        } else if style.GroupEntry? {
          content := AddAttributes(content, map[], Whole(content));
        }
        assert content == ApplyLegacyFrame(before, xmlDynamicStyles[i], config.env);
      }
      assert xmlDynamicStyles[..|xmlDynamicStyles|] == xmlDynamicStyles;
      attributedString := attributedString + content;
      currentString := None;
    }

    /** `enter(element:attributes:)`. */
    method Enter(name: string, attributes: map<string, string>)
      requires trap.None?
      modifies this
      ensures LegacyEnterStep(old(State()), name, attributes) ==
        (if trap.Some? then Halt(trap.value) else Continue(State()))
    {
      if name == Parsers.TopTag {
        return;
      }
      if name !in styles {
        trap := Some(UnknownTag(name));
        return;
      }
      var custom := styles[name];
      var dynamicStyle: LegacyFrame;
      if xmlDynamicStyles != [] && xmlDynamicStyles[|xmlDynamicStyles| - 1].style.TextStyleEntry? && custom.TextStyleEntry? {
        var last := xmlDynamicStyles[|xmlDynamicStyles| - 1].style.style;
        dynamicStyle := LegacyFrame(name, TextStyleEntry(MergeSpec(custom.style, last)), None, Some(attributes));
        var touched := TextStyleEntry(Touched(custom.style));
        styles := styles[name := touched];
        xmlDynamicStyles := Retarget(xmlDynamicStyles, name, touched);
      } else {
        dynamicStyle := LegacyFrame(name, custom, Some(name), Some(attributes));
      }
      xmlDynamicStyles := xmlDynamicStyles + [dynamicStyle];
    }

    /** `exit(element:)`. */
    method Exit()
      requires trap.None?
      modifies this
      ensures LegacyExitStep(old(State())) == (if trap.Some? then Halt(trap.value) else Continue(State()))
    {
      if xmlDynamicStyles == [] {
        trap := Some(PopEmptyStack);
        return;
      }
      xmlDynamicStyles := xmlDynamicStyles[..|xmlDynamicStyles| - 1];
    }

    /** The delegate callbacks `didStartElement`, `didEndElement` and `foundCharacters`. */
    method HandleEvent(e: Parsers.Event)
      requires trap.None?
      modifies this
      ensures LegacyStepEvent(config, old(State()), e) == (if trap.Some? then Halt(trap.value) else Continue(State()))
    {
      match e {
        case StartElement(name, attributes) =>
          FoundNewString();
          Enter(name, attributes);
        case EndElement(name) =>
          FoundNewString();
          if name != Parsers.TopTag {
            Exit();
          }
        case FoundCharacters(text) =>
          currentString := Some(currentString.GetOr("") + text);
      }
    }

    /** `parse()`: runs the tokenizer over the XML, feeding each event to the delegate. */
    method Parse(tokenize: seq<int> -> Parsers.TokenizerRun) returns (result: LegacyParseResult)
      requires State() == InitialState(config, styles) && trap.None?
      modifies this
      ensures result == LegacyParseSpec(config, old(styles), tokenize(xml))
    {
      ghost var table := styles;
      var run := tokenize(xml);
      var events := run.events;
      var i := 0;
      while i < |events| && trap.None?
        invariant 0 <= i <= |events|
        invariant LegacyRunEvents(config, InitialState(config, table), events[..i]) ==
          (if trap.Some? then Halt(trap.value) else Continue(State()))
      {
        assert events[..i + 1][..i] == events[..i];
        HandleEvent(events[i]);
        i := i + 1;
      }
      if trap.Some? {
        LegacyHaltPersists(config, InitialState(config, table), events, i);
        return Trapped(trap.value);
      }
      assert events[..i] == events;
      match run.outcome {
        case Succeeded =>
          result := Parsed(attributedString);
        case Failed(line, column, error) =>
          var shiftColumn := line == 1 && Parsers.DoNotWrapXML !in config.options;
          var shiftSize := |Parsers.TopTag| + 2;
          var reportedColumn := column - (if shiftColumn then shiftSize else 0);
          if error.None? {
            trap := Some(NilParserError);
            return Trapped(NilParserError);
          }
          result := Thrown(Parsers.ParserError(error.value, line, reportedColumn));
      }
    }
  }

  // ----- properties -----

  /** Once a run has trapped, no later event resumes it. */
  lemma {:induction false} LegacyHaltPersists(cfg: LegacyConfig, st: LegacyParserState, events: seq<Parsers.Event>, n: nat)
    requires n <= |events| && LegacyRunEvents(cfg, st, events[..n]).Halt?
    ensures LegacyRunEvents(cfg, st, events) == LegacyRunEvents(cfg, st, events[..n])
    decreases |events| - n
  {
    if n < |events| {
      assert events[..n + 1][..n] == events[..n];
      LegacyHaltPersists(cfg, st, events, n + 1);
    } else {
      assert events[..n] == events;
    }
  }

  /** An unknown tag is a fatal error, with or without frames on the stack. */
  lemma LegacyUnknownTagTraps(cfg: LegacyConfig, st: LegacyParserState, name: string, attributes: map<string, string>)
    requires name != Parsers.TopTag && name !in st.styles
    ensures LegacyStepEvent(cfg, st, Parsers.StartElement(name, attributes)) == Halt(UnknownTag(name))
  {
  }

  /** The `source` tag never pushes or pops a frame and never touches the table. */
  lemma LegacyTopTagKeepsStack(cfg: LegacyConfig, st: LegacyParserState, attributes: map<string, string>)
    ensures LegacyStepEvent(cfg, st, Parsers.StartElement(Parsers.TopTag, attributes)) == Continue(LegacyFlush(cfg, st))
    ensures LegacyStepEvent(cfg, st, Parsers.EndElement(Parsers.TopTag)) == Continue(LegacyFlush(cfg, st))
  {
  }

  /** A known tag never traps on entry: with no frame below it, it is simply pushed. */
  lemma KnownTagNeverTraps(cfg: LegacyConfig, st: LegacyParserState, name: string, attributes: map<string, string>)
    requires name == Parsers.TopTag || name in st.styles
    ensures LegacyStepEvent(cfg, st, Parsers.StartElement(name, attributes)).Continue?
  {
  }

  /** A start tag and the end tag after it restore the depth, whatever the end tag's name. */
  lemma LegacyStartEndRestoresDepth(cfg: LegacyConfig, st: LegacyParserState, name: string, attributes: map<string, string>, other: string)
    requires name != Parsers.TopTag && other != Parsers.TopTag && name in st.styles
    ensures var mid := LegacyStepEvent(cfg, st, Parsers.StartElement(name, attributes));
      mid.Continue? && |mid.state.stack| == |st.stack| + 1 &&
      LegacyStepEvent(cfg, mid.state, Parsers.EndElement(other)).Continue? &&
      |LegacyStepEvent(cfg, mid.state, Parsers.EndElement(other)).state.stack| == |st.stack|
  {
  }

  /**
   * Unlike the newer parser, a `TextStyle` tag opened directly above a
   * `TextStyle` base is merged with it.
   */
  lemma FirstLevelMerges(cfg: LegacyConfig, styles: map<string, LegacyEntry>, name: string, attributes: map<string, string>)
    requires cfg.base.Some? && cfg.base.value.TextStyleEntry?
    requires name != Parsers.TopTag && name in styles && styles[name].TextStyleEntry?
    ensures var r := LegacyStepEvent(cfg, InitialState(cfg, styles), Parsers.StartElement(name, attributes));
      r.Continue? && |r.state.stack| == 2 &&
      r.state.stack[1] == LegacyFrame(name, TextStyleEntry(MergeSpec(styles[name].style, cfg.base.value.style)), None, Some(attributes))
  {
  }

  /**
   * Merging changes the table: the child's entry afterwards holds a stored
   * paragraph, the one it read lazily, and no other entry changes.
   */
  lemma MergeStoresParagraphInTable(cfg: LegacyConfig, st: LegacyParserState, name: string, attributes: map<string, string>)
    requires name != Parsers.TopTag && name in st.styles && Merges(st, st.styles[name])
    ensures var r := LegacyStepEvent(cfg, st, Parsers.StartElement(name, attributes));
      var inner := st.styles[name].style.innerAttributes;
      r.Continue? && r.state.styles.Keys == st.styles.Keys &&
      r.state.styles[name].TextStyleEntry? &&
      ParagraphStyleKey in r.state.styles[name].style.innerAttributes &&
      r.state.styles[name].style.innerAttributes[ParagraphStyleKey] == ParagraphValue(LazyParagraph(inner)) &&
      (forall n :: n in st.styles && n != name ==> r.state.styles[n] == st.styles[n])
  {
  }

  /** A tag that does not merge is pushed as the very table object, marked with its name. */
  lemma VerbatimSharesTableEntry(cfg: LegacyConfig, st: LegacyParserState, name: string, attributes: map<string, string>)
    requires name != Parsers.TopTag && name in st.styles && !Merges(LegacyFlush(cfg, st), st.styles[name])
    ensures var r := LegacyStepEvent(cfg, st, Parsers.StartElement(name, attributes));
      r.Continue? && r.state.styles == st.styles &&
      r.state.stack == st.stack + [LegacyFrame(name, st.styles[name], Some(name), Some(attributes))]
  {
  }

  // ----- frames share their table entry -----

  /** Every frame pushed straight from the table still holds that table entry. */
  ghost predicate FramesShareTable(st: LegacyParserState) {
    forall i :: 0 <= i < |st.stack| && st.stack[i].tableName.Some? ==>
      st.stack[i].tableName.value in st.styles && st.stack[i].style == st.styles[st.stack[i].tableName.value]
  }

  lemma InitialFramesShareTable(cfg: LegacyConfig, styles: map<string, LegacyEntry>)
    ensures FramesShareTable(InitialState(cfg, styles))
  {
  }

  /** Each event keeps the frames in step with the table, and the table's names never change. */
  lemma StepKeepsFramesShared(cfg: LegacyConfig, st: LegacyParserState, e: Parsers.Event)
    requires FramesShareTable(st)
    requires LegacyStepEvent(cfg, st, e).Continue?
    ensures FramesShareTable(LegacyStepEvent(cfg, st, e).state)
    ensures LegacyStepEvent(cfg, st, e).state.styles.Keys == st.styles.Keys
  {
    var flushed := LegacyFlush(cfg, st);
    if e.StartElement? && e.name != Parsers.TopTag && e.name in st.styles {
      var name := e.name;
      var custom := st.styles[name];
      var r := LegacyStepEvent(cfg, st, e).state;
      if Merges(flushed, custom) {
        var touched := TextStyleEntry(Touched(custom.style));
        forall i | 0 <= i < |r.stack| && r.stack[i].tableName.Some?
          ensures r.stack[i].tableName.value in r.styles && r.stack[i].style == r.styles[r.stack[i].tableName.value]
        {
          assert i < |st.stack|;
        }
      } else {
        forall i | 0 <= i < |r.stack| && r.stack[i].tableName.Some?
          ensures r.stack[i].tableName.value in r.styles && r.stack[i].style == r.styles[r.stack[i].tableName.value]
        {
          if i < |st.stack| {
            assert r.stack[i] == st.stack[i];
          }
        }
      }
    }
  }

  /** A whole run of events keeps the frames in step with the table. */
  lemma {:induction false} RunKeepsFramesShared(cfg: LegacyConfig, st: LegacyParserState, events: seq<Parsers.Event>)
    requires FramesShareTable(st)
    requires LegacyRunEvents(cfg, st, events).Continue?
    ensures FramesShareTable(LegacyRunEvents(cfg, st, events).state)
    ensures LegacyRunEvents(cfg, st, events).state.styles.Keys == st.styles.Keys
    decreases |events|
  {
    if events != [] {
      var prefix := events[..|events| - 1];
      RunKeepsFramesShared(cfg, st, prefix);
      StepKeepsFramesShared(cfg, LegacyRunEvents(cfg, st, prefix).state, events[|events| - 1]);
    }
  }

  // ----- flushing -----

  /**
   * With an attributed string or an image on top of the stack, the run is that
   * string, or the image's attachment, whatever the text and the frames below.
   */
  lemma TopReplacingFrameDecides(cfg: LegacyConfig, st: LegacyParserState)
    requires st.stack != []
    ensures var top := st.stack[|st.stack| - 1].style;
      top.MutableText? ==> LegacyFlushRun(cfg, st) == top.text
    ensures var top := st.stack[|st.stack| - 1].style;
      top.Image? ==> LegacyFlushRun(cfg, st) == Builder.BuildImage(top.attachment)
  {
  }

  /** The frames that none of the casts match leave the content as it is. */
  lemma OtherFramesKeepContent(content: AttributedString, frames: seq<LegacyFrame>, env: Environment)
    requires forall i :: 0 <= i < |frames| ==> frames[i].style.OtherEntry? || frames[i].style.GroupEntry?
    ensures ApplyLegacyFrames(content, frames, env) == content
    decreases |frames|
  {
    if frames != [] {
      var n := |frames| - 1;
      OtherFramesKeepContent(content, frames[..n], env);
      AddNothing(content, Whole(content));
    }
  }

  /** A frame's text style adds exactly its `attributes` to every unit of the run. */
  lemma TextStyleFrameAddsAttributes(content: AttributedString, frame: LegacyFrame, env: Environment, i: nat)
    requires frame.style.TextStyleEntry? && i < |content|
    ensures var r := ApplyLegacyFrame(content, frame, env);
      |r| == |content| && r[i].code == content[i].code &&
      r[i].attributes == content[i].attributes + AttributesOf(frame.style.style, env)
  {
  }

  // ----- outcome -----

  /**
   * A failure that comes without an error object traps, where the newer
   * parser gives the empty string.
   */
  lemma LegacyNilErrorTraps(cfg: LegacyConfig, styles: map<string, LegacyEntry>, run: Parsers.TokenizerRun)
    requires LegacyRunEvents(cfg, InitialState(cfg, styles), run.events).Continue?
    requires run.outcome.Failed? && run.outcome.error.None?
    ensures LegacyParseSpec(cfg, styles, run) == Trapped(NilParserError)
  {
  }

  /** A failure with an error throws it, the column shifted past `<source>` only on line 1 of wrapped input. */
  lemma LegacyFailureReporting(cfg: LegacyConfig, styles: map<string, LegacyEntry>, run: Parsers.TokenizerRun)
    requires LegacyRunEvents(cfg, InitialState(cfg, styles), run.events).Continue?
    requires run.outcome.Failed? && run.outcome.error.Some?
    ensures LegacyParseSpec(cfg, styles, run) == Thrown(Parsers.ParserError(run.outcome.error.value, run.outcome.line,
      run.outcome.column - (if run.outcome.line == 1 && Parsers.DoNotWrapXML !in cfg.options then 8 else 0)))
  {
  }
}
