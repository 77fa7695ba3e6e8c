/**
 * `XMLStyle` (Source/TextStyle/XMLStyle.swift): a style table and an optional
 * base, applied by parsing the tagged text of a string. Its own description is
 * the empty one, and the range a caller passes is not used.
 */
module XmlStyles {
  import opened Wrappers
  import opened Platform
  import opened Attributed
  import StyleDescriptions
  import opened StyleProtocol
  import opened Parsers

  datatype XmlStyle = XmlStyle(
    styleDescription: StyleDescriptions.StyleDescription,
    styles: map<string, Entry>,
    base: Option<Entry>,
    parsingOptions: set<ParsingOption>)

  /** `init(base:_:options:)`: the description starts empty. */
  function Init(base: Option<Entry>, styles: map<string, Entry>, options: set<ParsingOption>): (x: XmlStyle)
    ensures x.styleDescription == StyleDescriptions.Empty
    ensures x.styles == styles && x.base == base && x.parsingOptions == options
  {
    XmlStyle(StyleDescriptions.Init(map[]), styles, base, options)
  }

  /** What a `Parser` created for this style reads from it. */
  function ConfigOf(x: XmlStyle, env: Environment): Config {
    Config(x.styles, x.base, x.parsingOptions, env)
  }

  /** What applying gives: a result string, or the process ends at a trap. */
  datatype Applied = Produced(text: AttributedString) | Crashed(trap: Trap)

  /** `apply(to:range:)`: the parsed text, or the input itself when the parser throws. */
  function ApplySpec(x: XmlStyle, attributed: AttributedString, tokenize: seq<int> -> TokenizerRun, env: Environment): Applied {
    var cfg := ConfigOf(x, env);
    match ParseSpec(cfg, tokenize(WrappedXml(x.parsingOptions, Codes(attributed))))
    case Parsed(text) => Produced(text)
    case Thrown(_) => Produced(attributed)
    case Trapped(t) => Crashed(t)
  }

  /** `apply(to:range:)`: builds a parser over the string's text and parses it. */
  method Apply(x: XmlStyle, attributed: AttributedString, range: Option<Range>, tokenize: seq<int> -> TokenizerRun, env: Environment)
      returns (r: Applied)
    ensures r == ApplySpec(x, attributed, tokenize, env)
  {
    var parser := new Parser(ConfigOf(x, env), Codes(attributed));
    var result := parser.Parse(tokenize);
    match result {
      case Parsed(text) => r := Produced(text);
      case Thrown(_) => r := Produced(attributed);
      case Trapped(t) => r := Crashed(t);
    }
  }

  /** `set(to: String, range:)`: a plain string without attributes, then `apply`. */
  method SetToString(x: XmlStyle, source: string, range: Option<Range>, tokenize: seq<int> -> TokenizerRun, env: Environment)
      returns (r: Applied)
    ensures r == ApplySpec(x, FromString(source, map[]), tokenize, env)
  {
    r := Apply(x, FromString(source, map[]), range, tokenize, env);
  }

  /** `set(to: AttributedString, range:)`: straight to `apply`. */
  method SetToAttributed(x: XmlStyle, source: AttributedString, range: Option<Range>, tokenize: seq<int> -> TokenizerRun, env: Environment)
      returns (r: Applied)
    ensures r == ApplySpec(x, source, tokenize, env)
  {
    r := Apply(x, source, range, tokenize, env);
  }

  /** The tokenizer sees the text wrapped in the top tag unless `doNotWrapXML` is set; the attributes of the input never reach it. */
  lemma TokenizerSeesText(x: XmlStyle, a: AttributedString, b: AttributedString, tokenize: seq<int> -> TokenizerRun, env: Environment)
    requires Codes(a) == Codes(b)
    requires tokenize(WrappedXml(x.parsingOptions, Codes(a))).outcome.Succeeded?
    ensures ApplySpec(x, a, tokenize, env) == ApplySpec(x, b, tokenize, env)
  {
  }

  /** A parse that throws hands back the input unchanged, attributes and all. */
  lemma ThrownKeepsInput(x: XmlStyle, attributed: AttributedString, tokenize: seq<int> -> TokenizerRun, env: Environment)
    requires var cfg := ConfigOf(x, env);
      ParseSpec(cfg, tokenize(WrappedXml(x.parsingOptions, Codes(attributed)))).Thrown?
    ensures ApplySpec(x, attributed, tokenize, env) == Produced(attributed)
  {
  }

  /**
   * A parse that fails without an error object is not a throw: the result is
   * the empty string, and the input is lost.
   */
  lemma SilentFailureEmpties(x: XmlStyle, attributed: AttributedString, tokenize: seq<int> -> TokenizerRun, env: Environment)
    requires var cfg := ConfigOf(x, env);
      var run := tokenize(WrappedXml(x.parsingOptions, Codes(attributed)));
      RunEvents(cfg, InitialState(cfg), run.events).Continue? && run.outcome.Failed? && run.outcome.error.None?
    ensures ApplySpec(x, attributed, tokenize, env) == Produced([])
  {
  }

  /**
   * A successful parse with no events, which only an unwrapped empty input can
   * give, produces the empty string whatever the base.
   */
  lemma NoEventsNoText(x: XmlStyle, attributed: AttributedString, tokenize: seq<int> -> TokenizerRun, env: Environment)
    requires var run := tokenize(WrappedXml(x.parsingOptions, Codes(attributed)));
      run.events == [] && run.outcome.Succeeded?
    ensures ApplySpec(x, attributed, tokenize, env) == Produced([])
  {
  }
}
