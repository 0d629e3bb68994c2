/**
 * The HTML-to-MJML converter (scripts/utils/inactive/mjml_converter.py): the
 * recursive serialiser that maps HTML tags to MJML tags, the line-oriented CSS
 * rule parser, and the attribute defaults applied to images and headings.
 */
module MjmlConverter {
  import opened Wrappers
  import opened Strings
  import Dict
  import Json

  // ---------------------------------------------------------------------------
  // convert_element_to_mjml
  // ---------------------------------------------------------------------------

  /**
   * An attribute value as BeautifulSoup's `html.parser` tree holds it: a string,
   * or, for the attributes it treats as multi-valued (`class`, `rel`, `rev`,
   * `headers`, `accesskey`, `accept-charset`, `dropzone`), the list of the
   * value's whitespace-separated words.
   */
  datatype AttrValue = Single(value: string) | Multi(words: seq<string>)

  /** A parsed HTML node: a text node, or an element with its attributes in order and its children. */
  datatype Node =
    | Text(text: string)
    | Element(name: string, attrs: seq<(string, AttrValue)>, children: seq<Node>)

  /** `tag_mapping`: the MJML tag for the HTML tags the converter knows. */
  const TagMapping: map<string, string> := map[
    "div" := "mj-section", "h1" := "mj-text", "h2" := "mj-text", "h3" := "mj-text",
    "h4" := "mj-text", "h5" := "mj-text", "h6" := "mj-text", "p" := "mj-text",
    "img" := "mj-image", "a" := "mj-button", "section" := "mj-section", "span" := "mj-text",
    "ul" := "mj-text", "li" := "mj-text", "table" := "mj-table"]

  /** `tag_mapping.get(name, name)`: a known tag is mapped to an `mj-` tag, any other is kept. */
  function MjmlTag(name: string): (tag: string)
    ensures name in TagMapping ==> StartsWith(tag, "mj-") && '>' !in tag
    ensures name !in TagMapping ==> tag == name
  {
    if name in TagMapping then
      var tag := TagMapping[name];
      assert tag in ["mj-section", "mj-text", "mj-image", "mj-button", "mj-table"];
      tag
    else name
  }

  /** The words of a multi-valued attribute as a Python list. */
  function WordList(words: seq<string>): Json.Json {
    Json.Arr(seq(|words|, i requires 0 <= i < |words| => Json.Str(words[i])))
  }

  /** `str(v)` inside the f-string: a string as it is, a list as its `repr`. */
  function ValueText(v: AttrValue): string {
    match v
    case Single(value) => value
    case Multi(words) => Json.Repr(WordList(words))
  }

  /** A list value is written as the `repr` of each word, comma-separated inside brackets. */
  lemma MultiValueText(words: seq<string>)
    ensures ValueText(Multi(words)) == "[" + Join(", ", seq(|words|, i requires 0 <= i < |words| => ReprString(words[i]))) + "]"
  {
    var items := WordList(words).items;
    assert seq(|items|, i requires 0 <= i < |items| => Json.Repr(items[i]))
        == seq(|words|, i requires 0 <= i < |words| => ReprString(words[i]));
  }

  /** Plain words, such as class names, are each written between single quotes: `class="a b"` gives `['a', 'b']`. */
  lemma PlainWordsValueText(words: seq<string>)
    requires forall i, k :: 0 <= i < |words| && 0 <= k < |words[i]| ==> IsPrintable(words[i][k]) && words[i][k] !in "'\"\\"
    ensures ValueText(Multi(words)) == "[" + Join(", ", seq(|words|, i requires 0 <= i < |words| => "'" + words[i] + "'")) + "]"
  {
    MultiValueText(words);
    forall i | 0 <= i < |words| ensures ReprString(words[i]) == "'" + words[i] + "'" {
      ReprStringPlain(words[i]);
    }
    assert seq(|words|, i requires 0 <= i < |words| => ReprString(words[i]))
        == seq(|words|, i requires 0 <= i < |words| => "'" + words[i] + "'");
  }

  /** A value without `>`: no `>` in the string, or in any word of the list. */
  predicate ValueAvoidsAngle(v: AttrValue) {
    match v
    case Single(value) => '>' !in value
    case Multi(words) => forall i :: 0 <= i < |words| ==> '>' !in words[i]
  }

  /** `f'{k}="{v}"'`. */
  function AttributeText(attr: (string, AttrValue)): string {
    attr.0 + "=\"" + ValueText(attr.1) + "\""
  }

  /** The attribute texts, in attribute order. */
  function AttributeTexts(attrs: seq<(string, AttrValue)>): (r: seq<string>)
    ensures |r| == |attrs|
    ensures forall i :: 0 <= i < |attrs| ==> r[i] == AttributeText(attrs[i])
  {
    if attrs == [] then [] else [AttributeText(attrs[0])] + AttributeTexts(attrs[1..])
  }

  /** `convert_element_to_mjml(element)`. */
  function Convert(n: Node): (r: string)
    ensures n.Text? ==> r == n.text
    ensures n.Element? ==> StartsWith(r, "<" + MjmlTag(n.name) + " ") && EndsWith(r, "</" + MjmlTag(n.name) + ">")
    decreases n, 1, 0
  {
    match n
    case Text(t) => t
    case Element(name, attrs, children) =>
      assert forall i :: 0 <= i < |children| ==> children[i] in children;
      var tag := MjmlTag(name);
      var attributes := Join(" ", AttributeTexts(attrs));
      var content := ConvertAll(children, n);
      Framed(tag, attributes, content);
      "<" + tag + " " + attributes + ">" + content + "</" + tag + ">"
  }

  /** An element's text begins with its opening tag's head and ends with its closing tag. */
  lemma Framed(tag: string, attributes: string, content: string)
    ensures var r := "<" + tag + " " + attributes + ">" + content + "</" + tag + ">";
            StartsWith(r, "<" + tag + " ") && EndsWith(r, "</" + tag + ">")
  {
    var r := "<" + tag + " " + attributes + ">" + content + "</" + tag + ">";
    assert r[..|"<" + tag + " "|] == "<" + tag + " ";
    assert r[|r| - |"</" + tag + ">"|..] == "</" + tag + ">";
  }

  /** `''.join(convert_element_to_mjml(child) for child in element.children)`. */
  function ConvertAll(children: seq<Node>, ghost parent: Node): string
    requires forall i :: 0 <= i < |children| ==> children[i] < parent
    decreases parent, 0, |children|
  {
    if children == [] then "" else Convert(children[0]) + ConvertAll(children[1..], parent)
  }

  /** The text of a node: its text nodes, in document order. */
  function TextContent(n: Node): string
    decreases n, 1, 0
  {
    match n
    case Text(t) => t
    case Element(_, _, children) =>
      assert forall i :: 0 <= i < |children| ==> children[i] in children;
      TextContents(children, n)
  }

  /** The text of a sequence of nodes. */
  function TextContents(children: seq<Node>, ghost parent: Node): string
    requires forall i :: 0 <= i < |children| ==> children[i] < parent
    decreases parent, 0, |children|
  {
    if children == [] then "" else TextContent(children[0]) + TextContents(children[1..], parent)
  }

  /** The text after the first `>` of `s` (nothing when there is none). */
  function SkipTag(s: string): (r: string)
    ensures |r| <= |s|
  {
    if s == [] then [] else if s[0] == '>' then s[1..] else SkipTag(s[1..])
  }

  /** The text of a serialised document with every `<...>` tag removed. */
  function StripTags(s: string): string
    decreases |s|
  {
    if s == [] then []
    else if s[0] == '<' then StripTags(SkipTag(s[1..]))
    else [s[0]] + StripTags(s[1..])
  }

  /** Text without `<`, attributes and tag names without `>`, everywhere in the tree. */
  predicate WellFormed(n: Node)
    decreases n, 1, 0
  {
    match n
    case Text(t) => '<' !in t
    case Element(name, attrs, children) =>
      assert forall i :: 0 <= i < |children| ==> children[i] in children;
      '>' !in name
      && (forall i :: 0 <= i < |attrs| ==> '>' !in attrs[i].0 && ValueAvoidsAngle(attrs[i].1))
      && AllWellFormed(children, n)
  }

  /** Every node of `children` is well formed. */
  predicate AllWellFormed(children: seq<Node>, ghost parent: Node)
    requires forall i :: 0 <= i < |children| ==> children[i] < parent
    decreases parent, 0, |children|
  {
    children == [] || (WellFormed(children[0]) && AllWellFormed(children[1..], parent))
  }

  /** Skipping a tag whose body has no `>` resumes right after its `>`. */
  lemma {:induction false} SkipTagPast(x: string, rest: string)
    requires '>' !in x
    ensures SkipTag(x + ">" + rest) == rest
  {
    if x != [] {
      assert (x + ">" + rest)[1..] == x[1..] + ">" + rest;
      SkipTagPast(x[1..], rest);
    }
  }

  /** Plain text passes through tag stripping unchanged. */
  lemma {:induction false} StripPlainText(t: string, rest: string)
    requires '<' !in t
    ensures StripTags(t + rest) == t + StripTags(rest)
  {
    if t != [] {
      assert (t + rest)[0] == t[0] && t[0] in t;
      assert (t + rest)[1..] == t[1..] + rest;
      assert forall c :: c in t[1..] ==> c in t;
      StripPlainText(t[1..], rest);
      assert StripTags(t + rest) == [t[0]] + StripTags(t[1..] + rest);
      assert t == [t[0]] + t[1..];
    } else {
      assert t + rest == rest;
    }
  }

  /** A whole tag whose body has no `>` is removed. */
  lemma StripWholeTag(body: string, rest: string)
    requires '>' !in body
    ensures StripTags("<" + body + ">" + rest) == StripTags(rest)
  {
    var s := "<" + body + ">" + rest;
    assert s[0] == '<' && s[1..] == body + ">" + rest;
    SkipTagPast(body, rest);
  }

  /** An attribute without `>` in its name or value renders without `>`. */
  lemma AttributeTextAvoids(attr: (string, AttrValue))
    requires '>' !in attr.0 && ValueAvoidsAngle(attr.1)
    ensures '>' !in AttributeText(attr)
  {
    ValueTextAvoids(attr.1);
  }

  /** A value without `>` is written without `>`, a list's `repr` included. */
  lemma ValueTextAvoids(v: AttrValue)
    requires ValueAvoidsAngle(v)
    ensures '>' !in ValueText(v)
  {
    if v.Multi? {
      var words := v.words;
      var reprs := seq(|words|, i requires 0 <= i < |words| => ReprString(words[i]));
      forall i | 0 <= i < |reprs| ensures '>' !in reprs[i] {
        ReprStringAvoids(words[i], '>');
      }
      JoinAvoids('>', ", ", reprs);
      MultiValueText(words);
    }
  }

  /** A tag name without `>` maps to a tag without `>`. */
  lemma MjmlTagAvoids(name: string)
    requires '>' !in name
    ensures '>' !in MjmlTag(name)
  {
  }

  /** The opening tag's body has no `>` when the tag name and the attributes have none. */
  lemma OpeningTagAvoids(name: string, attrs: seq<(string, AttrValue)>)
    requires '>' !in name
    requires forall i :: 0 <= i < |attrs| ==> '>' !in attrs[i].0 && ValueAvoidsAngle(attrs[i].1)
    ensures '>' !in MjmlTag(name) + " " + Join(" ", AttributeTexts(attrs))
  {
    var texts := AttributeTexts(attrs);
    forall i | 0 <= i < |texts| ensures '>' !in texts[i] {
      AttributeTextAvoids(attrs[i]);
    }
    JoinAvoids('>', " ", texts);
    MjmlTagAvoids(name);
  }

  /** A joined string has only characters of its parts and of the separator. */
  lemma {:induction false} JoinAvoids(c: char, sep: string, parts: seq<string>)
    requires c !in sep && forall i :: 0 <= i < |parts| ==> c !in parts[i]
    ensures c !in Join(sep, parts)
  {
    if |parts| > 1 {
      JoinAvoids(c, sep, parts[1..]);
    }
  }

  /**
   * The conversion keeps the document's text: removing the tags from the MJML
   * output leaves exactly the text nodes of the HTML, in order.
   */
  lemma ConvertKeepsText(n: Node)
    requires WellFormed(n)
    ensures StripTags(Convert(n)) == TextContent(n)
  {
    ConvertThenRest(n, "");
    assert Convert(n) + "" == Convert(n);
  }

  /** `ConvertKeepsText` with the output followed by further text. */
  lemma {:induction false} ConvertThenRest(n: Node, rest: string)
    requires WellFormed(n)
    ensures StripTags(Convert(n) + rest) == TextContent(n) + StripTags(rest)
    decreases n, 1, 0
  {
    match n
    case Text(t) => StripPlainText(t, rest);
    case Element(name, attrs, children) =>
      assert forall i :: 0 <= i < |children| ==> children[i] in children;
      var tag := MjmlTag(name);
      var head := tag + " " + Join(" ", AttributeTexts(attrs));
      var content := ConvertAll(children, n);
      var close := "<" + ("/" + tag) + ">" + rest;
      OpeningTagAvoids(name, attrs);
      ElementTextThenRest(n, rest);
      StripWholeTag(head, content + close);
      ConvertAllThenRest(children, n, close);
      StripWholeTag("/" + tag, rest);
  }

  /** An element's output followed by `rest`, split into its opening tag, its content and the rest. */
  lemma ElementTextThenRest(n: Node, rest: string)
    requires n.Element?
    ensures forall i :: 0 <= i < |n.children| ==> n.children[i] < n
    ensures Convert(n) + rest ==
            "<" + (MjmlTag(n.name) + " " + Join(" ", AttributeTexts(n.attrs))) + ">"
            + (ConvertAll(n.children, n) + ("<" + ("/" + MjmlTag(n.name)) + ">" + rest))
  {
    assert forall i :: 0 <= i < |n.children| ==> n.children[i] in n.children;
    var tag := MjmlTag(n.name);
    var attributes := Join(" ", AttributeTexts(n.attrs));
    var content := ConvertAll(n.children, n);
    assert Convert(n) == "<" + tag + " " + attributes + ">" + content + "</" + tag + ">";
    Regroup(tag, attributes, content, rest);
  }

  /** The element text regrouped around its content. */
  lemma Regroup(tag: string, attributes: string, content: string, rest: string)
    ensures "<" + tag + " " + attributes + ">" + content + "</" + tag + ">" + rest ==
            "<" + (tag + " " + attributes) + ">" + (content + ("<" + ("/" + tag) + ">" + rest))
  {
    assert "</" == "<" + "/";
  }

  /** `ConvertThenRest` for a sequence of siblings. */
  lemma {:induction false} ConvertAllThenRest(children: seq<Node>, parent: Node, rest: string)
    requires forall i :: 0 <= i < |children| ==> children[i] < parent
    requires AllWellFormed(children, parent)
    ensures StripTags(ConvertAll(children, parent) + rest) == TextContents(children, parent) + StripTags(rest)
    decreases parent, 0, |children|
  {
    if children != [] {
      var tail := ConvertAll(children[1..], parent);
      var first := Convert(children[0]);
      assert ConvertAll(children, parent) == first + tail;
      assert ConvertAll(children, parent) + rest == first + (tail + rest);
      ConvertAllThenRest(children[1..], parent, rest);
      ConvertThenRest(children[0], tail + rest);
      assert TextContents(children, parent) == TextContent(children[0]) + TextContents(children[1..], parent);
    } else {
      assert ConvertAll(children, parent) + rest == rest;
    }
  }

  // ---------------------------------------------------------------------------
  // parse_css_file
  // ---------------------------------------------------------------------------

  /** The characters `str.splitlines` breaks lines at. */
  predicate IsLineBreak(c: char) {
    var n := c as int;
    10 <= n <= 13 || 28 <= n <= 30 || n == 0x85 || n == 0x2028 || n == 0x2029
  }

  /** The position of the first line break in `s`, or `|s|`. */
  function LineEnd(s: string): (i: nat)
    ensures i <= |s| && (i < |s| ==> IsLineBreak(s[i]))
    ensures forall j :: 0 <= j < i ==> !IsLineBreak(s[j])
  {
    if s == [] || IsLineBreak(s[0]) then 0 else 1 + LineEnd(s[1..])
  }

  /** `s.splitlines()`: the lines without their breaks, `\r\n` counting as one break. */
  function SplitLines(s: string): (lines: seq<string>)
    ensures forall k, j :: 0 <= k < |lines| && 0 <= j < |lines[k]| ==> !IsLineBreak(lines[k][j])
    decreases |s|
  {
    if s == [] then []
    else
      var i := LineEnd(s);
      if i == |s| then [s]
      else
        var next := if s[i] == '\r' && i + 1 < |s| && s[i + 1] == '\n' then i + 2 else i + 1;
        [s[..i]] + SplitLines(s[next..])
  }

  /** A CSS rule: its selector and its declarations in order. */
  datatype Rule = Rule(selector: string, attributes: Dict.Dict<string, string>)

  /**
   * The declarations `attr` of `content.split(';')`, added to `attributes` one
   * after another; `None` when a part has two or more `:` and unpacking it
   * raises `ValueError`.
   */
  function Declarations(parts: seq<string>): Option<Dict.Dict<string, string>> {
    if parts == [] then Some([])
    else
      match Declarations(parts[..|parts| - 1])
      case None => None
      case Some(attributes) => AddDeclaration(attributes, parts[|parts| - 1])
  }

  /** One step of the declaration loop. */
  function AddDeclaration(attributes: Dict.Dict<string, string>, attr: string): Option<Dict.Dict<string, string>> {
    if !Contains(attr, ":") then Some(attributes)
    else
      var kv := Split(attr, ":");
      if |kv| != 2 then None else Some(Dict.Set(attributes, Strip(kv[0]), Strip(kv[1])))
  }

  /** What one line contributes: nothing, a rule, or the exception that ends parsing. */
  datatype LineParse = NoRule | Parsed(rule: Rule) | Raises

  /** The parse of one line of a CSS file. */
  function ParseLine(line: string): LineParse {
    if !Contains(line, "{") then NoRule
    else
      match Declarations(DeclarationParts(line))
      case None => Raises
      case Some(attributes) => Parsed(Rule(Selector(line), attributes))
  }

  /** `line.split('{')[0].strip()`. */
  function Selector(line: string): string {
    Strip(Split(line, "{")[0])
  }

  /** `line.split('{')[1].split('}')[0].strip().split(';')`, for a line that contains `{`. */
  function DeclarationParts(line: string): seq<string>
    requires Contains(line, "{")
  {
    var content := Strip(Split(Split(line, "{")[1], "}")[0]);
    Split(content, ";")
  }

  /** The parse of every line. */
  function ParseLines(lines: seq<string>): (parses: seq<LineParse>)
    ensures |parses| == |lines|
    ensures forall i :: 0 <= i < |lines| ==> parses[i] == ParseLine(lines[i])
  {
    if lines == [] then [] else ParseLines(lines[..|lines| - 1]) + [ParseLine(lines[|lines| - 1])]
  }

  /** The rules of the lines in order, or `None` once a line raises. */
  function Collect(parses: seq<LineParse>): Option<seq<Rule>> {
    if parses == [] then Some([])
    else
      match Collect(parses[..|parses| - 1])
      case None => None
      case Some(rules) =>
        match parses[|parses| - 1]
        case NoRule => Some(rules)
        case Parsed(rule) => Some(rules + [rule])
        case Raises => None
  }

  /** What `parse_css_file` returns for a file's content: the rules, or `[]` after an exception. */
  function CssRules(cssContent: string): seq<Rule> {
    Collect(ParseLines(SplitLines(cssContent))).GetOr([])
  }

  /** The line parser of `parse_css_file`, on the content already read from the file. */
  method ParseCssFile(cssContent: string) returns (rules: seq<Rule>)
    ensures rules == CssRules(cssContent)
  {
    var lines := SplitLines(cssContent);
    ghost var parses := ParseLines(lines);
    rules := [];
    for i := 0 to |lines|
      invariant Collect(parses[..i]) == Some(rules)
    {
      CollectStep(parses, i);
      var parsed := ParseCssLine(lines[i]);
      assert parsed == parses[i];
      if parsed.Raises? {
        CollectFailure(parses, i + 1);
        return [];
      }
      if parsed.Parsed? {
        rules := rules + [parsed.rule];
      }
    }
    assert parses[..|lines|] == parses;
  }

  /** The body of the line loop of `parse_css_file`: one line's rule, built declaration by declaration. */
  method ParseCssLine(line: string) returns (parsed: LineParse)
    ensures parsed == ParseLine(line)
  {
    if !Contains(line, "{") {
      return NoRule;
    }
    var selector := Selector(line);
    var attributes := ParseDeclarations(DeclarationParts(line));
    if attributes.None? {
      return Raises;
    }
    parsed := Parsed(Rule(selector, attributes.value));
  }

  /** The declaration loop: each `key: value` part is stored in turn; a part with two or more `:` raises. */
  method ParseDeclarations(parts: seq<string>) returns (result: Option<Dict.Dict<string, string>>)
    ensures result == Declarations(parts)
  {
    var attributes: Dict.Dict<string, string> := [];
    for j := 0 to |parts|
      invariant Declarations(parts[..j]) == Some(attributes)
    {
      DeclarationsStep(parts, j);
      var next := StoreDeclaration(attributes, parts[j]);
      if next.None? {
        DeclarationsFailure(parts, j + 1);
        return None;
      }
      attributes := next.value;
    }
    assert parts[..|parts|] == parts;
    return Some(attributes);
  }

  /** The loop body for one part `attr`: `key, value = attr.split(':')` and `attributes[key.strip()] = value.strip()`. */
  method StoreDeclaration(attributes: Dict.Dict<string, string>, attr: string) returns (result: Option<Dict.Dict<string, string>>)
    ensures result == AddDeclaration(attributes, attr)
  {
    if !Contains(attr, ":") {
      return Some(attributes);
    }
    var kv := Split(attr, ":");
    if |kv| != 2 {
      return None;
    }
    return Some(Dict.Set(attributes, Strip(kv[0]), Strip(kv[1])));
  }

  /** One more step of the declaration loop. */
  lemma DeclarationsStep(parts: seq<string>, j: nat)
    requires j < |parts|
    ensures Declarations(parts[..j + 1]) ==
      if Declarations(parts[..j]).None? then None else AddDeclaration(Declarations(parts[..j]).value, parts[j])
  {
    assert parts[..j + 1][..j] == parts[..j];
  }

  /** One more step of the line loop. */
  lemma CollectStep(parses: seq<LineParse>, i: nat)
    requires i < |parses|
    ensures Collect(parses[..i + 1]) ==
      if Collect(parses[..i]).None? || parses[i].Raises? then None
      else if parses[i].Parsed? then Some(Collect(parses[..i]).value + [parses[i].rule])
      else Collect(parses[..i])
  {
    assert parses[..i + 1][..i] == parses[..i];
  }

  /** Once a prefix of the declarations raises, so do all of them. */
  lemma {:induction false} DeclarationsFailure(parts: seq<string>, n: nat)
    requires n <= |parts| && Declarations(parts[..n]).None?
    ensures Declarations(parts).None?
    decreases |parts| - n
  {
    if n < |parts| {
      assert parts[..n + 1][..n] == parts[..n];
      DeclarationsFailure(parts, n + 1);
    } else {
      assert parts[..n] == parts;
    }
  }

  /** Once a prefix of the lines raises, so does the whole file. */
  lemma {:induction false} CollectFailure(parses: seq<LineParse>, n: nat)
    requires n <= |parses| && Collect(parses[..n]).None?
    ensures Collect(parses).None?
    decreases |parses| - n
  {
    if n < |parses| {
      assert parses[..n + 1][..n] == parses[..n];
      CollectFailure(parses, n + 1);
    } else {
      assert parses[..n] == parses;
    }
  }

  /** A line that raises makes the whole collection raise. */
  lemma CollectRaises(parses: seq<LineParse>, i: nat)
    requires i < |parses| && parses[i].Raises?
    ensures Collect(parses).None?
  {
    assert parses[..i + 1][..i] == parses[..i];
    CollectFailure(parses, i + 1);
  }

  /** One malformed declaration anywhere discards the whole file, valid rules included. */
  lemma OneBadLineDiscardsFile(cssContent: string, i: nat)
    requires i < |SplitLines(cssContent)| && ParseLine(SplitLines(cssContent)[i]).Raises?
    ensures CssRules(cssContent) == []
  {
    var parses := ParseLines(SplitLines(cssContent));
    CollectRaises(parses, i);
  }

  /** The number of rules among the parses. */
  function ParsedCount(parses: seq<LineParse>): nat {
    if parses == [] then 0
    else ParsedCount(parses[..|parses| - 1]) + (if parses[|parses| - 1].Parsed? then 1 else 0)
  }

  /** A successful collection has one rule per parsed line, each from its line, and no line raised. */
  lemma {:induction false} CollectShape(parses: seq<LineParse>)
    requires Collect(parses).Some?
    ensures Raises !in parses
    ensures |Collect(parses).value| == ParsedCount(parses)
    ensures forall r :: r in Collect(parses).value ==> Parsed(r) in parses
  {
    if parses != [] {
      var init := parses[..|parses| - 1];
      var last := parses[|parses| - 1];
      assert parses == init + [last];
      CollectShape(init);
      var rules := Collect(init).value;
      match last
      case NoRule =>
        assert Collect(parses) == Some(rules);
      case Parsed(rule) =>
        assert Collect(parses) == Some(rules + [rule]);
      case Raises =>
        assert false;
    }
  }

  /** A line gives no rule exactly when it has no `{`; a rule's selector is stripped and has no `{`. */
  lemma ParseLineShape(line: string)
    ensures ParseLine(line).NoRule? <==> !Contains(line, "{")
    ensures ParseLine(line).Parsed? ==>
              Stripped(ParseLine(line).rule.selector) && !Contains(ParseLine(line).rule.selector, "{")
  {
    if Contains(line, "{") {
      var head := Split(line, "{")[0];
      assert !Contains(head, "{");
      NotContainsStrip(head, "{");
      assert Selector(line) == Strip(head);
      match Declarations(DeclarationParts(line))
      case None =>
        assert ParseLine(line) == Raises;
      case Some(attributes) =>
        assert ParseLine(line) == Parsed(Rule(Selector(line), attributes));
    } else {
      assert ParseLine(line) == NoRule;
    }
  }

  /** The lines that contain `{`, in line order. */
  function RuleLines(lines: seq<string>): (r: seq<string>)
    ensures |r| <= |lines|
    ensures forall i :: 0 <= i < |r| ==> Contains(r[i], "{") && r[i] in lines
  {
    if lines == [] then []
    else
      var init := RuleLines(lines[..|lines| - 1]);
      assert forall i :: 0 <= i < |init| ==> init[i] in lines;
      init + (if Contains(lines[|lines| - 1], "{") then [lines[|lines| - 1]] else [])
  }

  /** Without a raising line, the rules are as many as the lines with `{`. */
  lemma {:induction false} ParsedCountIsRuleLines(lines: seq<string>)
    requires Raises !in ParseLines(lines)
    ensures ParsedCount(ParseLines(lines)) == |RuleLines(lines)|
  {
    if lines != [] {
      var init := lines[..|lines| - 1];
      var parses := ParseLines(lines);
      assert parses[..|lines| - 1] == ParseLines(init);
      assert parses[|lines| - 1] in parses;
      ParsedCountIsRuleLines(init);
      ParseLineShape(lines[|lines| - 1]);
    }
  }

  /**
   * When parsing succeeds, the `i`-th rule is the parse of the `i`-th line
   * containing `{`: one rule per such line, in line order.
   */
  lemma {:induction false} RulesInLineOrder(lines: seq<string>)
    requires Collect(ParseLines(lines)).Some?
    ensures |Collect(ParseLines(lines)).value| == |RuleLines(lines)|
    ensures forall i :: 0 <= i < |RuleLines(lines)| ==>
              ParseLine(RuleLines(lines)[i]) == Parsed(Collect(ParseLines(lines)).value[i])
  {
    if lines != [] {
      var init := lines[..|lines| - 1];
      var last := lines[|lines| - 1];
      var parses := ParseLines(lines);
      CollectStep(parses, |parses| - 1);
      assert parses[..|parses|] == parses;
      assert parses[..|parses| - 1] == ParseLines(init);
      RulesInLineOrder(init);
      ParseLineShape(last);
      RuleLinesThenParse(RuleLines(init), Collect(ParseLines(init)).value, last);
    }
  }

  /** Extending the rule lines and the rules by one line's parse keeps them paired. */
  lemma RuleLinesThenParse(ruleLines: seq<string>, rules: seq<Rule>, line: string)
    requires |rules| == |ruleLines|
    requires forall i :: 0 <= i < |ruleLines| ==> ParseLine(ruleLines[i]) == Parsed(rules[i])
    requires ParseLine(line).NoRule? <==> !Contains(line, "{")
    requires !ParseLine(line).Raises?
    ensures var more := if Contains(line, "{") then [line] else [];
            var added := if ParseLine(line).Parsed? then [ParseLine(line).rule] else [];
            |rules + added| == |ruleLines + more| &&
            forall i :: 0 <= i < |ruleLines + more| ==> ParseLine((ruleLines + more)[i]) == Parsed((rules + added)[i])
  {
  }

  /**
   * When parsing succeeds there is one rule per line containing `{`, in line
   * order, each with a stripped selector that has no `{`.
   */
  lemma RulesShape(cssContent: string)
    requires Collect(ParseLines(SplitLines(cssContent))).Some?
    ensures |CssRules(cssContent)| == |RuleLines(SplitLines(cssContent))|
    ensures forall i :: 0 <= i < |CssRules(cssContent)| ==>
              ParseLine(RuleLines(SplitLines(cssContent))[i]) == Parsed(CssRules(cssContent)[i])
    ensures forall r :: r in CssRules(cssContent) ==> Stripped(r.selector) && !Contains(r.selector, "{")
  {
    var lines := SplitLines(cssContent);
    var parses := ParseLines(lines);
    assert CssRules(cssContent) == Collect(parses).value;
    CollectShape(parses);
    RulesInLineOrder(lines);
    forall r | r in Collect(parses).value ensures Stripped(r.selector) && !Contains(r.selector, "{") {
      ParsedRuleShape(lines, r);
    }
  }

  /** A rule parsed from one of the lines has a stripped selector without `{`. */
  lemma ParsedRuleShape(lines: seq<string>, r: Rule)
    requires Parsed(r) in ParseLines(lines)
    ensures Stripped(r.selector) && !Contains(r.selector, "{")
  {
    var i :| 0 <= i < |lines| && ParseLines(lines)[i] == Parsed(r);
    ParseLineShape(lines[i]);
  }

  /** The declarations of a rule: distinct keys, keys and values stripped and free of `:`. */
  lemma {:induction false} DeclarationsShape(parts: seq<string>)
    requires Declarations(parts).Some?
    ensures Dict.DistinctKeys(Declarations(parts).value)
    ensures forall e :: e in Declarations(parts).value ==>
              Stripped(e.0) && Stripped(e.1) && !Contains(e.0, ":") && !Contains(e.1, ":")
  {
    if parts != [] {
      var init := parts[..|parts| - 1];
      var attr := parts[|parts| - 1];
      DeclarationsShape(init);
      var attributes := Declarations(init).value;
      if Contains(attr, ":") {
        var kv := Split(attr, ":");
        var key, value := Strip(kv[0]), Strip(kv[1]);
        Dict.SetDistinct(attributes, key, value);
        NotContainsStrip(kv[0], ":");
        NotContainsStrip(kv[1], ":");
        forall e | e in Dict.Set(attributes, key, value)
          ensures e == (key, value) || e in attributes
        {
          var i :| 0 <= i < |Dict.Set(attributes, key, value)| && Dict.Set(attributes, key, value)[i] == e;
          Dict.SetEntries(attributes, key, value, i);
        }
      }
    }
  }

  /** Later declarations of a key overwrite earlier ones: the last `key: value` part decides. */
  lemma LastDeclarationWins(parts: seq<string>, attr: string, key: string, value: string)
    requires Declarations(parts).Some?
    requires Contains(attr, ":") && Split(attr, ":") == [key, value]
    ensures Declarations(parts + [attr]).Some?
    ensures Dict.Get(Declarations(parts + [attr]).value, Strip(key)) == Some(Strip(value))
  {
    assert (parts + [attr])[..|parts|] == parts;
    Dict.GetSet(Declarations(parts).value, Strip(key), Strip(value), Strip(key));
  }

  // ---------------------------------------------------------------------------
  // apply_css_styles
  // ---------------------------------------------------------------------------

  /** The attributes of a tag after `apply_css_styles`. */
  function StyledAttrs(name: string, attrs: Dict.Dict<string, AttrValue>): Dict.Dict<string, AttrValue> {
    var afterImg := if name == "img" then Dict.Set(attrs, "width", Single("100px")) else attrs;
    if name in ["h1", "h2", "p"] && !Dict.HasKey(afterImg, "style") then Dict.Set(afterImg, "font-size", Single("20px"))
    else afterImg
  }

  /** An element whose attributes `apply_css_styles` rewrites in place. */
  class Tag {
    const name: string
    var attrs: Dict.Dict<string, AttrValue>

    constructor (name: string, attrs: Dict.Dict<string, AttrValue>)
      ensures this.name == name && this.attrs == attrs
    {
      this.name := name;
      this.attrs := attrs;
    }

    /**
     * `apply_css_styles(element, css_rules)`; the rules are not consulted. With a
     * `style` attribute on `h1`/`h2`/`p`, `.get` on the style string raises and
     * the error is logged, so nothing more changes.
     */
    method ApplyCssStyles(cssRules: seq<Rule>)
      modifies this
      ensures attrs == StyledAttrs(name, old(attrs))
    {
      if name == "img" {
        attrs := Dict.Set(attrs, "width", Single("100px"));
      }
      if name in ["h1", "h2", "p"] {
        var style := Dict.Get(attrs, "style");
        if style.None? {
          attrs := Dict.Set(attrs, "font-size", Single("20px"));
        }
      }
    }
  }

  /**
   * What styling does to a tag: images get `width="100px"`; `h1`, `h2` and `p`
   * without a `style` get `font-size="20px"`; every other attribute, and every
   * other tag, is left as it was.
   */
  lemma StyledAttrsEffect(name: string, attrs: Dict.Dict<string, AttrValue>, k: string)
    ensures name == "img" && k == "width" ==> Dict.Get(StyledAttrs(name, attrs), k) == Some(Single("100px"))
    ensures name in ["h1", "h2", "p"] && !Dict.HasKey(attrs, "style") && k == "font-size" ==>
              Dict.Get(StyledAttrs(name, attrs), k) == Some(Single("20px"))
    ensures !(name == "img" && k == "width") && !(name in ["h1", "h2", "p"] && k == "font-size") ==>
              Dict.Get(StyledAttrs(name, attrs), k) == Dict.Get(attrs, k)
    ensures name !in ["img", "h1", "h2", "p"] || (name != "img" && Dict.HasKey(attrs, "style")) ==>
              StyledAttrs(name, attrs) == attrs
  {
    if name == "img" {
      Dict.GetSet(attrs, "width", Single("100px"), k);
      assert StyledAttrs(name, attrs) == Dict.Set(attrs, "width", Single("100px"));
    } else if name in ["h1", "h2", "p"] && !Dict.HasKey(attrs, "style") {
      Dict.GetSet(attrs, "font-size", Single("20px"), k);
    } else {
      assert StyledAttrs(name, attrs) == attrs;
    }
  }

  /** Styling twice is styling once. */
  lemma StyledAttrsIdempotent(name: string, attrs: Dict.Dict<string, AttrValue>)
    ensures StyledAttrs(name, StyledAttrs(name, attrs)) == StyledAttrs(name, attrs)
  {
    if name == "img" {
      assert name !in ["h1", "h2", "p"];
      Dict.SetTwice(attrs, "width", Single("100px"));
    } else if name in ["h1", "h2", "p"] && !Dict.HasKey(attrs, "style") {
      Dict.SetTwice(attrs, "font-size", Single("20px"));
      var styled := Dict.Set(attrs, "font-size", Single("20px"));
      assert !Dict.HasKey(styled, "style") by {
        Dict.GetSet(attrs, "font-size", Single("20px"), "style");
      }
      assert StyledAttrs(name, attrs) == styled;
    } else {
      assert StyledAttrs(name, attrs) == attrs;
    }
  }
}
