/**
 * Flattening a Merriam-Webster Learner's dictionary entry into a row of the
 * `word_of_the_day` table (scripts/apis/content_fetchers/word_of_the_day.py).
 *
 * Every step walks the JSON entry with Python's dynamic operations (`in`,
 * subscripts, `.get`, iteration). An outcome of `None` means the step raised:
 * `update_word_of_the_day` catches every exception alike and rolls back, so
 * which exception it was does not matter to the outcome.
 */
module WordOfTheDay {
  import opened Wrappers
  import opened Strings
  import opened Json
  import Dict

  // ---------------------------------------------------------------------
  // Loops that build a list with append / extend

  /**
   * A `for x in xs` loop that extends a list by `f(x)` at every step; it
   * raises (`None`) as soon as one step raises.
   */
  function Gather<T>(xs: seq<Json>, f: Json -> Option<seq<T>>): Option<seq<T>> {
    if xs == [] then Some([])
    else
      match Gather(xs[..|xs| - 1], f)
      case None => None
      case Some(acc) =>
        match f(xs[|xs| - 1])
        case None => None
        case Some(ys) => Some(acc + ys)
  }

  /** A prefix one longer is the shorter prefix and one more element. */
  lemma PrefixAppend<T>(s: seq<T>, n: nat)
    requires 0 < n <= |s|
    ensures s[..n] == s[..n - 1] + [s[n - 1]]
  {
  }

  /** A loop over one element is that element's step. */
  lemma GatherSingle<T>(x: Json, f: Json -> Option<seq<T>>)
    ensures Gather([x], f) == f(x)
  {
    assert [x][..0] == [];
    if f(x).Some? {
      assert [] + f(x).value == f(x).value;
    }
  }

  /** One more step of the loop. */
  lemma GatherStep<T>(xs: seq<Json>, f: Json -> Option<seq<T>>, i: nat)
    requires i < |xs|
    ensures Gather(xs[..i + 1], f) ==
      (if Gather(xs[..i], f).Some? && f(xs[i]).Some? then Some(Gather(xs[..i], f).value + f(xs[i]).value) else None)
  {
    assert xs[..i + 1][..i] == xs[..i];
  }

  /** Once a prefix of the loop has raised, the whole loop has raised. */
  lemma {:induction false} GatherFailure<T>(xs: seq<Json>, f: Json -> Option<seq<T>>, n: nat)
    requires n <= |xs| && Gather(xs[..n], f).None?
    ensures Gather(xs, f).None?
    decreases |xs| - n
  {
    if n < |xs| {
      assert xs[..n + 1][..n] == xs[..n];
      GatherFailure(xs, f, n + 1);
    } else {
      assert xs[..n] == xs;
    }
  }

  /** The loop raises exactly when one of its steps raises. */
  lemma {:induction false} GatherDefined<T>(xs: seq<Json>, f: Json -> Option<seq<T>>)
    ensures Gather(xs, f).Some? <==> forall i :: 0 <= i < |xs| ==> f(xs[i]).Some?
  {
    if xs != [] {
      var init := xs[..|xs| - 1];
      GatherDefined(init, f);
      assert forall i :: 0 <= i < |init| ==> init[i] == xs[i];
    }
  }

  /** Running the loop over `xs + ys` is running it over `xs`, then over `ys`: results keep document order. */
  lemma {:induction false} GatherAppend<T>(xs: seq<Json>, ys: seq<Json>, f: Json -> Option<seq<T>>)
    ensures Gather(xs + ys, f) ==
      (if Gather(xs, f).Some? && Gather(ys, f).Some? then Some(Gather(xs, f).value + Gather(ys, f).value) else None)
    decreases |ys|
  {
    if ys == [] {
      assert xs + ys == xs;
      if Gather(xs, f).Some? {
        assert Gather(xs, f).value + [] == Gather(xs, f).value;
      }
    } else {
      var zs := xs + ys;
      var init := ys[..|ys| - 1];
      assert zs[..|zs| - 1] == xs + init;
      assert zs[|zs| - 1] == ys[|ys| - 1];
      assert zs[..|zs|] == zs && ys[..|ys|] == ys;
      GatherStep(zs, f, |zs| - 1);
      GatherStep(ys, f, |ys| - 1);
      GatherAppend(xs, init, f);
      if Gather(xs, f).Some? && Gather(init, f).Some? && f(ys[|ys| - 1]).Some? {
        var a, b, c := Gather(xs, f).value, Gather(init, f).value, f(ys[|ys| - 1]).value;
        assert (a + b) + c == a + (b + c);
      }
    }
  }

  /** Every element the loop collects comes from the step of some element of `xs`. */
  lemma {:induction false} GatherElements<T>(xs: seq<Json>, f: Json -> Option<seq<T>>, ys: seq<T>, k: nat)
    requires Gather(xs, f) == Some(ys) && k < |ys|
    ensures exists i :: 0 <= i < |xs| && f(xs[i]).Some? && ys[k] in f(xs[i]).value
  {
    var init := xs[..|xs| - 1];
    var acc := Gather(init, f).value;
    var last := f(xs[|xs| - 1]).value;
    assert ys == acc + last;
    if k < |acc| {
      GatherElements(init, f, acc, k);
      var i :| 0 <= i < |init| && f(init[i]).Some? && acc[k] in f(init[i]).value;
      assert init[i] == xs[i];
    } else {
      assert ys[k] == last[k - |acc|];
    }
  }

  /** A loop that appends exactly one element per step collects one result per element, in order. */
  lemma {:induction false} GatherSingletons<T>(xs: seq<Json>, f: Json -> Option<seq<T>>, ys: seq<T>)
    requires Gather(xs, f) == Some(ys)
    requires forall x :: f(x).Some? ==> |f(x).value| == 1
    ensures |ys| == |xs|
    ensures forall i :: 0 <= i < |xs| ==> f(xs[i]) == Some([ys[i]])
  {
    if xs != [] {
      var init := xs[..|xs| - 1];
      var acc := Gather(init, f).value;
      GatherSingletons(init, f, acc);
      assert ys == acc + f(xs[|xs| - 1]).value;
      forall i | 0 <= i < |xs| ensures f(xs[i]) == Some([ys[i]]) {
        if i < |init| {
          assert init[i] == xs[i];
        } else {
          assert f(xs[i]).value == [f(xs[i]).value[0]];
        }
      }
    }
  }

  // ---------------------------------------------------------------------
  // parse_short_definitions

  /** The bold-colon mark that separates senses inside a short definition. */
  const BoldColon := "{bc}"

  /**
   * `s.split("{bc}")`: the text between the marks, found from the left.
   * Splitting on the pattern `\s*\{bc\}\s*` and then stripping every piece
   * gives the same pieces as splitting on the mark alone and stripping: the
   * whitespace the pattern absorbs next to a mark is whitespace `strip`
   * removes anyway.
   */
  function Sections(s: string): (r: seq<string>)
    ensures |r| >= 1 && |r[0]| <= |s| && r[0] == s[..|r[0]|]
    decreases |s|
  {
    if s == [] then [""]
    else if StartsWith(s, BoldColon) then [""] + Sections(s[4..])
    else
      var rest := Sections(s[1..]);
      [[s[0]] + rest[0]] + rest[1..]
  }

  /** No section contains the mark. */
  lemma {:induction false} SectionsAvoidMark(s: string)
    ensures forall i, j :: 0 <= i < |Sections(s)| ==> !OccursAt(Sections(s)[i], BoldColon, j)
    decreases |s|
  {
    if s != [] && StartsWith(s, BoldColon) {
      SectionsAvoidMark(s[4..]);
    } else if s != [] {
      var rest := Sections(s[1..]);
      SectionsAvoidMark(s[1..]);
      var head := [s[0]] + rest[0];
      forall j ensures !OccursAt(head, BoldColon, j) {
        if j == 0 && |head| >= 4 {
          assert head[..4] == s[..4];
        } else if j > 0 && j + 4 <= |head| {
          assert head[j..j + 4] == rest[0][j - 1..j + 3];
          assert !OccursAt(rest[0], BoldColon, j - 1);
        }
      }
    }
  }

  /** Joining the sections with the mark gives the text back. */
  lemma {:induction false} JoinSections(s: string)
    ensures Join(BoldColon, Sections(s)) == s
    decreases |s|
  {
    if s != [] && StartsWith(s, BoldColon) {
      JoinSections(s[4..]);
      JoinCons(BoldColon, "", Sections(s[4..]));
      assert s == "" + BoldColon + s[4..];
    } else if s != [] {
      JoinSections(s[1..]);
      JoinExtendFirst(BoldColon, s[0], Sections(s[1..]));
      assert s == [s[0]] + s[1..];
    }
  }

  /** Putting a character in front of the first part puts it in front of the joined text. */
  lemma JoinExtendFirst(sep: string, c: char, parts: seq<string>)
    requires parts != []
    ensures Join(sep, [[c] + parts[0]] + parts[1..]) == [c] + Join(sep, parts)
  {
    if |parts| > 1 {
      JoinCons(sep, [c] + parts[0], parts[1..]);
      JoinCons(sep, parts[0], parts[1..]);
      assert [parts[0]] + parts[1..] == parts;
    }
  }

  /** The definitions one short-definition string holds: its sections, stripped, without the empty ones. */
  function Pieces(s: string): seq<string> {
    StrippedPieces(Sections(s))
  }

  /** `[p.strip() for p in parts if p.strip()]`. */
  function StrippedPieces(parts: seq<string>): (r: seq<string>)
    ensures forall i :: 0 <= i < |r| ==> r[i] != [] && Stripped(r[i])
  {
    if parts == [] then []
    else
      var p := Strip(parts[0]);
      (if p != [] then [p] else []) + StrippedPieces(parts[1..])
  }

  /** Every piece is non-empty, has no surrounding whitespace and no `{bc}` mark. */
  lemma PiecesClean(s: string)
    ensures forall i :: 0 <= i < |Pieces(s)| ==>
      Pieces(s)[i] != [] && Stripped(Pieces(s)[i]) && !Contains(Pieces(s)[i], BoldColon)
  {
    var parts := Sections(s);
    SectionsAvoidMark(s);
    forall i | 0 <= i < |parts| ensures !Contains(parts[i], BoldColon) {
      assert !OccursAt(parts[i], BoldColon, IndexOf(parts[i], BoldColon));
    }
    StrippedPiecesAvoid(parts);
  }

  lemma {:induction false} StrippedPiecesAvoid(parts: seq<string>)
    requires forall i :: 0 <= i < |parts| ==> !Contains(parts[i], BoldColon)
    ensures forall i :: 0 <= i < |StrippedPieces(parts)| ==> !Contains(StrippedPieces(parts)[i], BoldColon)
  {
    if parts != [] {
      NotContainsStrip(parts[0], BoldColon);
      StrippedPiecesAvoid(parts[1..]);
    }
  }

  /** One element of the short-definition list: `re.split` accepts only a string. */
  function DefinitionPieces(j: Json): Option<seq<string>> {
    if j.Str? then Some(Pieces(j.s)) else None
  }

  /** `parse_short_definitions(shortdef)`, with `None` where it raises. */
  function ShortDefinitions(shortdef: Json): Option<seq<string>> {
    var items :- Iter(shortdef).ToOption();
    Gather(items, DefinitionPieces)
  }

  method ParseShortDefinitions(shortdef: Json) returns (definitions: Option<seq<string>>)
    ensures definitions == ShortDefinitions(shortdef)
  {
    var items :- Iter(shortdef).ToOption();
    var all: seq<string> := [];
    for i := 0 to |items|
      invariant Gather(items[..i], DefinitionPieces) == Some(all)
    {
      GatherStep(items, DefinitionPieces, i);
      if !items[i].Str? {
        GatherFailure(items, DefinitionPieces, i + 1);
        return None;
      }
      all := all + Pieces(items[i].s);
    }
    assert items[..|items|] == items;
    return Some(all);
  }

  /** Every parsed definition is non-empty, has no surrounding whitespace and no `{bc}` mark. */
  lemma ShortDefinitionsClean(shortdef: Json, definitions: seq<string>, k: nat)
    requires ShortDefinitions(shortdef) == Some(definitions) && k < |definitions|
    ensures CleanDefinition(definitions[k])
  {
    var items := Iter(shortdef).value;
    GatherElements(items, DefinitionPieces, definitions, k);
    var i :| 0 <= i < |items| && DefinitionPieces(items[i]).Some? && definitions[k] in DefinitionPieces(items[i]).value;
    PiecesClean(items[i].s);
  }

  /** The definitions of `a + b` are those of `a` followed by those of `b`. */
  lemma ShortDefinitionsInOrder(a: seq<Json>, b: seq<Json>)
    ensures ShortDefinitions(Arr(a + b)) ==
      (if ShortDefinitions(Arr(a)).Some? && ShortDefinitions(Arr(b)).Some?
       then Some(ShortDefinitions(Arr(a)).value + ShortDefinitions(Arr(b)).value) else None)
  {
    GatherAppend(a, b, DefinitionPieces);
  }

  /** Definitions that are already clean come back unchanged, one each; an empty list gives an empty list. */
  lemma CleanDefinitionsUnchanged(items: seq<Json>, definitions: seq<string>)
    requires |items| == |definitions|
    requires forall i :: 0 <= i < |items| ==> items[i] == Str(definitions[i])
    requires forall i :: 0 <= i < |definitions| ==> CleanDefinition(definitions[i])
    ensures ShortDefinitions(Arr(items)) == Some(definitions)
  {
    CleanPrefixUnchanged(items, definitions, |items|);
    assert items[..|items|] == items && definitions[..|items|] == definitions;
  }

  lemma {:induction false} CleanPrefixUnchanged(items: seq<Json>, definitions: seq<string>, n: nat)
    requires n <= |items| == |definitions|
    requires forall i :: 0 <= i < |items| ==> items[i] == Str(definitions[i])
    requires forall i :: 0 <= i < |definitions| ==> CleanDefinition(definitions[i])
    ensures Gather(items[..n], DefinitionPieces) == Some(definitions[..n])
  {
    if n > 0 {
      CleanPrefixUnchanged(items, definitions, n - 1);
      CleanStep(items, definitions, n);
    }
  }

  /** One more clean definition extends the parsed prefix by itself. */
  lemma CleanStep(items: seq<Json>, definitions: seq<string>, n: nat)
    requires 0 < n <= |items| && n <= |definitions|
    requires Gather(items[..n - 1], DefinitionPieces) == Some(definitions[..n - 1])
    requires items[n - 1] == Str(definitions[n - 1]) && CleanDefinition(definitions[n - 1])
    ensures Gather(items[..n], DefinitionPieces) == Some(definitions[..n])
  {
    GatherStep(items, DefinitionPieces, n - 1);
    PiecesOfClean(definitions[n - 1]);
    PrefixAppend(definitions, n);
  }

  /** What every parsed definition is: non-empty, no surrounding whitespace, no `{bc}` mark. */
  predicate CleanDefinition(d: string) {
    d != [] && Stripped(d) && !Contains(d, BoldColon)
  }

  /** A clean definition is its own only piece. */
  lemma PiecesOfClean(d: string)
    requires CleanDefinition(d)
    ensures Pieces(d) == [d]
  {
    StripStripped(d);
    SectionsOfPlain(d);
    assert StrippedPieces([d]) == [d] + StrippedPieces([]);
  }

  /** Text without the mark is one section. */
  lemma {:induction false} SectionsOfPlain(d: string)
    requires !Contains(d, BoldColon)
    ensures Sections(d) == [d]
    decreases |d|
  {
    if d != [] {
      assert !OccursAt(d, BoldColon, 0);
      NotContainsSlice(d, BoldColon, 1, |d|);
      assert d[1..|d|] == d[1..];
      SectionsOfPlain(d[1..]);
      assert d == [d[0]] + d[1..];
    }
  }

  // ---------------------------------------------------------------------
  // extract_examples

  /**
   * `re.sub(r'\{/?it\}', '', s)`: one left-to-right pass that deletes every
   * `{it}` and `{/it}` it meets; text that forms a new tag once a tag is
   * deleted stays.
   */
  function RemoveItTags(s: string): (r: string)
    ensures |r| <= |s|
    decreases |s|
  {
    if s == [] then []
    else if OpenTagAt(s) then RemoveItTags(s[4..])
    else if CloseTagAt(s) then RemoveItTags(s[5..])
    else [s[0]] + RemoveItTags(s[1..])
  }

  /** `s` starts with `{it}`. */
  predicate OpenTagAt(s: string) {
    |s| >= 4 && s[0] == '{' && s[1] == 'i' && s[2] == 't' && s[3] == '}'
  }

  /** `s` starts with `{/it}`. */
  predicate CloseTagAt(s: string) {
    |s| >= 5 && s[0] == '{' && s[1] == '/' && s[2] == 'i' && s[3] == 't' && s[4] == '}'
  }

  /** Text without braces passes through unchanged, and so does whatever follows it. */
  lemma {:induction false} RemoveItTagsPlain(a: string, b: string)
    requires forall i :: 0 <= i < |a| ==> a[i] != '{'
    ensures RemoveItTags(a + b) == a + RemoveItTags(b)
  {
    if a != [] {
      var s := a + b;
      assert s[0] == a[0] && s[1..] == a[1..] + b;
      PlainCharKept(s);
      RemoveItTagsPlain(a[1..], b);
      assert [a[0]] + (a[1..] + RemoveItTags(b)) == a + RemoveItTags(b);
    } else {
      assert a + b == b;
    }
  }

  /** A first character other than `{` is kept. */
  lemma PlainCharKept(s: string)
    requires s != [] && s[0] != '{'
    ensures RemoveItTags(s) == [s[0]] + RemoveItTags(s[1..])
  {
    assert !OpenTagAt(s) && !CloseTagAt(s);
  }

  /** An italic span loses its markers and keeps its words. */
  lemma ItalicSpan(a: string, b: string)
    requires forall i :: 0 <= i < |a| ==> a[i] != '{'
    ensures RemoveItTags("{it}" + a + "{/it}" + b) == a + RemoveItTags(b)
  {
    var s := "{it}" + a + "{/it}" + b;
    assert OpenTagAt(s);
    assert s[4..] == a + ("{/it}" + b);
    RemoveItTagsPlain(a, "{/it}" + b);
    assert CloseTagAt("{/it}" + b);
    assert ("{/it}" + b)[5..] == b;
  }

  /** The pass is not repeated: a tag formed by the deletion survives. */
  lemma RemoveItTagsOnePass()
    ensures RemoveItTags("{{it}it}") == "{it}"
  {
    var s := "{{it}it}";
    assert !OpenTagAt(s) && !CloseTagAt(s);
    assert s[1..] == "{it}it}";
    assert OpenTagAt("{it}it}");
    assert "{it}it}"[4..] == "it}";
    assert RemoveItTags("it}") == "it}" by {
      RemoveItTagsPlain("it}", "");
      assert "it}" + "" == "it}";
    }
  }

  /** One entry of a `vis` list: its `t` text without italic tags, stripped; nothing without `t`. */
  function VisExample(vis: Json): Option<seq<string>> {
    var hasText :- In("t", vis).ToOption();
    if !hasText then Some([])
    else
      var t :- Item(vis, "t").ToOption();
      if t.Str? then Some([Strip(RemoveItTags(t.s))]) else None
  }

  /** One item of `dt`: only a list headed by `'vis'` contributes, from the list in its second element. */
  function ItemExamples(item: Json): Option<seq<string>> {
    if !item.Arr? then Some([])
    else
      var first :- At(item, 0).ToOption();
      if first != Str("vis") then Some([])
      else
        var visList :- At(item, 1).ToOption();
        var entries :- Iter(visList).ToOption();
        Gather(entries, VisExample)
  }

  /** `extract_examples(dt)`, with `None` where it raises. */
  function Examples(dt: Json): Option<seq<string>> {
    var items :- Iter(dt).ToOption();
    Gather(items, ItemExamples)
  }

  method ExtractExamples(dt: Json) returns (examples: Option<seq<string>>)
    ensures examples == Examples(dt)
  {
    var items :- Iter(dt).ToOption();
    var found: seq<string> := [];
    for i := 0 to |items|
      invariant Gather(items[..i], ItemExamples) == Some(found)
    {
      GatherStep(items, ItemExamples, i);
      var fromItem := ExamplesOfItem(items[i]);
      if fromItem.None? {
        GatherFailure(items, ItemExamples, i + 1);
        return None;
      }
      found := found + fromItem.value;
    }
    assert items[..|items|] == items;
    return Some(found);
  }

  /** The inner loop of `extract_examples`: the examples of one item of `dt`. */
  method ExamplesOfItem(item: Json) returns (examples: Option<seq<string>>)
    ensures examples == ItemExamples(item)
  {
    if !item.Arr? || (item.items != [] && item.items[0] != Str("vis")) {
      return Some([]);
    }
    if |item.items| < 2 || Iter(item.items[1]).Raised? {
      return None;
    }
    var entries := Iter(item.items[1]).value;
    var found: seq<string> := [];
    for j := 0 to |entries|
      invariant Gather(entries[..j], VisExample) == Some(found)
    {
      GatherStep(entries, VisExample, j);
      var fromEntry := ExampleOfEntry(entries[j]);
      if fromEntry.None? {
        GatherFailure(entries, VisExample, j + 1);
        return None;
      }
      found := found + fromEntry.value;
    }
    assert entries[..|entries|] == entries;
    return Some(found);
  }

  /** The body of the inner loop for one `vis` entry. */
  method ExampleOfEntry(vis: Json) returns (example: Option<seq<string>>)
    ensures example == VisExample(vis)
  {
    var hasText := In("t", vis);
    if hasText.Raised? {
      return None;
    }
    if !hasText.value {
      return Some([]);
    }
    var t := Item(vis, "t");
    if t.Raised? || !t.value.Str? {
      return None;
    }
    return Some([Strip(RemoveItTags(t.value.s))]);
  }

  /** Every example is stripped. */
  lemma ExamplesStripped(dt: Json, examples: seq<string>, k: nat)
    requires Examples(dt) == Some(examples) && k < |examples|
    ensures Stripped(examples[k])
  {
    var items := Iter(dt).value;
    GatherElements(items, ItemExamples, examples, k);
    var i :| 0 <= i < |items| && ItemExamples(items[i]).Some? && examples[k] in ItemExamples(items[i]).value;
    var fromItem := ItemExamples(items[i]).value;
    var m :| 0 <= m < |fromItem| && fromItem[m] == examples[k];
    ItemExamplesStripped(items[i], fromItem, m);
  }

  /** Every example of one `dt` item is stripped. */
  lemma ItemExamplesStripped(item: Json, fromItem: seq<string>, m: nat)
    requires ItemExamples(item) == Some(fromItem) && m < |fromItem|
    ensures Stripped(fromItem[m])
  {
    var entries := Iter(item.items[1]).value;
    GatherElements(entries, VisExample, fromItem, m);
  }

  /** An item that is not a list, or a list not headed by `'vis'`, adds no example. */
  lemma NonVisItemIgnored(items: seq<Json>, item: Json)
    requires !item.Arr? || (item.items != [] && item.items[0] != Str("vis"))
    ensures Examples(Arr(items + [item])) == Examples(Arr(items))
  {
    GatherAppend(items, [item], ItemExamples);
    GatherSingle(item, ItemExamples);
    if Examples(Arr(items)).Some? {
      assert Examples(Arr(items)).value + [] == Examples(Arr(items)).value;
    }
  }

  /** A `vis` entry without `t` adds no example. */
  lemma EntryWithoutTextIgnored(fields: seq<(Key, Json)>)
    requires !Dict.HasKey(fields, Name("t"))
    ensures VisExample(Obj(fields)) == Some([])
  {
  }

  /** A `vis` entry holding only `t` yields that text without italic tags, stripped. */
  lemma EntryWithText(t: string)
    ensures VisExample(Obj([(Name("t"), Str(t))])) == Some([Strip(RemoveItTags(t))])
  {
    var fields := [(Name("t"), Str(t))];
    assert Dict.Keys(fields) == [Name("t")];
    assert Dict.Get(fields, Name("t")) == Some(Str(t));
    EntryTextUsed(Obj(fields), t);
  }

  /** An entry whose `t` is the string `t` yields `t` without italic tags, stripped. */
  lemma EntryTextUsed(vis: Json, t: string)
    requires In("t", vis) == Ok(true) && Item(vis, "t") == Ok(Str(t))
    ensures VisExample(vis) == Some([Strip(RemoveItTags(t))])
  {
  }

  /** A `['vis', [vis]]` item yields what its one entry yields. */
  lemma ItemOfOneEntry(vis: Json)
    ensures ItemExamples(Arr([Str("vis"), Arr([vis])])) == VisExample(vis)
  {
    var item := Arr([Str("vis"), Arr([vis])]);
    assert At(item, 0) == Ok(Str("vis")) && At(item, 1) == Ok(Arr([vis]));
    GatherSingle(vis, VisExample);
  }

  /** A single `vis` entry yields its text with the italic tags removed, stripped. */
  lemma SingleExample(t: string)
    ensures Examples(Arr([Arr([Str("vis"), Arr([Obj([(Name("t"), Str(t))])])])])) == Some([Strip(RemoveItTags(t))])
  {
    var vis := Obj([(Name("t"), Str(t))]);
    EntryWithText(t);
    ItemOfOneEntry(vis);
    GatherSingle(Arr([Str("vis"), Arr([vis])]), ItemExamples);
  }

  /** The examples of `a + b` are those of `a` followed by those of `b`. */
  lemma ExamplesInOrder(a: seq<Json>, b: seq<Json>)
    ensures Examples(Arr(a + b)) ==
      (if Examples(Arr(a)).Some? && Examples(Arr(b)).Some?
       then Some(Examples(Arr(a)).value + Examples(Arr(b)).value) else None)
  {
    GatherAppend(a, b, ItemExamples);
  }

  // ---------------------------------------------------------------------
  // The def / sseq / sense walk the extractors share

  /** The data (`sense[1]`) of every sense that is a list of two or more elements. */
  function SenseData(senses: seq<Json>): seq<Json> {
    if senses == [] then []
    else
      var sense := senses[|senses| - 1];
      SenseData(senses[..|senses| - 1]) + (if sense.Arr? && |sense.items| > 1 then [sense.items[1]] else [])
  }

  /** `for sense in sense_seq`: a sense sequence that cannot be iterated raises. */
  function SenseSeqData(senseSeq: Json): Option<seq<Json>> {
    var senses :- Iter(senseSeq).ToOption();
    Some(SenseData(senses))
  }

  /**
   * The sense data of one definition block: `'sseq' in block`, then every
   * sense of every sense sequence. With `dictOnly` a block that is not a dict
   * is skipped, as the examples loop of `update_word_of_the_day` does; without
   * it, `'sseq' in block` raises on a value that is not a container.
   */
  function BlockSenses(block: Json, dictOnly: bool): Option<seq<Json>> {
    if dictOnly && !block.Obj? then Some([])
    else
      var hasSenses :- In("sseq", block).ToOption();
      if !hasSenses then Some([])
      else
        var sseq :- Item(block, "sseq").ToOption();
        var senseSeqs :- Iter(sseq).ToOption();
        Gather(senseSeqs, SenseSeqData)
  }

  function AnyBlockSenses(block: Json): Option<seq<Json>> {
    BlockSenses(block, false)
  }

  function DictBlockSenses(block: Json): Option<seq<Json>> {
    BlockSenses(block, true)
  }

  /** `if 'def' in d: for def_block in d['def']: ...`: the data of every sense under `def`, in document order. */
  function DefinitionSenses(d: Json, dictOnly: bool): Option<seq<Json>> {
    var hasDef :- In("def", d).ToOption();
    if !hasDef then Some([])
    else
      var defs :- Item(d, "def").ToOption();
      var blocks :- Iter(defs).ToOption();
      Gather(blocks, if dictOnly then DictBlockSenses else AnyBlockSenses)
  }

  /** The walk over one definition block: every sense of every sense sequence under `sseq`. */
  method CollectBlockSenses(block: Json, dictOnly: bool) returns (senses: Option<seq<Json>>)
    ensures senses == BlockSenses(block, dictOnly)
  {
    if dictOnly && !block.Obj? {
      return Some([]);
    }
    var hasSenses :- In("sseq", block).ToOption();
    if !hasSenses {
      return Some([]);
    }
    var sseq :- Item(block, "sseq").ToOption();
    var senseSeqs :- Iter(sseq).ToOption();
    var found: seq<Json> := [];
    for j := 0 to |senseSeqs|
      invariant Gather(senseSeqs[..j], SenseSeqData) == Some(found)
    {
      GatherStep(senseSeqs, SenseSeqData, j);
      var sensesOf := Iter(senseSeqs[j]);
      if sensesOf.Raised? {
        GatherFailure(senseSeqs, SenseSeqData, j + 1);
        return None;
      }
      var data := CollectSenseData(sensesOf.value);
      found := found + data;
    }
    assert senseSeqs[..|senseSeqs|] == senseSeqs;
    return Some(found);
  }

  /** The innermost loop: `sense[1]` of every sense that is a list of two or more elements. */
  method CollectSenseData(senses: seq<Json>) returns (data: seq<Json>)
    ensures data == SenseData(senses)
  {
    data := [];
    for k := 0 to |senses|
      invariant data == SenseData(senses[..k])
    {
      var sense := senses[k];
      assert senses[..k + 1][..k] == senses[..k];
      if sense.Arr? && |sense.items| > 1 {
        data := data + [sense.items[1]];
      }
    }
    assert senses[..|senses|] == senses;
  }

  method CollectSenses(d: Json, dictOnly: bool) returns (senses: Option<seq<Json>>)
    ensures senses == DefinitionSenses(d, dictOnly)
  {
    var hasDef :- In("def", d).ToOption();
    if !hasDef {
      return Some([]);
    }
    var defs :- Item(d, "def").ToOption();
    var blocks :- Iter(defs).ToOption();
    ghost var blockSenses := if dictOnly then DictBlockSenses else AnyBlockSenses;
    var found: seq<Json> := [];
    for i := 0 to |blocks|
      invariant Gather(blocks[..i], blockSenses) == Some(found)
    {
      GatherStep(blocks, blockSenses, i);
      assert blockSenses(blocks[i]) == BlockSenses(blocks[i], dictOnly);
      var fromBlock := CollectBlockSenses(blocks[i], dictOnly);
      if fromBlock.None? {
        GatherFailure(blocks, blockSenses, i + 1);
        return None;
      }
      found := found + fromBlock.value;
    }
    assert blocks[..|blocks|] == blocks;
    return Some(found);
  }

  /** A definition block that is not a dict is skipped by the guarded walk, whatever it holds. */
  lemma GuardSkipsNonDicts(blocks: seq<Json>, block: Json)
    requires !block.Obj?
    ensures Gather(blocks + [block], DictBlockSenses) == Gather(blocks, DictBlockSenses)
  {
    GatherAppend(blocks, [block], DictBlockSenses);
    GatherSingle(block, DictBlockSenses);
    if Gather(blocks, DictBlockSenses).Some? {
      assert Gather(blocks, DictBlockSenses).value + [] == Gather(blocks, DictBlockSenses).value;
    }
  }

  /** The unguarded walk raises on a block that is a number, a boolean or `None`. */
  lemma UnguardedWalkRaises(blocks: seq<Json>, block: Json)
    requires block.Null? || block.Bool? || block.Int? || block.Float?
    ensures Gather(blocks + [block], AnyBlockSenses).None?
  {
    GatherAppend(blocks, [block], AnyBlockSenses);
    GatherSingle(block, AnyBlockSenses);
  }

  // ---------------------------------------------------------------------
  // extract_grammatical_info

  datatype GramInfo = GramInfo(mainGram: Json, additionalInfo: seq<Json>)

  /** One sense's contribution to `additional_info`: its `gram`, if it has one. */
  function SenseGram(senseData: Json): Option<seq<Json>> {
    var hasGram :- In("gram", senseData).ToOption();
    if !hasGram then Some([])
    else
      var gram :- Item(senseData, "gram").ToOption();
      Some([gram])
  }

  /** `extract_grammatical_info(word_data)`, with `None` where it raises. */
  function GrammaticalInfo(wordData: Json): Option<GramInfo> {
    var mainGram :- GetOr(wordData, "gram", Null).ToOption();
    var senses :- DefinitionSenses(wordData, false);
    var additional :- Gather(senses, SenseGram);
    Some(GramInfo(mainGram, additional))
  }

  method ExtractGrammaticalInfo(wordData: Json) returns (info: Option<GramInfo>)
    ensures info == GrammaticalInfo(wordData)
  {
    var mainGram :- GetOr(wordData, "gram", Null).ToOption();
    var senses :- CollectSenses(wordData, false);
    var additional: seq<Json> := [];
    for i := 0 to |senses|
      invariant Gather(senses[..i], SenseGram) == Some(additional)
    {
      GatherStep(senses, SenseGram, i);
      var hasGram := In("gram", senses[i]);
      if hasGram.Raised? || (hasGram.value && Item(senses[i], "gram").Raised?) {
        GatherFailure(senses, SenseGram, i + 1);
        return None;
      }
      if hasGram.value {
        additional := additional + [Item(senses[i], "gram").value];
      } else {
        assert additional + [] == additional;
      }
    }
    assert senses[..|senses|] == senses;
    return Some(GramInfo(mainGram, additional));
  }

  /** The `gram` values of the senses that are dicts holding one, in order. */
  function Grams(senses: seq<Json>): seq<Json> {
    if senses == [] then []
    else
      var sense := senses[|senses| - 1];
      Grams(senses[..|senses| - 1])
      + (if sense.Obj? && Dict.HasKey(sense.fields, Name("gram")) then [Dict.Get(sense.fields, Name("gram")).value] else [])
  }

  /** When the walk succeeds, `additional_info` is exactly the `gram` of every sense that has one. */
  lemma {:induction false} AdditionalInfoIsGrams(senses: seq<Json>)
    requires Gather(senses, SenseGram).Some?
    ensures Gather(senses, SenseGram).value == Grams(senses)
  {
    if senses != [] {
      var n := |senses| - 1;
      assert senses[..n + 1] == senses;
      GatherStep(senses, SenseGram, n);
      AdditionalInfoIsGrams(senses[..n]);
    }
  }

  /** `main_gram` is the entry's `gram` or None, and without `def` there is no additional information. */
  lemma MainGram(fields: seq<(Key, Json)>)
    ensures GrammaticalInfo(Obj(fields)).Some? ==>
      GrammaticalInfo(Obj(fields)).value.mainGram == Dict.Get(fields, Name("gram")).GetOr(Null)
    ensures !Dict.HasKey(fields, Name("def")) ==>
      GrammaticalInfo(Obj(fields)) == Some(GramInfo(Dict.Get(fields, Name("gram")).GetOr(Null), []))
  {
  }

  // ---------------------------------------------------------------------
  // extract_phrases_idioms

  datatype Phrase = Phrase(phrase: Json, definition: string, examples: seq<string>)

  /** `item[1]` of a list item headed by `'text'`; `' '.join` accepts only strings. */
  function TextOf(item: Json): Option<seq<string>> {
    if !item.Arr? then Some([])
    else
      var first :- At(item, 0).ToOption();
      if first != Str("text") then Some([])
      else
        var text :- At(item, 1).ToOption();
        if text.Str? then Some([text.s]) else None
  }

  /** What one sense adds to a phrase's definition: its `text` items joined by spaces, if it has `dt`. */
  function SenseDefinition(senseData: Json): Option<seq<string>> {
    var hasDt :- In("dt", senseData).ToOption();
    if !hasDt then Some([])
    else
      var dt :- Item(senseData, "dt").ToOption();
      var items :- Iter(dt).ToOption();
      var texts :- Gather(items, TextOf);
      Some([Join(" ", texts)])
  }

  /** What one sense adds to a phrase's examples: `extract_examples` of its `dt`, if it has one. */
  function SenseExamples(senseData: Json): Option<seq<string>> {
    var hasDt :- In("dt", senseData).ToOption();
    if !hasDt then Some([])
    else
      var dt :- Item(senseData, "dt").ToOption();
      Examples(dt)
  }

  /** Strings run together by repeated `+=`, with nothing between them. */
  function Glued(parts: seq<string>): string {
    if parts == [] then "" else Glued(parts[..|parts| - 1]) + parts[|parts| - 1]
  }

  /** The record `extract_phrases_idioms` builds for one `dro`. */
  function PhraseOf(dro: Json): (r: Option<Phrase>)
    ensures r.Some? ==> GetOr(dro, "drp", Null) == Ok(r.value.phrase)
  {
    var phrase :- GetOr(dro, "drp", Null).ToOption();
    var senses :- DefinitionSenses(dro, false);
    var definitions :- Gather(senses, SenseDefinition);
    var examples :- Gather(senses, SenseExamples);
    Some(Phrase(phrase, Glued(definitions), examples))
  }

  function PhraseItem(dro: Json): Option<seq<Phrase>> {
    var phrase :- PhraseOf(dro);
    Some([phrase])
  }

  /** `extract_phrases_idioms(word_data)`, with `None` where it raises. */
  function PhrasesIdioms(wordData: Json): Option<seq<Phrase>> {
    var hasDros :- In("dros", wordData).ToOption();
    if !hasDros then Some([])
    else
      var dros :- Item(wordData, "dros").ToOption();
      var items :- Iter(dros).ToOption();
      Gather(items, PhraseItem)
  }

  method PhraseFromDro(dro: Json) returns (result: Option<Phrase>)
    ensures result == PhraseOf(dro)
  {
    var phrase :- GetOr(dro, "drp", Null).ToOption();
    var senses :- CollectSenses(dro, false);
    var definition := "";
    var examples: seq<string> := [];
    ghost var definitions: seq<string> := [];
    for i := 0 to |senses|
      invariant Gather(senses[..i], SenseDefinition) == Some(definitions)
      invariant Gather(senses[..i], SenseExamples) == Some(examples)
      invariant definition == Glued(definitions)
    {
      GatherStep(senses, SenseDefinition, i);
      GatherStep(senses, SenseExamples, i);
      var senseData := senses[i];
      var hasDt := In("dt", senseData);
      if hasDt.Raised? {
        GatherFailure(senses, SenseDefinition, i + 1);
        return None;
      }
      if hasDt.value {
        var dt := Item(senseData, "dt");
        if dt.Raised? || Iter(dt.value).Raised? || Gather(Iter(dt.value).value, TextOf).None? {
          GatherFailure(senses, SenseDefinition, i + 1);
          return None;
        }
        var texts := Gather(Iter(dt.value).value, TextOf).value;
        var fromSense := ExtractExamples(dt.value);
        if fromSense.None? {
          GatherFailure(senses, SenseExamples, i + 1);
          return None;
        }
        assert (definitions + [Join(" ", texts)])[..|definitions|] == definitions;
        definition := definition + Join(" ", texts);
        definitions := definitions + [Join(" ", texts)];
        examples := examples + fromSense.value;
      } else {
        assert definitions + [] == definitions && examples + [] == examples;
      }
    }
    assert senses[..|senses|] == senses;
    return Some(Phrase(phrase, definition, examples));
  }

  method ExtractPhrasesIdioms(wordData: Json) returns (phrases: Option<seq<Phrase>>)
    ensures phrases == PhrasesIdioms(wordData)
  {
    var hasDros :- In("dros", wordData).ToOption();
    if !hasDros {
      return Some([]);
    }
    var dros :- Item(wordData, "dros").ToOption();
    var items :- Iter(dros).ToOption();
    var found: seq<Phrase> := [];
    for i := 0 to |items|
      invariant Gather(items[..i], PhraseItem) == Some(found)
    {
      GatherStep(items, PhraseItem, i);
      var phrase := PhraseFromDro(items[i]);
      if phrase.None? {
        GatherFailure(items, PhraseItem, i + 1);
        return None;
      }
      found := found + [phrase.value];
    }
    assert items[..|items|] == items;
    return Some(found);
  }

  /** One phrase per `dro`, in order, each carrying the `dro`'s `drp` (or None); no `dros`, no phrases. */
  lemma PhrasePerDro(fields: seq<(Key, Json)>, dros: seq<Json>, phrases: seq<Phrase>)
    requires PhrasesIdioms(Obj(fields)) == Some(phrases)
    requires Dict.Get(fields, Name("dros")) == Some(Arr(dros))
    ensures |phrases| == |dros|
    ensures forall i :: 0 <= i < |dros| ==> GetOr(dros[i], "drp", Null) == Ok(phrases[i].phrase)
  {
    GatherSingletons(dros, PhraseItem, phrases);
    forall i | 0 <= i < |dros| ensures GetOr(dros[i], "drp", Null) == Ok(phrases[i].phrase) {
      PhraseItemDrp(dros[i], phrases[i]);
    }
  }

  lemma PhraseItemDrp(dro: Json, p: Phrase)
    requires PhraseItem(dro) == Some([p])
    ensures GetOr(dro, "drp", Null) == Ok(p.phrase)
  {
    assert PhraseOf(dro) == Some(p);
  }

  /** Without `dros` there are no phrases. */
  lemma NoDrosNoPhrases(fields: seq<(Key, Json)>)
    requires !Dict.HasKey(fields, Name("dros"))
    ensures PhrasesIdioms(Obj(fields)) == Some([])
  {
  }

  /** The definitions of successive senses are run together with no separator between them. */
  lemma {:induction false} GluedDefinitions(parts: seq<string>, more: seq<string>)
    ensures Glued(parts + more) == Glued(parts) + Glued(more)
    decreases |more|
  {
    if more == [] {
      assert parts + more == parts;
    } else {
      var n := |more| - 1;
      assert (parts + more)[..|parts| + n] == parts + more[..n];
      GluedDefinitions(parts, more[..n]);
    }
  }

  // ---------------------------------------------------------------------
  // Audio file URLs

  const AudioBaseUrl := "https://media.merriam-webster.com/audio/prons/en/us/mp3"

  /** `s.isalpha()`: non-empty and made of letters only. */
  predicate AlphaText(s: string) {
    s != [] && forall i :: 0 <= i < |s| ==> IsAlpha(s[i])
  }

  /**
   * The URL of an audio file: the sub-directory is `audio_file[0]` when that
   * is alphabetic and `number` otherwise. `audio_file[0].isalpha()` raises
   * unless `audio_file[0]` is a string.
   */
  function AudioUrl(file: Json): (r: Option<string>)
    ensures r.Some? ==> StartsWith(r.value, AudioBaseUrl + "/") && EndsWith(r.value, ".mp3")
  {
    var first :- At(file, 0).ToOption();
    if !first.Str? then None
    else
      var subdir := if AlphaText(first.s) then first.s else "number";
      Some(AudioBaseUrl + "/" + subdir + "/" + Show(file) + ".mp3")
  }

  /** The file name read back from an audio URL. */
  function AudioFileName(url: string): Option<string> {
    var prefix := AudioBaseUrl + "/";
    if |url| < |prefix| + 7 || url[..|prefix|] != prefix || url[|url| - 4..] != ".mp3" then None
    else
      var path := url[|prefix|..|url| - 4];
      if path[1] == '/' then Some(path[2..])
      else if |path| > 7 && path[..7] == "number/" then Some(path[7..])
      else None
  }

  /** The URL of a non-empty file name gives the file name back. */
  lemma AudioUrlRoundTrip(name: string)
    requires name != []
    ensures AudioUrl(Str(name)).Some?
    ensures AudioFileName(AudioUrl(Str(name)).value) == Some(name)
  {
    var path := AudioPath(name);
    AudioUrlOfName(name);
    AudioFileNameOf(path);
    if IsAlpha(name[0]) {
      assert path[1] == '/' && path[2..] == name;
    } else {
      assert path[1] == 'u' && path[..7] == "number/" && path[7..] == name;
    }
  }

  /** The sub-directory and file name of the audio of a non-empty file name. */
  function AudioPath(name: string): string
    requires name != []
  {
    (if IsAlpha(name[0]) then [name[0]] else "number") + "/" + name
  }

  /** The URL of a non-empty file name is the base, its path and `.mp3`. */
  lemma AudioUrlOfName(name: string)
    requires name != []
    ensures AudioUrl(Str(name)) == Some(AudioBaseUrl + "/" + AudioPath(name) + ".mp3")
  {
    assert At(Str(name), 0) == Ok(Str([name[0]]));
    assert [name[0]][0] == name[0];
    assert AlphaText([name[0]]) == IsAlpha(name[0]);
    var subdir := if IsAlpha(name[0]) then [name[0]] else "number";
    assert AudioBaseUrl + "/" + subdir + "/" + name + ".mp3" == AudioBaseUrl + "/" + (subdir + "/" + name) + ".mp3";
  }

  /** Reading the file name back from the URL of a path of three or more characters. */
  lemma AudioFileNameOf(path: string)
    requires |path| >= 3
    ensures AudioFileName(AudioBaseUrl + "/" + path + ".mp3") ==
            if path[1] == '/' then Some(path[2..])
            else if |path| > 7 && path[..7] == "number/" then Some(path[7..])
            else None
  {
    var prefix := AudioBaseUrl + "/";
    var url := prefix + path + ".mp3";
    assert url[..|prefix|] == prefix;
    assert url[|url| - 4..] == ".mp3";
    assert url[|prefix|..|url| - 4] == path;
  }

  /** `'sound' in pr and 'audio' in pr['sound']`: the URL of the entry's audio file, or no URL. */
  function SoundUrl(pr: Json): (r: Option<Option<string>>)
    ensures r.Some? && r.value.Some? ==> r.value.value != ""
  {
    var hasSound :- In("sound", pr).ToOption();
    if !hasSound then Some(None)
    else
      var sound :- Item(pr, "sound").ToOption();
      var hasAudio :- In("audio", sound).ToOption();
      if !hasAudio then Some(None)
      else
        var file :- Item(sound, "audio").ToOption();
        var url :- AudioUrl(file);
        Some(Some(url))
  }

  // ---------------------------------------------------------------------
  // The headword's pronunciations

  datatype Pronunciations = Pronunciations(us: Json, uk: Json, audioUs: string, audioUk: string)

  /** Before the loop every pronunciation and audio URL is the empty string. */
  const Unset := Pronunciations(Str(""), Str(""), "", "")

  /**
   * One pass of the pronunciation loop: an entry with `ipa` sets the American
   * pronunciation, or the British one when its label `l` is `British`, and
   * the matching audio URL when the entry has a sound.
   */
  function PronunciationStep(state: Pronunciations, pr: Json): Option<Pronunciations> {
    var hasIpa :- In("ipa", pr).ToOption();
    if !hasIpa then Some(state)
    else
      var hasLabel :- In("l", pr).ToOption();
      var labelValue :- if hasLabel then GetOr(pr, "l", Null).ToOption() else Some(Null);
      var ipa :- Item(pr, "ipa").ToOption();
      var sound :- SoundUrl(pr);
      if !hasLabel || labelValue != Str("British") then
        Some(state.(us := ipa, audioUs := sound.GetOr(state.audioUs)))
      else
        Some(state.(uk := ipa, audioUk := sound.GetOr(state.audioUk)))
  }

  /** The pronunciation loop over `prs`. */
  function Selected(prs: seq<Json>): Option<Pronunciations> {
    if prs == [] then Some(Unset)
    else
      var state :- Selected(prs[..|prs| - 1]);
      PronunciationStep(state, prs[|prs| - 1])
  }

  function PronunciationsOf(prs: Json): Option<Pronunciations> {
    var items :- Iter(prs).ToOption();
    Selected(items)
  }

  lemma SelectedStep(prs: seq<Json>, i: nat)
    requires i < |prs|
    ensures Selected(prs[..i + 1]) ==
      (if Selected(prs[..i]).Some? then PronunciationStep(Selected(prs[..i]).value, prs[i]) else None)
  {
    assert prs[..i + 1][..i] == prs[..i];
  }

  lemma {:induction false} SelectedFailure(prs: seq<Json>, n: nat)
    requires n <= |prs| && Selected(prs[..n]).None?
    ensures Selected(prs).None?
    decreases |prs| - n
  {
    if n < |prs| {
      SelectedStep(prs, n);
      SelectedFailure(prs, n + 1);
    } else {
      assert prs[..n] == prs;
    }
  }

  method SelectPronunciations(prs: Json) returns (selected: Option<Pronunciations>)
    ensures selected == PronunciationsOf(prs)
  {
    var items :- Iter(prs).ToOption();
    var pronunciationUs, pronunciationUk := Str(""), Str("");
    var audioUrlUs, audioUrlUk := "", "";
    for i := 0 to |items|
      invariant Selected(items[..i]) == Some(Pronunciations(pronunciationUs, pronunciationUk, audioUrlUs, audioUrlUk))
    {
      SelectedStep(items, i);
      var pr := items[i];
      var hasIpa := In("ipa", pr);
      if hasIpa.Raised? {
        SelectedFailure(items, i + 1);
        return None;
      }
      if hasIpa.value {
        var hasLabel := In("l", pr);
        if hasLabel.Raised? || (hasLabel.value && GetOr(pr, "l", Null).Raised?) {
          SelectedFailure(items, i + 1);
          return None;
        }
        var american := !hasLabel.value || GetOr(pr, "l", Null).value != Str("British");
        var ipa := Item(pr, "ipa");
        var sound := SoundUrl(pr);
        if ipa.Raised? || sound.None? {
          SelectedFailure(items, i + 1);
          return None;
        }
        if american {
          pronunciationUs := ipa.value;
          if sound.value.Some? {
            audioUrlUs := sound.value.value;
          }
        } else {
          pronunciationUk := ipa.value;
          if sound.value.Some? {
            audioUrlUk := sound.value.value;
          }
        }
      }
    }
    assert items[..|items|] == items;
    return Some(Pronunciations(pronunciationUs, pronunciationUk, audioUrlUs, audioUrlUk));
  }

  /**
   * A later entry with `ipa` overrides what earlier entries set on its side
   * (British when labelled so, American otherwise) and leaves the other side alone.
   */
  lemma LaterEntryOverrides(prs: seq<Json>, fields: seq<(Key, Json)>)
    requires Selected(prs).Some?
    requires Dict.HasKey(fields, Name("ipa")) && SoundUrl(Obj(fields)).Some?
    ensures Selected(prs + [Obj(fields)]).Some?
    ensures
      var before, after := Selected(prs).value, Selected(prs + [Obj(fields)]).value;
      var ipa := Dict.Get(fields, Name("ipa")).value;
      if Dict.Get(fields, Name("l")) == Some(Str("British")) then
        after.uk == ipa && after.us == before.us && after.audioUs == before.audioUs
      else
        after.us == ipa && after.uk == before.uk && after.audioUk == before.audioUk
  {
    assert (prs + [Obj(fields)])[..|prs|] == prs;
  }

  /** An entry without `ipa` changes nothing. */
  lemma EntryWithoutIpaIgnored(prs: seq<Json>, pr: Json)
    requires In("ipa", pr) == Ok(false)
    ensures Selected(prs + [pr]) == Selected(prs)
  {
    assert (prs + [pr])[..|prs|] == prs;
  }

  /** When every entry with `ipa` is labelled British, the American pronunciation and audio URL stay empty. */
  lemma {:induction false} NoAmericanEntryLeavesUsUnset(prs: seq<Json>)
    requires forall i :: 0 <= i < |prs| ==>
      prs[i].Obj? && (Dict.HasKey(prs[i].fields, Name("ipa")) ==> Dict.Get(prs[i].fields, Name("l")) == Some(Str("British")))
    ensures Selected(prs).Some? ==> Selected(prs).value.us == Str("") && Selected(prs).value.audioUs == ""
  {
    if prs != [] {
      var n := |prs| - 1;
      assert prs[..n + 1] == prs;
      SelectedStep(prs, n);
      NoAmericanEntryLeavesUsUnset(prs[..n]);
      if Selected(prs[..n]).Some? {
        BritishEntryKeepsUs(Selected(prs[..n]).value, prs[n]);
      }
    }
  }

  /** An entry without `ipa`, or labelled British, leaves the American pronunciation and audio URL alone. */
  lemma BritishEntryKeepsUs(state: Pronunciations, pr: Json)
    requires pr.Obj? && (Dict.HasKey(pr.fields, Name("ipa")) ==> Dict.Get(pr.fields, Name("l")) == Some(Str("British")))
    ensures PronunciationStep(state, pr).Some? ==>
              PronunciationStep(state, pr).value.us == state.us && PronunciationStep(state, pr).value.audioUs == state.audioUs
  {
    if Dict.HasKey(pr.fields, Name("ipa")) {
      assert In("l", pr) == Ok(true);
      assert GetOr(pr, "l", Null) == Ok(Str("British"));
    }
  }

  // ---------------------------------------------------------------------
  // Related words (`uros`)

  datatype RelatedWord = RelatedWord(word: Json, partOfSpeech: Json, pronunciation: Json, audioFile: string, grammaticalNote: Json)

  /** `next((pr['ipa'] for pr in prs if 'ipa' in pr), '')`: the generator stops at the first entry with `ipa`. */
  function FirstIpa(prs: seq<Json>): Option<Json> {
    if prs == [] then Some(Str(""))
    else
      var hasIpa :- In("ipa", prs[0]).ToOption();
      if hasIpa then Item(prs[0], "ipa").ToOption() else FirstIpa(prs[1..])
  }

  /** The audio loop of a related word: the URL of the first entry with a sound, then `break`. */
  function FirstAudio(prs: seq<Json>): Option<string> {
    if prs == [] then Some("")
    else
      var sound :- SoundUrl(prs[0]);
      if sound.Some? then Some(sound.value) else FirstAudio(prs[1..])
  }

  /**
   * The record built for one `uro`. Both loops read `uro.get('prs', [])`: the
   * audio loop's `if 'prs' in uro: for pr in uro['prs']` walks the same list,
   * and walks nothing when the key is absent.
   */
  function RelatedWordOf(uro: Json): (r: Option<RelatedWord>)
    ensures r.Some? ==> GetOr(uro, "ure", Str("")) == Ok(r.value.word) && GetOr(uro, "fl", Str("")) == Ok(r.value.partOfSpeech)
  {
    if !uro.Obj? then None
    else
      var word := GetOr(uro, "ure", Str("")).value;
      var partOfSpeech := GetOr(uro, "fl", Str("")).value;
      var prs :- Iter(GetOr(uro, "prs", Arr([])).value).ToOption();
      var pronunciation :- FirstIpa(prs);
      var gram := GetOr(uro, "gram", Str("")).value;
      var audio :- FirstAudio(prs);
      Some(RelatedWord(word, partOfSpeech, pronunciation, audio, gram))
  }

  function RelatedWordItem(uro: Json): Option<seq<RelatedWord>> {
    var related :- RelatedWordOf(uro);
    Some([related])
  }

  /** The related words of an entry, one per `uro`, in order. */
  function RelatedWords(entry: Json): Option<seq<RelatedWord>> {
    var hasUros :- In("uros", entry).ToOption();
    if !hasUros then Some([])
    else
      var uros :- Item(entry, "uros").ToOption();
      var items :- Iter(uros).ToOption();
      Gather(items, RelatedWordItem)
  }

  method RelatedWordFrom(uro: Json) returns (related: Option<RelatedWord>)
    ensures related == RelatedWordOf(uro)
  {
    if !uro.Obj? {
      return None;
    }
    var word := GetOr(uro, "ure", Str("")).value;
    var partOfSpeech := GetOr(uro, "fl", Str("")).value;
    var prs :- Iter(GetOr(uro, "prs", Arr([])).value).ToOption();
    var pronunciation :- FirstIpa(prs);
    var gram := GetOr(uro, "gram", Str("")).value;
    var audio := "";
    var i := 0;
    while i < |prs|
      invariant 0 <= i <= |prs|
      invariant FirstAudio(prs) == FirstAudio(prs[i..])
      invariant audio == ""
    {
      assert prs[i..][0] == prs[i] && prs[i..][1..] == prs[i + 1..];
      var sound := SoundUrl(prs[i]);
      if sound.None? {
        return None;
      }
      if sound.value.Some? {
        audio := sound.value.value;
        break;
      }
      i := i + 1;
    }
    assert FirstAudio(prs) == Some(audio);
    return Some(RelatedWord(word, partOfSpeech, pronunciation, audio, gram));
  }

  method CollectRelatedWords(entry: Json) returns (related: Option<seq<RelatedWord>>)
    ensures related == RelatedWords(entry)
  {
    var hasUros :- In("uros", entry).ToOption();
    if !hasUros {
      return Some([]);
    }
    var uros :- Item(entry, "uros").ToOption();
    var items :- Iter(uros).ToOption();
    var found: seq<RelatedWord> := [];
    for i := 0 to |items|
      invariant Gather(items[..i], RelatedWordItem) == Some(found)
    {
      GatherStep(items, RelatedWordItem, i);
      var word := RelatedWordFrom(items[i]);
      if word.None? {
        GatherFailure(items, RelatedWordItem, i + 1);
        return None;
      }
      found := found + [word.value];
    }
    assert items[..|items|] == items;
    return Some(found);
  }

  /** The first entry with `ipa` gives the pronunciation; the entries after it are never examined. */
  lemma {:induction false} FirstIpaDecides(prs: seq<Json>, k: nat, rest: seq<Json>)
    requires k < |prs| && In("ipa", prs[k]) == Ok(true)
    requires forall i :: 0 <= i < k ==> In("ipa", prs[i]) == Ok(false)
    ensures FirstIpa(prs + rest) == Item(prs[k], "ipa").ToOption()
  {
    assert (prs + rest)[0] == prs[0];
    if k > 0 {
      assert (prs + rest)[1..] == prs[1..] + rest;
      FirstIpaDecides(prs[1..], k - 1, rest);
    }
  }

  /** The first entry with a sound gives the audio URL; the loop breaks there. */
  lemma {:induction false} FirstAudioDecides(prs: seq<Json>, k: nat, url: string)
    requires k < |prs| && SoundUrl(prs[k]) == Some(Some(url))
    requires forall i :: 0 <= i < k ==> SoundUrl(prs[i]) == Some(None)
    ensures FirstAudio(prs) == Some(url)
  {
    if k == 0 {
      FirstAudioFound(prs, url);
    } else {
      FirstAudioSkips(prs);
      forall i | 0 <= i < k - 1 ensures SoundUrl(prs[1..][i]) == Some(None) {
        assert prs[1..][i] == prs[i + 1];
      }
      FirstAudioDecides(prs[1..], k - 1, url);
    }
  }

  /** An entry with a sound ends the audio loop with its URL. */
  lemma FirstAudioFound(prs: seq<Json>, url: string)
    requires prs != [] && SoundUrl(prs[0]) == Some(Some(url))
    ensures FirstAudio(prs) == Some(url)
  {
  }

  /** An entry without a sound is passed over. */
  lemma FirstAudioSkips(prs: seq<Json>)
    requires prs != [] && SoundUrl(prs[0]) == Some(None)
    ensures FirstAudio(prs) == FirstAudio(prs[1..])
  {
  }

  /** Without any sound, the audio file stays the empty string. */
  lemma {:induction false} NoSoundNoAudio(prs: seq<Json>)
    requires forall i :: 0 <= i < |prs| ==> SoundUrl(prs[i]) == Some(None)
    ensures FirstAudio(prs) == Some("")
  {
    if prs != [] {
      NoSoundNoAudio(prs[1..]);
    }
  }

  /** One related word per `uro`, in order, each carrying the `uro`'s `ure` and `fl` (empty when absent). */
  lemma RelatedWordPerUro(fields: seq<(Key, Json)>, uros: seq<Json>, related: seq<RelatedWord>)
    requires RelatedWords(Obj(fields)) == Some(related)
    requires Dict.Get(fields, Name("uros")) == Some(Arr(uros))
    ensures |related| == |uros|
    ensures forall i :: 0 <= i < |uros| ==>
      GetOr(uros[i], "ure", Str("")) == Ok(related[i].word) && GetOr(uros[i], "fl", Str("")) == Ok(related[i].partOfSpeech)
  {
    GatherSingletons(uros, RelatedWordItem, related);
    forall i | 0 <= i < |uros|
      ensures GetOr(uros[i], "ure", Str("")) == Ok(related[i].word) && GetOr(uros[i], "fl", Str("")) == Ok(related[i].partOfSpeech)
    {
      RelatedWordItemFields(uros[i], related[i]);
    }
  }

  lemma RelatedWordItemFields(uro: Json, r: RelatedWord)
    requires RelatedWordItem(uro) == Some([r])
    ensures GetOr(uro, "ure", Str("")) == Ok(r.word) && GetOr(uro, "fl", Str("")) == Ok(r.partOfSpeech)
  {
    assert RelatedWordOf(uro) == Some(r);
  }

  // ---------------------------------------------------------------------
  // The examples of the headword entry

  /**
   * The examples loop of `update_word_of_the_day`: the same walk as the other
   * extractors, except that a definition block that is not a dict is skipped.
   */
  function EntryExamples(entry: Json): Option<seq<string>> {
    var senses :- DefinitionSenses(entry, true);
    Gather(senses, SenseExamples)
  }

  method CollectEntryExamples(entry: Json) returns (examples: Option<seq<string>>)
    ensures examples == EntryExamples(entry)
  {
    var senses :- CollectSenses(entry, true);
    var found: seq<string> := [];
    for i := 0 to |senses|
      invariant Gather(senses[..i], SenseExamples) == Some(found)
    {
      GatherStep(senses, SenseExamples, i);
      var hasDt := In("dt", senses[i]);
      if hasDt.Raised? {
        GatherFailure(senses, SenseExamples, i + 1);
        return None;
      }
      if hasDt.value {
        var dt := Item(senses[i], "dt");
        if dt.Raised? {
          GatherFailure(senses, SenseExamples, i + 1);
          return None;
        }
        var fromSense := ExtractExamples(dt.value);
        if fromSense.None? {
          GatherFailure(senses, SenseExamples, i + 1);
          return None;
        }
        found := found + fromSense.value;
      } else {
        assert found + [] == found;
      }
    }
    assert senses[..|senses|] == senses;
    return Some(found);
  }

  /** Every example of the entry is stripped. */
  lemma EntryExamplesStripped(entry: Json, examples: seq<string>, k: nat)
    requires EntryExamples(entry) == Some(examples) && k < |examples|
    ensures Stripped(examples[k])
  {
    var senses := DefinitionSenses(entry, true).value;
    GatherElements(senses, SenseExamples, examples, k);
    var i :| 0 <= i < |senses| && SenseExamples(senses[i]).Some? && examples[k] in SenseExamples(senses[i]).value;
    var fromSense := SenseExamples(senses[i]).value;
    var m :| 0 <= m < |fromSense| && fromSense[m] == examples[k];
    SenseExamplesStripped(senses[i], fromSense, m);
  }

  /** Every example one sense contributes is stripped. */
  lemma SenseExamplesStripped(sense: Json, examples: seq<string>, m: nat)
    requires SenseExamples(sense) == Some(examples) && m < |examples|
    ensures Stripped(examples[m])
  {
    ExamplesStripped(Item(sense, "dt").value, examples, m);
  }

  // ---------------------------------------------------------------------
  // The row written by update_word_of_the_day

  /** The 24 columns `update_word_of_the_day` sets, in the order of its `UPDATE` statement. */
  datatype WordRecord = WordRecord(
    metaId: Json, metaUuid: Json, metaSrc: Json, metaSection: Json,
    metaTargetTuuid: Json, metaTargetTsrc: Json, metaOffensive: bool,
    headword: Json, partOfSpeech: Json,
    pronunciationUs: Json, pronunciationUk: Json, audioFileUs: string, audioFileUk: string,
    grammaticalNote: Json, grammaticalInfo: string,
    shortdef1: Option<string>, shortdef2: Option<string>, shortdef3: Option<string>, shortDefinitions: string,
    example1: Option<string>, example2: Option<string>, examples: string,
    relatedWords: string, phrasesIdioms: string)

  /** `xs[k] if len(xs) > k else None`. */
  function Slot(xs: seq<string>, k: nat): Option<string> {
    if k < |xs| then Some(xs[k]) else None
  }

  /** The items of a list of strings; any other item makes `str.join` raise. */
  function StringsOf(items: seq<Json>): Option<seq<string>> {
    if items == [] then Some([])
    else
      var init :- StringsOf(items[..|items| - 1]);
      var last := items[|items| - 1];
      if last.Str? then Some(init + [last.s]) else None
  }

  /** `sep.join(j)`. */
  function JoinedStrings(sep: string, j: Json): Option<string> {
    var items :- Iter(j).ToOption();
    var parts :- StringsOf(items);
    Some(Join(sep, parts))
  }

  /** `'; '.join(f"{k}: {v}" for k, v in grammatical_info.items() if v)`. */
  function GramInfoText(info: GramInfo): string {
    var main := if Truthy(info.mainGram) then ["main_gram: " + Show(info.mainGram)] else [];
    var additional := if info.additionalInfo != [] then ["additional_info: " + Repr(Arr(info.additionalInfo))] else [];
    Join("; ", main + additional)
  }

  /** With no main `gram` and one sense `gram` string, the column is that string's `repr` inside a list. */
  lemma OneAdditionalGram(info: GramInfo, g: string)
    requires !Truthy(info.mainGram) && info.additionalInfo == [Str(g)]
    ensures GramInfoText(info) == "additional_info: [" + ReprString(g) + "]"
  {
    var reprs := seq(1, i requires 0 <= i < 1 => Repr(info.additionalInfo[i]));
    assert reprs == [ReprString(g)];
    assert Repr(Arr(info.additionalInfo)) == "[" + ReprString(g) + "]";
  }

  /** `f"{rw['word']} ({rw['part_of_speech']})"` for every related word. */
  function RelatedLabels(related: seq<RelatedWord>): (r: seq<string>)
    ensures |r| == |related|
  {
    if related == [] then []
    else
      var rw := related[|related| - 1];
      RelatedLabels(related[..|related| - 1]) + [Show(rw.word) + " (" + Show(rw.partOfSpeech) + ")"]
  }

  /** `f"{pi['phrase']}: {pi['definition']}"` for every phrase. */
  function PhraseLabels(phrases: seq<Phrase>): (r: seq<string>)
    ensures |r| == |phrases|
  {
    if phrases == [] then []
    else
      var pi := phrases[|phrases| - 1];
      PhraseLabels(phrases[..|phrases| - 1]) + [Show(pi.phrase) + ": " + pi.definition]
  }

  /**
   * Everything `update_word_of_the_day` computes before it writes: `None`
   * when the data is not a non-empty list headed by a dict, or when any
   * extraction raises.
   */
  function WordRecordOf(wordData: Json): (r: Option<WordRecord>)
    ensures r.Some? ==> DefinitionColumns(r.value) && ExampleColumns(r.value)
  {
    if !Truthy(wordData) then None
    else
      var entry :- At(wordData, 0).ToOption();
      RecordOfEntry(entry)
  }

  /** The record extracted from `word_data[0]`, or `None` when it is not a dict or an extraction raises. */
  function RecordOfEntry(entry: Json): (r: Option<WordRecord>)
    ensures r.Some? ==> DefinitionColumns(r.value) && ExampleColumns(r.value)
  {
    if !entry.Obj? then None
    else
      var meta := GetOr(entry, "meta", Obj([])).value;
      var hwi := GetOr(entry, "hwi", Obj([])).value;
      if !meta.Obj? || !hwi.Obj? || !GetOr(meta, "target", Obj([])).value.Obj? then None
      else
        var stemsText :- JoinedStrings(", ", GetOr(meta, "stems", Arr([])).value);
        var pronunciations :- PronunciationsOf(GetOr(hwi, "prs", Arr([])).value);
        var gramInfo :- GrammaticalInfo(entry);
        var appShortdef := GetOr(meta, "app-shortdef", Obj([])).value;
        if !appShortdef.Obj? then None
        else
          var shortdef := GetOr(appShortdef, "def", Arr([])).value;
          var definitions :- ShortDefinitions(shortdef);
          var examples :- EntryExamples(entry);
          var related :- RelatedWords(entry);
          var phrases :- PhrasesIdioms(entry);
          ShortDefinitionSlots(shortdef, definitions);
          EntryExampleSlots(entry, examples);
          Some(AssembleRecord(entry, pronunciations, gramInfo, definitions, examples, related, phrases))
  }

  /** The row written for `entry` from the values extracted from it. */
  function AssembleRecord(entry: Json, pronunciations: Pronunciations, gramInfo: GramInfo, definitions: seq<string>,
                          examples: seq<string>, related: seq<RelatedWord>, phrases: seq<Phrase>): (r: WordRecord)
    requires entry.Obj? && GetOr(entry, "meta", Obj([])).value.Obj? && GetOr(entry, "hwi", Obj([])).value.Obj?
    requires GetOr(GetOr(entry, "meta", Obj([])).value, "target", Obj([])).value.Obj?
    ensures r.shortdef1 == Slot(definitions, 0) && r.shortdef2 == Slot(definitions, 1) && r.shortdef3 == Slot(definitions, 2)
    ensures r.example1 == Slot(examples, 0) && r.example2 == Slot(examples, 1)
    ensures r.shortDefinitions == Join("; ", definitions) && r.examples == Join("; ", examples)
    ensures DefinitionSlotsFill(definitions) ==> DefinitionColumns(r)
    ensures ExampleSlotsFill(examples) ==> ExampleColumns(r)
  {
    var meta := GetOr(entry, "meta", Obj([])).value;
    var hwi := GetOr(entry, "hwi", Obj([])).value;
    var target := GetOr(meta, "target", Obj([])).value;
    WordRecord(
      GetOr(meta, "id", Str("")).value, GetOr(meta, "uuid", Str("")).value,
      GetOr(meta, "src", Str("")).value, GetOr(meta, "section", Str("")).value,
      GetOr(target, "tuuid", Str("")).value, GetOr(target, "tsrc", Str("")).value,
      Truthy(GetOr(meta, "offensive", Bool(false)).value),
      GetOr(hwi, "hw", Str("")).value, GetOr(entry, "fl", Str("")).value,
      pronunciations.us, pronunciations.uk, pronunciations.audioUs, pronunciations.audioUk,
      GetOr(entry, "gram", Str("")).value, GramInfoText(gramInfo),
      Slot(definitions, 0), Slot(definitions, 1), Slot(definitions, 2), Join("; ", definitions),
      Slot(examples, 0), Slot(examples, 1), Join("; ", examples),
      Join("; ", RelatedLabels(related)), Join("; ", PhraseLabels(phrases)))
  }

  method BuildWordRecord(wordData: Json) returns (record: Option<WordRecord>)
    ensures record == WordRecordOf(wordData)
  {
    if !Truthy(wordData) {
      return None;
    }
    var entry :- At(wordData, 0).ToOption();
    record := BuildEntryRecord(entry);
  }

  /** The extraction from `word_data[0]`. */
  method BuildEntryRecord(entry: Json) returns (record: Option<WordRecord>)
    ensures record == RecordOfEntry(entry)
  {
    if !entry.Obj? {
      return None;
    }
    var meta := GetOr(entry, "meta", Obj([])).value;
    var hwi := GetOr(entry, "hwi", Obj([])).value;
    if !meta.Obj? || !hwi.Obj? || !GetOr(meta, "target", Obj([])).value.Obj? {
      return None;
    }
    var stemsText :- JoinedStrings(", ", GetOr(meta, "stems", Arr([])).value);
    var pronunciations :- SelectPronunciations(GetOr(hwi, "prs", Arr([])).value);
    var gramInfo :- ExtractGrammaticalInfo(entry);
    var appShortdef := GetOr(meta, "app-shortdef", Obj([])).value;
    if !appShortdef.Obj? {
      return None;
    }
    var definitions :- ParseShortDefinitions(GetOr(appShortdef, "def", Arr([])).value);
    var examples :- CollectEntryExamples(entry);
    var related :- CollectRelatedWords(entry);
    var phrases :- ExtractPhrasesIdioms(entry);
    return Some(AssembleRecord(entry, pronunciations, gramInfo, definitions, examples, related, phrases));
  }

  /** Data that is not a non-empty list headed by a dict is rejected (a JSON object has only string keys). */
  lemma InvalidDataRejected(wordData: Json)
    requires !(wordData.Arr? && wordData.items != [] && wordData.items[0].Obj?)
    requires wordData.Obj? ==> !Dict.HasKey(wordData.fields, Index(0))
    ensures WordRecordOf(wordData).None?
  {
  }

  /**
   * The short-definition columns: the slots fill from the front, each filled
   * slot holds a clean definition, and the joined column is empty exactly
   * when there is none and starts with the first one otherwise.
   */
  predicate DefinitionColumns(r: WordRecord) {
    && (r.shortdef3.Some? ==> r.shortdef2.Some?)
    && (r.shortdef2.Some? ==> r.shortdef1.Some?)
    && (r.shortdef1.None? <==> r.shortDefinitions == "")
    && (r.shortdef1.Some? ==> CleanDefinition(r.shortdef1.value) && StartsWith(r.shortDefinitions, r.shortdef1.value))
    && (r.shortdef2.Some? ==> CleanDefinition(r.shortdef2.value))
    && (r.shortdef3.Some? ==> CleanDefinition(r.shortdef3.value))
  }

  /**
   * The example columns: `example_2` is filled only after `example_1`, both
   * are stripped, and the joined column is empty when there is no example and
   * starts with the first one otherwise.
   */
  predicate ExampleColumns(r: WordRecord) {
    && (r.example2.Some? ==> r.example1.Some?)
    && (r.example1.None? ==> r.examples == "")
    && (r.example1.Some? ==> Stripped(r.example1.value) && StartsWith(r.examples, r.example1.value))
    && (r.example2.Some? ==> Stripped(r.example2.value))
  }

  /** The short definitions fill the columns from the front with clean definitions. */
  predicate DefinitionSlotsFill(definitions: seq<string>) {
    && (Slot(definitions, 2).Some? ==> Slot(definitions, 1).Some?)
    && (Slot(definitions, 1).Some? ==> Slot(definitions, 0).Some?)
    && (Slot(definitions, 0).None? <==> Join("; ", definitions) == "")
    && (Slot(definitions, 0).Some? ==> CleanDefinition(definitions[0]) && StartsWith(Join("; ", definitions), definitions[0]))
    && (Slot(definitions, 1).Some? ==> CleanDefinition(definitions[1]))
    && (Slot(definitions, 2).Some? ==> CleanDefinition(definitions[2]))
  }

  /** The examples fill the columns from the front with stripped examples. */
  predicate ExampleSlotsFill(examples: seq<string>) {
    && (Slot(examples, 1).Some? ==> Slot(examples, 0).Some?)
    && (Slot(examples, 0).None? ==> Join("; ", examples) == "")
    && (Slot(examples, 0).Some? ==> Stripped(examples[0]) && StartsWith(Join("; ", examples), examples[0]))
    && (Slot(examples, 1).Some? ==> Stripped(examples[1]))
  }

  lemma ShortDefinitionSlots(shortdef: Json, definitions: seq<string>)
    requires ShortDefinitions(shortdef) == Some(definitions)
    ensures Slot(definitions, 2).Some? ==> Slot(definitions, 1).Some?
    ensures Slot(definitions, 1).Some? ==> Slot(definitions, 0).Some?
    ensures Slot(definitions, 0).None? <==> Join("; ", definitions) == ""
    ensures Slot(definitions, 0).Some? ==>
      CleanDefinition(definitions[0]) && StartsWith(Join("; ", definitions), definitions[0])
    ensures Slot(definitions, 1).Some? ==> CleanDefinition(definitions[1])
    ensures Slot(definitions, 2).Some? ==> CleanDefinition(definitions[2])
  {
    forall k | 0 <= k < |definitions| && k < 3 ensures CleanDefinition(definitions[k]) {
      ShortDefinitionsClean(shortdef, definitions, k);
    }
    if definitions != [] {
      JoinStartsWith("; ", definitions);
    }
  }

  lemma EntryExampleSlots(entry: Json, examples: seq<string>)
    requires EntryExamples(entry) == Some(examples)
    ensures Slot(examples, 1).Some? ==> Slot(examples, 0).Some?
    ensures Slot(examples, 0).None? ==> Join("; ", examples) == ""
    ensures Slot(examples, 0).Some? ==> Stripped(examples[0]) && StartsWith(Join("; ", examples), examples[0])
    ensures Slot(examples, 1).Some? ==> Stripped(examples[1])
  {
    if examples != [] {
      JoinStartsWith("; ", examples);
      EntryExamplesStripped(entry, examples, 0);
    }
    if |examples| > 1 {
      EntryExamplesStripped(entry, examples, 1);
    }
  }

  // ---------------------------------------------------------------------
  // The transaction around the update

  /**
   * The database connection `update_word_of_the_day` writes through: the
   * committed rows of `word_of_the_day` (an id maps to its enrichment, `None`
   * while `meta_id` is still NULL), the rows as the open transaction sees
   * them, and the `autocommit` flag.
   */
  class Connection {
    var autocommit: bool
    var table: map<int, Option<WordRecord>>
    var pending: map<int, Option<WordRecord>>

    /** In autocommit mode there is no open transaction. */
    ghost predicate Valid()
      reads this
    {
      autocommit ==> pending == table
    }

    constructor (rows: map<int, Option<WordRecord>>)
      ensures autocommit && table == rows && pending == rows
      ensures Valid()
    {
      autocommit := true;
      table := rows;
      pending := rows;
    }

    /** `UPDATE word_of_the_day SET ... WHERE id = %s` inside the open transaction: only an existing row changes. */
    method Execute(wordId: int, record: WordRecord)
      requires !autocommit
      modifies this
      ensures pending == Updated(old(pending), wordId, record)
      ensures table == old(table) && autocommit == old(autocommit)
    {
      pending := Updated(pending, wordId, record);
    }

    /** `conn.commit()`: the open transaction becomes the table. */
    method Commit()
      modifies this
      ensures table == old(pending) && pending == old(pending) && autocommit == old(autocommit)
    {
      table := pending;
    }

    /** `conn.rollback()`: the open transaction is discarded. */
    method Rollback()
      modifies this
      ensures pending == old(table) && table == old(table) && autocommit == old(autocommit)
    {
      pending := table;
    }
  }

  /** The rows after `UPDATE ... WHERE id = wordId`: the row with that id, if any, gets the record. */
  function Updated(rows: map<int, Option<WordRecord>>, wordId: int, record: WordRecord): (r: map<int, Option<WordRecord>>)
    ensures r.Keys == rows.Keys
    ensures forall id :: id in rows && id != wordId ==> r[id] == rows[id]
    ensures wordId in rows ==> r[wordId] == Some(record)
  {
    if wordId in rows then rows[wordId := Some(record)] else rows
  }

  /**
   * `update_word_of_the_day`: with autocommit switched off, extract the
   * record, write it and commit; on any exception roll back and report
   * failure; in every case switch autocommit back on. `databaseFails` stands
   * for the database rejecting the statement or the commit.
   */
  method UpdateWordOfTheDay(conn: Connection, wordId: int, wordData: Json, databaseFails: bool) returns (ok: bool)
    requires conn.Valid()
    modifies conn
    ensures conn.autocommit && conn.Valid()
    ensures ok <==> WordRecordOf(wordData).Some? && !databaseFails
    ensures ok ==> conn.table == Updated(old(conn.pending), wordId, WordRecordOf(wordData).value)
    ensures ok && old(conn.autocommit) ==> conn.table == Updated(old(conn.table), wordId, WordRecordOf(wordData).value)
    ensures !ok ==> conn.table == old(conn.table)
  {
    conn.autocommit := false;
    var record := BuildWordRecord(wordData);
    if record.Some? && !databaseFails {
      conn.Execute(wordId, record.value);
      conn.Commit();
      ok := true;
    } else {
      conn.Rollback();
      ok := false;
    }
    conn.autocommit := true;
  }
}
