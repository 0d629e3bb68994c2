/**
 * The payload side of the newsletter renderer (scripts/utils/content_loader.py):
 * normalising digit-string keys to integers, validating the required shape of
 * the payload, and naming the rendered file. Loading the template and rendering
 * it are not part of this model.
 */
module ContentLoader {
  import opened Wrappers
  import opened Strings
  import opened Json
  import Dict

  // ---------------------------------------------------------------------------
  // convert_string_to_int_keys
  // ---------------------------------------------------------------------------

  /** The key a dict entry gets: a string of decimal digits becomes its integer value. */
  function ConvertKey(k: Key): (r: Key)
    ensures k.Name? && AllDigits(k.name) ==> r == Index(DecimalValue(k.name))
    ensures !(k.Name? && AllDigits(k.name)) ==> r == k
    ensures r.Index? || !AllDigits(r.name)
  {
    if k.Name? && AllDigits(k.name) then Index(DecimalValue(k.name)) else k
  }

  /**
   * `convert_string_to_int_keys(j)`: every dict is rebuilt with converted keys
   * and converted values, every list with converted items; anything else is
   * returned as it is.
   */
  function Convert(j: Json): (r: Json)
    ensures !j.Arr? && !j.Obj? ==> r == j
    ensures j.Arr? <==> r.Arr?
    ensures j.Obj? <==> r.Obj?
  {
    match j
    case Arr(items) => Arr(seq(|items|, i requires 0 <= i < |items| => Convert(items[i])))
    case Obj(fields) => Obj(Dict.FromPairs(ConvertedPairs(fields, j)))
    case _ => j
  }

  /** The `(key, value)` pairs the dict comprehension produces, in item order. */
  function ConvertedPairs(fields: seq<(Key, Json)>, ghost parent: Json): (ps: seq<(Key, Json)>)
    requires parent.Obj? && fields == parent.fields
    ensures |ps| == |fields|
    decreases parent, 0
  {
    seq(|fields|, i requires 0 <= i < |fields| =>
          assert fields[i] in fields && fields[i].1 < fields[i];
          (ConvertKey(fields[i].0), Convert(fields[i].1)))
  }

  /** A list keeps its length and order; each item is converted. */
  lemma ConvertList(items: seq<Json>)
    ensures Convert(Arr(items)).items == seq(|items|, i requires 0 <= i < |items| => Convert(items[i]))
  {
  }

  /** A key is in a converted dict exactly when some original key converts to it. */
  lemma ConvertDictKeys(fields: seq<(Key, Json)>, k: Key)
    ensures Convert(Obj(fields)).Obj?
    ensures Dict.HasKey(Convert(Obj(fields)).fields, k) <==>
            exists i :: 0 <= i < |fields| && ConvertKey(fields[i].0) == k
  {
    var ps := ConvertedPairs(fields, Obj(fields));
    assert Convert(Obj(fields)).fields == Dict.FromPairs(ps);
    assert forall i :: 0 <= i < |ps| ==> ps[i].0 == ConvertKey(fields[i].0);
    Dict.FromPairsKeys(ps, k);
  }

  /** A converted dict is a real dict: its keys are distinct, even when two original keys collide. */
  lemma ConvertDictDistinct(fields: seq<(Key, Json)>)
    ensures Convert(Obj(fields)).Obj? && Dict.DistinctKeys(Convert(Obj(fields)).fields)
  {
    var ps := ConvertedPairs(fields, Obj(fields));
    assert Convert(Obj(fields)).fields == Dict.FromPairs(ps);
    Dict.FromPairsDistinct(ps);
  }

  /**
   * When no two keys convert to the same key (as "7" and "07" would), the
   * converted dict has the same length and order: entry i is key i converted
   * with value i converted.
   */
  lemma ConvertDictEntries(fields: seq<(Key, Json)>)
    requires forall i, j :: 0 <= i < j < |fields| ==> ConvertKey(fields[i].0) != ConvertKey(fields[j].0)
    ensures Convert(Obj(fields)).Obj? && |Convert(Obj(fields)).fields| == |fields|
    ensures forall i :: 0 <= i < |fields| ==>
              Convert(Obj(fields)).fields[i] == (ConvertKey(fields[i].0), Convert(fields[i].1))
  {
    var ps := ConvertedPairs(fields, Obj(fields));
    assert Convert(Obj(fields)).fields == Dict.FromPairs(ps);
    Dict.FromDistinctPairs(ps);
  }

  /** A value that conversion leaves alone: dict keys distinct and none of them a digit string, at every level. */
  predicate Converted(j: Json) {
    match j
    case Arr(items) => forall i :: 0 <= i < |items| ==> Converted(items[i])
    case Obj(fields) =>
      Dict.DistinctKeys(fields) &&
      forall i :: 0 <= i < |fields| ==>
        assert fields[i] in fields && fields[i].1 < fields[i];
        ConvertKey(fields[i].0) == fields[i].0 && Converted(fields[i].1)
    case _ => true
  }

  /** Conversion does not change a value that is already converted. */
  lemma {:induction false} ConvertedFixed(j: Json)
    requires Converted(j)
    ensures Convert(j) == j
  {
    match j
    case Arr(items) =>
      forall i | 0 <= i < |items| ensures Convert(items[i]) == items[i] {
        ConvertedFixed(items[i]);
      }
    case Obj(fields) =>
      var ps := ConvertedPairs(fields, j);
      forall i | 0 <= i < |fields| ensures ps[i] == fields[i] {
        assert fields[i] in fields && fields[i].1 < fields[i];
        ConvertedFixed(fields[i].1);
      }
      assert ps == fields;
      Dict.FromDistinctPairs(fields);
    case _ =>
  }

  /** The result of a conversion is converted. */
  lemma {:induction false} ConvertConverted(j: Json)
    ensures Converted(Convert(j))
  {
    match j
    case Arr(items) =>
      forall i | 0 <= i < |items| ensures Converted(Convert(items[i])) {
        ConvertConverted(items[i]);
      }
    case Obj(fields) =>
      var ps := ConvertedPairs(fields, j);
      var d := Dict.FromPairs(ps);
      Dict.FromPairsDistinct(ps);
      Dict.FromPairsEntries(ps);
      forall i | 0 <= i < |d| ensures ConvertKey(d[i].0) == d[i].0 && Converted(d[i].1) {
        assert d[i] in d;
        var m :| 0 <= m < |ps| && ps[m] == d[i];
        assert fields[m] in fields && fields[m].1 < fields[m];
        ConvertConverted(fields[m].1);
      }
    case _ =>
  }

  /** Converting twice is converting once (the payload is converted when loaded and again in `main`). */
  lemma ConvertIdempotent(j: Json)
    ensures Convert(Convert(j)) == Convert(j)
  {
    ConvertConverted(j);
    ConvertedFixed(Convert(j));
  }

  // ---------------------------------------------------------------------------
  // validate_data
  // ---------------------------------------------------------------------------

  /** The fields a payload must have, in the order they are checked. */
  const RequiredFields: seq<string> :=
    ["newsletter_title", "newsletter_date", "coming_soon", "weather", "exchange_rates",
     "news", "newsletter_username", "todays_date"]

  function MissingFieldMessage(field: string): string {
    "Required field '" + field + "' is missing from the JSON data"
  }

  function InvalidTopicMessage(k: Key): string {
    "Invalid structure in news topic " + ShowKey(k)
  }

  const InvalidNewsMessage: string := "Invalid 'news' structure in JSON data"

  /** The first of `fields`, in order, that is not a key of `data`. */
  function FirstMissing(data: seq<(Key, Json)>, fields: seq<string>): (r: Option<string>)
    ensures r.None? <==> forall i :: 0 <= i < |fields| ==> Dict.HasKey(data, Name(fields[i]))
    ensures r.Some? ==> exists i :: 0 <= i < |fields| && fields[i] == r.value && !Dict.HasKey(data, Name(r.value)) &&
                                  forall j :: 0 <= j < i ==> Dict.HasKey(data, Name(fields[j]))
  {
    if fields == [] then None
    else if !Dict.HasKey(data, Name(fields[0])) then Some(fields[0])
    else
      var r := FirstMissing(data, fields[1..]);
      assert forall i :: 1 <= i < |fields| ==> fields[i] == fields[1..][i - 1];
      r
  }

  /** What checking one news topic raises: a missing `title` or `news` is a `ValueError` naming the topic. */
  function TopicError(key: Key, topic: Json): (r: Option<PyError>)
    ensures topic.Obj? ==>
              (r.None? <==> Dict.HasKey(topic.fields, Name("title")) && Dict.HasKey(topic.fields, Name("news")))
    ensures topic.Obj? && r.Some? ==> r == Some(ValueError(InvalidTopicMessage(key)))
  {
    match In("title", topic)
    case Raised(e) => Some(e)
    case Ok(hasTitle) =>
      if !hasTitle then Some(ValueError(InvalidTopicMessage(key)))
      else
        match In("news", topic)
        case Raised(e) => Some(e)
        case Ok(hasNews) => if !hasNews then Some(ValueError(InvalidTopicMessage(key))) else None
  }

  /** The first topic, in dict order, whose check raises. */
  function TopicsError(topics: seq<(Key, Json)>): (r: Option<PyError>)
    ensures r.None? <==> forall i :: 0 <= i < |topics| ==> TopicError(topics[i].0, topics[i].1).None?
  {
    if topics == [] then None
    else
      match TopicError(topics[0].0, topics[0].1)
      case Some(e) => Some(e)
      case None =>
        assert forall i :: 1 <= i < |topics| ==> topics[i] == topics[1..][i - 1];
        TopicsError(topics[1..])
  }

  /** What checking the `news` section raises: it needs a `topic` dict whose every topic is well formed. */
  function NewsError(news: Json): (r: Option<PyError>)
    ensures news.Obj? && !Dict.HasKey(news.fields, Name("topic")) ==> r == Some(ValueError(InvalidNewsMessage))
    ensures r.None? ==> news.Obj? && Dict.HasKey(news.fields, Name("topic"))
  {
    match In("topic", news)
    case Raised(e) => Some(e)
    case Ok(hasTopic) =>
      if !hasTopic then Some(ValueError(InvalidNewsMessage))
      else
        match Item(news, "topic")
        case Raised(e) => Some(e)
        case Ok(topic) => if topic.Obj? then TopicsError(topic.fields) else Some(AttributeError)
  }

  /** What `validate_data(data)` raises, if anything. */
  function ValidationError(data: seq<(Key, Json)>): (r: Option<PyError>)
    ensures FirstMissing(data, RequiredFields).Some? ==>
              r == Some(ValueError(MissingFieldMessage(FirstMissing(data, RequiredFields).value)))
    ensures r.None? ==> forall f :: f in RequiredFields ==> Dict.HasKey(data, Name(f))
  {
    match FirstMissing(data, RequiredFields)
    case Some(f) => Some(ValueError(MissingFieldMessage(f)))
    case None => NewsError(Dict.Get(data, Name("news")).GetOr(Null))
  }

  /**
   * `validate_data(data)`: the required fields are checked in order, then the
   * spelling fix for `comming_soon`, then the news topics. Returns what is
   * raised (if anything) and the payload afterwards.
   */
  method ValidateData(data: seq<(Key, Json)>) returns (error: Option<PyError>, after: seq<(Key, Json)>)
    ensures error == ValidationError(data)
    ensures after == data
  {
    after := data;
    var i := 0;
    while i < |RequiredFields|
      invariant 0 <= i <= |RequiredFields|
      invariant FirstMissing(data, RequiredFields) == FirstMissing(data, RequiredFields[i..])
    {
      var field := RequiredFields[i];
      if !Dict.HasKey(data, Name(field)) {
        return Some(ValueError(MissingFieldMessage(field))), after;
      }
      assert RequiredFields[i..][1..] == RequiredFields[i + 1..];
      i := i + 1;
    }
    assert RequiredFields[2] == "coming_soon";
    if Dict.HasKey(after, Name("comming_soon")) && !Dict.HasKey(after, Name("coming_soon")) {
      var moved := Dict.Get(after, Name("comming_soon")).GetOr(Null);
      after := Dict.Set(Dict.Remove(after, Name("comming_soon")), Name("coming_soon"), moved);
    }
    var news := Dict.Get(after, Name("news")).GetOr(Null);
    var hasTopic := In("topic", news);
    if hasTopic.Raised? {
      return Some(hasTopic.error), after;
    }
    if !hasTopic.value {
      return Some(ValueError(InvalidNewsMessage)), after;
    }
    var topic := Item(news, "topic");
    if topic.Raised? {
      return Some(topic.error), after;
    }
    if !topic.value.Obj? {
      return Some(AttributeError), after;
    }
    var topics := topic.value.fields;
    var j := 0;
    while j < |topics|
      invariant 0 <= j <= |topics|
      invariant TopicsError(topics) == TopicsError(topics[j..])
    {
      var (key, value) := topics[j];
      var hasTitle := In("title", value);
      if hasTitle.Raised? {
        return Some(hasTitle.error), after;
      }
      if !hasTitle.value {
        return Some(ValueError(InvalidTopicMessage(key))), after;
      }
      var hasNews := In("news", value);
      if !hasNews.value {
        return Some(ValueError(InvalidTopicMessage(key))), after;
      }
      assert topics[j..][1..] == topics[j + 1..];
      j := j + 1;
    }
    error := None;
  }

  /** A payload missing `coming_soon` is rejected for it even when it has `comming_soon`: the spelling fix never runs. */
  lemma MisspelledComingSoonRejected(data: seq<(Key, Json)>)
    requires forall f :: f in RequiredFields && f != "coming_soon" ==> Dict.HasKey(data, Name(f))
    requires !Dict.HasKey(data, Name("coming_soon"))
    ensures ValidationError(data) == Some(ValueError(MissingFieldMessage("coming_soon")))
  {
    var fields := RequiredFields;
    assert fields[0] in fields && fields[0] != "coming_soon";
    assert FirstMissing(data, fields) == FirstMissing(data, fields[1..]);
    assert fields[1..][0] == fields[1] && fields[1] in fields && fields[1] != "coming_soon";
    assert FirstMissing(data, fields[1..]) == FirstMissing(data, fields[1..][1..]);
    assert fields[1..][1..][0] == "coming_soon";
    assert FirstMissing(data, fields[1..][1..]) == Some("coming_soon");
  }

  // ---------------------------------------------------------------------------
  // save_rendered_html: the output file name
  // ---------------------------------------------------------------------------

  /** `f"{username}_{date}.html"`. */
  function FileName(username: Json, date: Json): (name: string)
    ensures EndsWith(name, ".html")
  {
    Show(username) + "_" + Show(date) + ".html"
  }

  /** The position of the last `c` in `s`, or -1. */
  function LastIndexOf(s: string, c: char): (r: int)
    ensures -1 <= r < |s|
    ensures r >= 0 ==> s[r] == c
    ensures forall i :: r < i < |s| ==> s[i] != c
  {
    if s == [] then -1
    else if s[|s| - 1] == c then |s| - 1
    else LastIndexOf(s[..|s| - 1], c)
  }

  /** Reads a file name back as user name and date: the date is what follows the last `_`. */
  function ParseFileName(name: string): Option<(string, string)> {
    if !EndsWith(name, ".html") then None
    else
      var stem := name[..|name| - 5];
      var k := LastIndexOf(stem, '_');
      if k < 0 then None else Some((stem[..k], stem[k + 1..]))
  }

  /** A file name gives back the user name and date it was made from, for dates without `_` (as ISO dates are). */
  lemma FileNameRoundTrip(username: string, date: string)
    requires '_' !in date
    ensures ParseFileName(FileName(Str(username), Str(date))) == Some((username, date))
  {
    var name := FileName(Str(username), Str(date));
    assert name == username + "_" + date + ".html";
    assert EndsWith(name, ".html");
    var stem := name[..|name| - 5];
    assert stem == username + "_" + date;
    var k := LastIndexOf(stem, '_');
    assert stem[|username|] == '_';
    assert k == |username| by {
      forall i | |username| < i < |stem| ensures stem[i] != '_' {
        assert stem[i] == date[i - |username| - 1];
      }
    }
    assert stem[..k] == username && stem[k + 1..] == date;
  }
}
