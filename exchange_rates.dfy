/**
 * Exchange-rate processing (scripts/apis/content_fetchers/exchange_rates_api.py):
 * keeping the requested USD-based rates, deriving cross-rates between pairs of
 * currencies, and adding them to the saved response under `cross_rates`.
 * Rates are exact reals here, not floating-point numbers.
 */
module ExchangeRates {
  import opened Wrappers
  import opened Strings
  import opened Json
  import Dict

  /** The currencies requested from the API. */
  const Currencies: seq<string> := ["USD", "CAD", "BRL"]

  /** The pairs whose cross-rates are computed, in order. */
  const CurrencyPairs: seq<(string, string)> := [("CAD", "BRL"), ("USD", "BRL"), ("USD", "CAD")]

  /** Python's truthiness of a rate: zero is false. */
  predicate UsableRate(data: map<string, real>, c: string) {
    c in data && data[c] != 0.0
  }

  /**
   * `process_exchange_rates`: the requested currencies whose rate in the
   * response's `data` is present and non-zero, each with that rate.
   */
  method ProcessExchangeRates(data: map<string, real>, currencies: seq<string>) returns (rates: map<string, real>)
    ensures forall c :: c in rates <==> c in currencies && UsableRate(data, c)
    ensures forall c :: c in rates ==> c in data && rates[c] == data[c]
  {
    rates := map[];
    for i := 0 to |currencies|
      invariant forall c :: c in rates <==> c in currencies[..i] && UsableRate(data, c)
      invariant forall c :: c in rates ==> c in data && rates[c] == data[c]
    {
      var currency := currencies[i];
      if currency in data && data[currency] != 0.0 {
        rates := rates[currency := data[currency]];
      }
    }
    assert currencies[..|currencies|] == currencies;
  }

  /** What `calculate_cross_rate` gives: `None`, a rate, or a `ZeroDivisionError`. */
  datatype CrossRate = Missing | Rate(value: real) | DivisionByZero

  /** `calculate_cross_rate(rates, from, to)`: how many units of `to` one unit of `from` buys. */
  function CalculateCrossRate(rates: map<string, real>, from: string, to: string): (r: CrossRate)
    ensures r.Missing? <==> from !in rates || to !in rates
    ensures r.DivisionByZero? <==> from in rates && to in rates && from != "USD" && rates[from] == 0.0
    ensures from in rates && to in rates && from == "USD" ==> r == Rate(rates[to])
    ensures from in rates && to in rates && from != "USD" && to == "USD" && rates[from] != 0.0 ==>
              r == Rate(1.0 / rates[from])
    ensures from in rates && to in rates && from != "USD" && to != "USD" && rates[from] != 0.0 ==>
              r == Rate(rates[to] / rates[from])
  {
    if from !in rates || to !in rates then Missing
    else if from == "USD" then Rate(rates[to])
    else if to == "USD" then (if rates[from] == 0.0 then DivisionByZero else Rate(1.0 / rates[from]))
    else (if rates[from] == 0.0 then DivisionByZero else Rate(rates[to] / rates[from]))
  }

  /** Every rate in the table is non-zero, as after `ProcessExchangeRates`. */
  predicate NonZeroRates(rates: map<string, real>) {
    forall c :: c in rates ==> rates[c] != 0.0
  }

  /**
   * With USD quoted at 1 (the API's base currency), the three cases agree with
   * the plain quotient of the two USD rates.
   */
  lemma CrossRateIsQuotient(rates: map<string, real>, from: string, to: string)
    requires "USD" in rates && rates["USD"] == 1.0
    requires from in rates && to in rates && rates[from] != 0.0
    ensures CalculateCrossRate(rates, from, to) == Rate(rates[to] / rates[from])
  {
  }

  /** The cross-rate from `a` to `b` and the one from `b` to `a` are reciprocal. */
  lemma CrossRateReciprocal(rates: map<string, real>, a: string, b: string)
    requires NonZeroRates(rates) && a in rates && b in rates && a != b
    ensures CalculateCrossRate(rates, a, b).Rate? && CalculateCrossRate(rates, b, a).Rate?
    ensures CalculateCrossRate(rates, a, b).value * CalculateCrossRate(rates, b, a).value == 1.0
  {
    var ra, rb := rates[a], rates[b];
    if a == "USD" {
      assert rb * (1.0 / rb) == 1.0;
    } else if b == "USD" {
      assert (1.0 / ra) * ra == 1.0;
    } else {
      assert (rb / ra) * (ra / rb) == 1.0;
    }
  }

  /** On a table of non-zero rates the cross-rate is a non-zero rate whenever both currencies are known. */
  lemma CrossRateNonZero(rates: map<string, real>, from: string, to: string)
    requires NonZeroRates(rates) && from in rates && to in rates
    ensures CalculateCrossRate(rates, from, to).Rate?
    ensures CalculateCrossRate(rates, from, to).value != 0.0
  {
    var r := CalculateCrossRate(rates, from, to);
    if from != "USD" && to != "USD" {
      assert rates[to] / rates[from] != 0.0 by {
        if rates[to] / rates[from] == 0.0 {
          assert rates[to] == (rates[to] / rates[from]) * rates[from];
        }
      }
    }
  }

  /**
   * The cross-rate table `main` builds from `pairs`, in pair order: pairs with
   * a non-zero cross-rate are stored; a `ZeroDivisionError` ends the run (`None`).
   */
  function CrossRateTable(rates: map<string, real>, pairs: seq<(string, string)>): Option<Dict.Dict<(string, string), real>> {
    if pairs == [] then Some([])
    else
      match CrossRateTable(rates, pairs[..|pairs| - 1])
      case None => None
      case Some(table) =>
        var (from, to) := pairs[|pairs| - 1];
        match CalculateCrossRate(rates, from, to)
        case DivisionByZero => None
        case Missing => Some(table)
        case Rate(r) => if r != 0.0 then Some(Dict.Set(table, (from, to), r)) else Some(table)
  }

  /** The cross-rate loop of `main`. */
  method CrossRates(rates: map<string, real>, pairs: seq<(string, string)>)
    returns (table: Option<Dict.Dict<(string, string), real>>)
    ensures table == CrossRateTable(rates, pairs)
  {
    var crossRates: Dict.Dict<(string, string), real> := [];
    for i := 0 to |pairs|
      invariant CrossRateTable(rates, pairs[..i]) == Some(crossRates)
    {
      assert pairs[..i + 1][..i] == pairs[..i];
      var (from, to) := pairs[i];
      var rate := CalculateCrossRate(rates, from, to);
      if rate.DivisionByZero? {
        PrefixFailure(rates, pairs, i + 1);
        return None;
      }
      if rate.Rate? && rate.value != 0.0 {
        crossRates := Dict.Set(crossRates, (from, to), rate.value);
      }
    }
    assert pairs[..|pairs|] == pairs;
    table := Some(crossRates);
  }

  /** Once a prefix of the pairs raises, so does the whole loop. */
  lemma {:induction false} PrefixFailure(rates: map<string, real>, pairs: seq<(string, string)>, n: nat)
    requires n <= |pairs| && CrossRateTable(rates, pairs[..n]).None?
    ensures CrossRateTable(rates, pairs).None?
    decreases |pairs| - n
  {
    if n < |pairs| {
      assert pairs[..n + 1][..n] == pairs[..n];
      PrefixFailure(rates, pairs, n + 1);
    } else {
      assert pairs[..n] == pairs;
    }
  }

  /**
   * On a table of non-zero rates the loop never raises, and a pair is stored
   * exactly when both of its currencies are in the table, with its cross-rate.
   */
  lemma {:induction false} CrossRateTableContents(rates: map<string, real>, pairs: seq<(string, string)>, p: (string, string))
    requires NonZeroRates(rates)
    ensures CrossRateTable(rates, pairs).Some?
    ensures Dict.HasKey(CrossRateTable(rates, pairs).value, p) <==> p in pairs && p.0 in rates && p.1 in rates
    ensures Dict.HasKey(CrossRateTable(rates, pairs).value, p) ==>
              Dict.Get(CrossRateTable(rates, pairs).value, p) == Some(CalculateCrossRate(rates, p.0, p.1).value)
  {
    if pairs != [] {
      var init := pairs[..|pairs| - 1];
      CrossRateTableContents(rates, init, p);
      var (from, to) := pairs[|pairs| - 1];
      var table := CrossRateTable(rates, init).value;
      assert pairs == init + [(from, to)];
      if from in rates && to in rates {
        CrossRateNonZero(rates, from, to);
        Dict.GetSet(table, (from, to), CalculateCrossRate(rates, from, to).value, p);
      }
    }
  }

  /**
   * `main` after the fetch: the requested rates are filtered and the three
   * cross-rates computed; with all three currencies quoted (USD at 1), the
   * table holds CAD to BRL, USD to BRL and USD to CAD in that order.
   */
  method CrossRatesOfResponse(data: map<string, real>) returns (table: Option<Dict.Dict<(string, string), real>>)
    ensures table.Some?
    ensures UsableRate(data, "USD") && UsableRate(data, "CAD") && UsableRate(data, "BRL") ==>
              table.value == [(("CAD", "BRL"), data["BRL"] / data["CAD"]),
                              (("USD", "BRL"), data["BRL"]),
                              (("USD", "CAD"), data["CAD"])]
  {
    var rates := ProcessExchangeRates(data, Currencies);
    NonZeroProcessed(data, rates);
    table := CrossRates(rates, CurrencyPairs);
    CrossRateTableContents(rates, CurrencyPairs, ("USD", "USD"));
    if UsableRate(data, "USD") && UsableRate(data, "CAD") && UsableRate(data, "BRL") {
      assert "USD" in Currencies && "CAD" in Currencies && "BRL" in Currencies;
      ThreePairTable(rates);
    }
  }

  /** The table of the three configured pairs when all three currencies are quoted. */
  lemma ThreePairTable(rates: map<string, real>)
    requires NonZeroRates(rates) && "USD" in rates && "CAD" in rates && "BRL" in rates
    ensures CrossRateTable(rates, CurrencyPairs) ==
              Some([(("CAD", "BRL"), rates["BRL"] / rates["CAD"]),
                    (("USD", "BRL"), rates["BRL"]),
                    (("USD", "CAD"), rates["CAD"])])
  {
    var pairs := CurrencyPairs;
    var r1, r2, r3 := rates["BRL"] / rates["CAD"], rates["BRL"], rates["CAD"];
    CrossRateNonZero(rates, "CAD", "BRL");
    CrossRateNonZero(rates, "USD", "BRL");
    CrossRateNonZero(rates, "USD", "CAD");
    assert pairs[..0] == [];
    TableStoresRate(rates, pairs, 0, r1);
    Dict.SetNewKey([], ("CAD", "BRL"), r1);
    var t1 := [(("CAD", "BRL"), r1)];
    assert CrossRateTable(rates, pairs[..1]) == Some(t1);
    TableStoresRate(rates, pairs, 1, r2);
    assert Dict.Keys(t1) == [("CAD", "BRL")];
    Dict.SetNewKey(t1, ("USD", "BRL"), r2);
    var t2 := t1 + [(("USD", "BRL"), r2)];
    assert CrossRateTable(rates, pairs[..2]) == Some(t2);
    TableStoresRate(rates, pairs, 2, r3);
    assert Dict.Keys(t2) == [("CAD", "BRL"), ("USD", "BRL")];
    Dict.SetNewKey(t2, ("USD", "CAD"), r3);
    assert pairs[..3] == pairs;
    assert t2 + [(("USD", "CAD"), r3)] == [(("CAD", "BRL"), r1), (("USD", "BRL"), r2), (("USD", "CAD"), r3)];
  }

  /** A pair with a non-zero cross-rate is stored after the pairs before it. */
  lemma TableStoresRate(rates: map<string, real>, pairs: seq<(string, string)>, n: nat, r: real)
    requires n < |pairs| && CrossRateTable(rates, pairs[..n]).Some?
    requires CalculateCrossRate(rates, pairs[n].0, pairs[n].1) == Rate(r) && r != 0.0
    ensures CrossRateTable(rates, pairs[..n + 1]) == Some(Dict.Set(CrossRateTable(rates, pairs[..n]).value, pairs[n], r))
  {
    assert pairs[..n + 1][..n] == pairs[..n];
  }

  /** The filtered rates are non-zero. */
  lemma NonZeroProcessed(data: map<string, real>, rates: map<string, real>)
    requires forall c :: c in rates ==> UsableRate(data, c) && rates[c] == data[c]
    ensures NonZeroRates(rates)
  {
  }

  // ---------------------------------------------------------------------------
  // save_json_response
  // ---------------------------------------------------------------------------

  /** `f"{from_currency}_to_{to_currency}"`. */
  function PairName(from: string, to: string): string {
    from + "_to_" + to
  }

  /** Currency codes without `_` (ISO codes) give distinct names to distinct pairs. */
  lemma PairNameInjective(a: string, b: string, c: string, d: string)
    requires '_' !in a && '_' !in b && '_' !in c && '_' !in d
    ensures PairName(a, b) == PairName(c, d) ==> a == c && b == d
  {
    if PairName(a, b) != PairName(c, d) {
      return;
    }
    var s := PairName(a, b);
    assert s[|a|] == '_' && s[|c|] == '_';
    assert a == s[..|a|] && c == s[..|c|];
    assert b == s[|a| + 4..] && d == s[|c| + 4..];
  }

  /** One `cross_rates` entry: the pair's name and its rate. */
  function CrossRateEntry(entry: ((string, string), real)): (Key, Json) {
    (Name(PairName(entry.0.0, entry.0.1)), Float(entry.1))
  }

  /** The entries of the dict comprehension, one per cross-rate, in order. */
  function CrossRateEntries(table: Dict.Dict<(string, string), real>): (ps: seq<(Key, Json)>)
    ensures |ps| == |table|
    ensures forall i :: 0 <= i < |table| ==> ps[i] == CrossRateEntry(table[i])
  {
    if table == [] then [] else CrossRateEntries(table[..|table| - 1]) + [CrossRateEntry(table[|table| - 1])]
  }

  /** The `cross_rates` object built by the dict comprehension over the table. */
  function CrossRatesObject(table: Dict.Dict<(string, string), real>): Json {
    Obj(Dict.FromPairs(CrossRateEntries(table)))
  }

  /** With ISO-style codes, the `cross_rates` object lists the table's pairs in order, by name. */
  lemma CrossRatesObjectEntries(table: Dict.Dict<(string, string), real>)
    requires Dict.DistinctKeys(table)
    requires forall i :: 0 <= i < |table| ==> '_' !in table[i].0.0 && '_' !in table[i].0.1
    ensures CrossRatesObject(table).fields == CrossRateEntries(table)
  {
    var ps := CrossRateEntries(table);
    forall i, j | 0 <= i < j < |ps| ensures ps[i].0 != ps[j].0 {
      PairNameInjective(table[i].0.0, table[i].0.1, table[j].0.0, table[j].0.1);
    }
    Dict.FromDistinctPairs(ps);
  }

  /** The response document `save_json_response` writes out (the file write itself is not modelled). */
  class ResponseDocument {
    var fields: Dict.Dict<Key, Json>

    constructor (fields: Dict.Dict<Key, Json>)
      ensures this.fields == fields
    {
      this.fields := fields;
    }

    /** `data['cross_rates'] = {...}`: the one key is set, every other entry stays as it was. */
    method SaveJsonResponse(table: Dict.Dict<(string, string), real>)
      modifies this
      ensures fields == Dict.Set(old(fields), Name("cross_rates"), CrossRatesObject(table))
      ensures Dict.Get(fields, Name("cross_rates")) == Some(CrossRatesObject(table))
      ensures forall k :: k != Name("cross_rates") ==> Dict.Get(fields, k) == Dict.Get(old(fields), k)
      ensures Dict.Keys(fields) == if Dict.HasKey(old(fields), Name("cross_rates")) then Dict.Keys(old(fields))
                                   else Dict.Keys(old(fields)) + [Name("cross_rates")]
    {
      var crossRates := CrossRatesObject(table);
      forall k ensures Dict.Get(Dict.Set(fields, Name("cross_rates"), crossRates), k) ==
                       (if k == Name("cross_rates") then Some(crossRates) else Dict.Get(fields, k)) {
        Dict.GetSet(fields, Name("cross_rates"), crossRates, k);
      }
      fields := Dict.Set(fields, Name("cross_rates"), crossRates);
    }
  }
}
