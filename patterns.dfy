/**
 * The pattern classifier: an ordered list of rules (expresion, tipo_dato, xls)
 * tried in order against a value; the first rule whose expression matches
 * decides the value's data type and its export format key.
 *
 * The regular-expression engine is not modelled: a `Catalog` carries the rule
 * list together with the matching relation `matches(expresion, valor)`, which
 * stands for `preg_match(expresion, valor) !== 0` (an invalid pattern, for
 * which preg_match returns false, is a non-match).
 */
module Patterns {
  import opened Wrappers
  import opened Php

  /** One entry of the `regex` list of the configuration. */
  datatype Rule = Rule(expresion: string, tipoDato: StrOrFalse, xls: StrOrFalse)

  /** Whether an expression matches a value. */
  type Matcher = (string, string) -> bool

  /** The rule list loaded once from configuration, with the engine that runs it. */
  datatype Catalog = Catalog(rules: seq<Rule>, matches: Matcher)

  /**
   * The properties of the `data` object the classifier returns; `None` is a
   * property that was never assigned.
   */
  datatype MatchData = MatchData(tipoDato: Option<StrOrFalse>, xls: Option<StrOrFalse>)

  /** What `data` holds before any value has matched. */
  const NoData := MatchData(None, None)

  /** None of the first `n` rules matches `valor`. */
  predicate NoMatchBefore(rules: seq<Rule>, matches: Matcher, valor: string, n: nat)
    requires n <= |rules|
  {
    forall j :: 0 <= j < n ==> !matches(rules[j].expresion, valor)
  }

  /** The position of the first rule whose expression matches `valor`, if any. */
  function FirstMatch(rules: seq<Rule>, matches: Matcher, valor: string): (r: Option<nat>)
    ensures r.Some? ==> r.value < |rules| && matches(rules[r.value].expresion, valor)
    ensures r.Some? ==> NoMatchBefore(rules, matches, valor, r.value)
    ensures r.None? <==> NoMatchBefore(rules, matches, valor, |rules|)
  {
    if |rules| == 0 then None
    else if matches(rules[0].expresion, valor) then Some(0)
    else
      match FirstMatch(rules[1..], matches, valor)
      case None => None
      case Some(k) => Some(k + 1)
  }

  /**
   * The (tipo_dato, tipo_xls) pair a classification leaves behind: the fields
   * of the first matching rule, or (false, false) when no rule matches.
   */
  function Classification(cat: Catalog, valor: string): (StrOrFalse, StrOrFalse)
  {
    match FirstMatch(cat.rules, cat.matches, valor)
    case Some(k) => (cat.rules[k].tipoDato, cat.rules[k].xls)
    case None => (False, False)
  }

  /** The first matching rule decides, whatever the rules after it say. */
  lemma ClassificationIsFirstMatch(cat: Catalog, valor: string, k: nat)
    requires k < |cat.rules| && cat.matches(cat.rules[k].expresion, valor)
    requires forall j :: 0 <= j < k ==> !cat.matches(cat.rules[j].expresion, valor)
    ensures FirstMatch(cat.rules, cat.matches, valor) == Some(k)
    ensures Classification(cat, valor) == (cat.rules[k].tipoDato, cat.rules[k].xls)
  {
  }

  /** With no matching rule, both results are false. */
  lemma ClassificationNoMatch(cat: Catalog, valor: string)
    requires forall j :: 0 <= j < |cat.rules| ==> !cat.matches(cat.rules[j].expresion, valor)
    ensures Classification(cat, valor) == (False, False)
  {
  }

  /**
   * Scanning a concatenation of rule lists: the first list decides if one of
   * its rules matches, otherwise the second list decides, its positions
   * shifted past the first.
   */
  lemma {:induction false} FirstMatchAppend(a: seq<Rule>, b: seq<Rule>, matches: Matcher, valor: string)
    ensures FirstMatch(a + b, matches, valor) ==
      match FirstMatch(a, matches, valor)
      case Some(k) => Some(k)
      case None =>
        match FirstMatch(b, matches, valor)
        case Some(k) => Some(|a| + k)
        case None => None
  {
    if a == [] {
      assert a + b == b;
    } else {
      assert (a + b)[0] == a[0];
      assert (a + b)[1..] == a[1..] + b;
      FirstMatchAppend(a[1..], b, matches, valor);
    }
  }

  /**
   * The rules after the first match are never consulted: replacing them by
   * any other rules leaves the classification as it is.
   */
  lemma RulesAfterMatchIrrelevant(cat: Catalog, valor: string, k: nat, rest: seq<Rule>)
    requires FirstMatch(cat.rules, cat.matches, valor) == Some(k)
    ensures Classification(Catalog(cat.rules[..k + 1] + rest, cat.matches), valor) == Classification(cat, valor)
  {
    var prefix := cat.rules[..k + 1];
    ClassificationIsFirstMatch(Catalog(prefix, cat.matches), valor, k);
    FirstMatchAppend(prefix, rest, cat.matches, valor);
  }

  /**
   * The classifier object. `patterns` is the rule list, `matches` the regular
   * expression engine; `tipoDato`, `tipoXls` and `data` are the fields each
   * call of Data sets. The ghost field `probed` counts the rules tested by
   * the latest call.
   */
  class Patterns {
    const patterns: seq<Rule>
    const matches: Matcher
    var tipoDato: StrOrFalse
    var tipoXls: StrOrFalse
    var data: MatchData
    ghost var probed: nat

    /** Loads the rule list, creates an empty `data` object and classifies `valor`. */
    constructor (patterns: seq<Rule>, matches: Matcher, valor: string)
      ensures this.patterns == patterns && this.matches == matches
      ensures (tipoDato, tipoXls) == Classification(Catalog(patterns, matches), valor)
      ensures data == match FirstMatch(patterns, matches, valor)
        case Some(k) => MatchData(Some(patterns[k].tipoDato), Some(patterns[k].xls))
        case None => NoData
    {
      this.patterns := patterns;
      this.matches := matches;
      tipoDato := False;
      tipoXls := False;
      data := NoData;
      probed := 0;
      new;
      var _ := Data(valor);
    }

    /**
     * Resets `tipoDato` and `tipoXls` to false, then walks the rules in order
     * and stops at the first whose expression matches `valor`, copying its
     * tipo_dato and xls into the fields and into `data`. With no match `data`
     * keeps whatever an earlier call put there.
     */
    method Data(valor: string) returns (r: MatchData)
      modifies this`tipoDato, this`tipoXls, this`data, this`probed
      ensures (tipoDato, tipoXls) == Classification(Catalog(patterns, matches), valor)
      ensures r == data
      ensures match FirstMatch(patterns, matches, valor)
        case Some(k) =>
          && data == MatchData(Some(patterns[k].tipoDato), Some(patterns[k].xls))
          && probed == k + 1
        case None => data == old(data) && probed == |patterns|
    {
      tipoDato := False;
      tipoXls := False;
      probed := 0;
      for i := 0 to |patterns|
        invariant probed == i
        invariant tipoDato == False && tipoXls == False && data == old(data)
        invariant forall j :: 0 <= j < i ==> !matches(patterns[j].expresion, valor)
      {
        var result := matches(patterns[i].expresion, valor);
        probed := probed + 1;
        if result {
          tipoDato := patterns[i].tipoDato;
          tipoXls := patterns[i].xls;
          data := data.(tipoDato := Some(tipoDato));
          data := data.(xls := Some(tipoXls));
          ClassificationIsFirstMatch(Catalog(patterns, matches), valor, i);
          break;
        }
      }
      r := data;
    }
  }
}
