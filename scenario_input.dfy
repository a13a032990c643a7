/**
 * The scenario input agent of `src/Agents/Scenario_Agents/scenario_input_agent.py`: four regular
 * expressions read market scenarios such as "interest rates rise by 2.5%" out of free text into a
 * dictionary from scenario name to action and percentage, which is then checked against the list
 * of known scenarios.
 *
 * Each pattern is `<subject> (<verb1>|<verb2>) by (\d+\.?\d*)%`. The scanner below follows
 * `re.search` literally: the leftmost position where the pattern matches, the first alternative
 * before the second, and the greedy digit runs, which never need to give anything back because a
 * digit or a point cannot stand in for the final '%'. A Python dictionary keeps insertion order,
 * so the result is a list of (key, entry) pairs with distinct keys.
 */
module ScenarioInput {
  import opened Wrappers
  import opened Text

  datatype Entry = Entry(action: string, value: real)

  datatype Pattern = Pattern(key: string, subject: string, verb1: string, verb2: string)

  /** Lines 9-14. */
  const Patterns: seq<Pattern> := [
    Pattern("interest_rate", "interest rates ", "rise", "fall"),
    Pattern("oil_price", "oil prices ", "increase", "decrease"),
    Pattern("stock_price", "stock prices ", "rise", "fall"),
    Pattern("inflation", "inflation ", "increases", "decreases")
  ]

  /** Line 59. */
  const ValidScenarios: seq<string> := ["interest_rate", "oil_price", "stock_price", "inflation"]

  /**
   * `(\d+\.?\d*)%` at position j: the numeral's value (`float(match.group(2))`) and the position of
   * the '%' that ends the match.
   */
  function PercentAt(s: string, j: nat): (r: Option<(real, nat)>)
    requires j <= |s|
    ensures r.Some? ==> j < r.value.1 < |s| && s[r.value.1] == '%'
    ensures r.Some? ==> IsDigit(s[j]) && forall k :: j <= k < r.value.1 ==> IsDigit(s[k]) || s[k] == '.'
  {
    var k := RunEnd(s, j, IsDigit);
    if k == j then None
    else
      assert AllDigits(s[j..k]);
      if k < |s| && s[k] == '.' then
        var e := RunEnd(s, k + 1, IsDigit);
        assert AllDigits(s[k + 1..e]);
        if e < |s| && s[e] == '%' then Some((DecimalValue(s[j..k], s[k + 1..e]), e)) else None
      else if k < |s| && s[k] == '%' then Some((DecimalValue(s[j..k], ""), k))
      else None
  }

  /** `<subject><verb> by ` at position i followed by a percentage. */
  function AlternativeAt(subject: string, verb: string, s: string, i: nat): (r: Option<Entry>)
    requires i <= |s|
    ensures r.Some? ==> r.value.action == verb && OccursAt(s, subject + verb + " by ", i)
  {
    var lead := subject + verb + " by ";
    if OccursAt(s, lead, i) then
      match PercentAt(s, i + |lead|)
      case Some((v, _)) => Some(Entry(verb, v))
      case None => None
    else None
  }

  /** The pattern anchored at position i, first alternative first. */
  function MatchAt(p: Pattern, s: string, i: nat): (r: Option<Entry>)
    requires i <= |s|
    ensures r.Some? ==> r.value.action in {p.verb1, p.verb2}
  {
    match AlternativeAt(p.subject, p.verb1, s, i)
    case Some(e) => Some(e)
    case None => AlternativeAt(p.subject, p.verb2, s, i)
  }

  /** `pattern.search(s)` from position `from` on: the match at the leftmost position that has one. */
  function SearchFrom(p: Pattern, s: string, from: nat): (r: Option<Entry>)
    requires from <= |s| + 1
    ensures r.Some? <==> exists i :: from <= i <= |s| && MatchAt(p, s, i).Some?
    ensures r.Some? ==> exists i :: (from <= i <= |s| && MatchAt(p, s, i) == r &&
      forall j :: from <= j < i ==> MatchAt(p, s, j).None?)
    decreases |s| + 1 - from
  {
    if from > |s| then None
    else
      match MatchAt(p, s, from)
      case Some(e) => Some(e)
      case None => SearchFrom(p, s, from + 1)
  }

  function Search(p: Pattern, s: string): Option<Entry>
  {
    SearchFrom(p, s, 0)
  }

  /** Each pattern searched in one text. */
  function Finder(s: string): Pattern -> Option<Entry>
  {
    p => Search(p, s)
  }

  /** The dictionary after the loop at lines 31-37 has run over the patterns `ps`, with `find` as the search. */
  function InterpretOver(ps: seq<Pattern>, find: Pattern -> Option<Entry>): seq<(string, Entry)>
    decreases |ps|
  {
    if |ps| == 0 then []
    else
      var last := ps[|ps| - 1];
      InterpretOver(ps[..|ps| - 1], find) +
      match find(last)
      case Some(e) => [(last.key, e)]
      case None => []
  }

  function Interpret(s: string): seq<(string, Entry)>
  {
    InterpretOver(Patterns, Finder(s))
  }

  /** `interpret_input(user_input)`. */
  method InterpretInput(userInput: string) returns (structured: seq<(string, Entry)>)
    ensures structured == Interpret(userInput)
  {
    structured := [];
    for i := 0 to |Patterns|
      invariant structured == InterpretOver(Patterns[..i], Finder(userInput))
    {
      assert Patterns[..i + 1][..i] == Patterns[..i];
      var found := Search(Patterns[i], userInput);
      assert found == Finder(userInput)(Patterns[i]);
      if found.Some? {
        structured := structured + [(Patterns[i].key, found.value)];
      }
    }
    assert Patterns[..|Patterns|] == Patterns;
  }

  function KeysOf(pairs: seq<(string, Entry)>): (keys: seq<string>)
    ensures |keys| == |pairs| && forall i :: 0 <= i < |pairs| ==> keys[i] == pairs[i].0
  {
    seq(|pairs|, i requires 0 <= i < |pairs| => pairs[i].0)
  }

  /** `d.get(key)`: the last value stored under the key. */
  function Lookup(pairs: seq<(string, Entry)>, key: string): Option<Entry>
    decreases |pairs|
  {
    if |pairs| == 0 then None
    else if pairs[|pairs| - 1].0 == key then Some(pairs[|pairs| - 1].1)
    else Lookup(pairs[..|pairs| - 1], key)
  }

  predicate DistinctKeys(ps: seq<Pattern>)
  {
    forall i, j :: 0 <= i < j < |ps| ==> ps[i].key != ps[j].key
  }

  /** No key occurs twice, as in a dictionary. */
  predicate DistinctPairs(pairs: seq<(string, Entry)>)
  {
    forall i, j :: 0 <= i < j < |pairs| ==> pairs[i].0 != pairs[j].0
  }

  /** Every key of `pairs` is the key of one of the patterns `ps`. */
  ghost predicate KeysAmong(pairs: seq<(string, Entry)>, ps: seq<Pattern>)
  {
    forall i :: 0 <= i < |pairs| ==> exists k :: 0 <= k < |ps| && pairs[i].0 == ps[k].key
  }

  /** Keys are added in pattern order, each at most once. */
  lemma {:induction false} InterpretKeysOrdered(ps: seq<Pattern>, find: Pattern -> Option<Entry>)
    ensures KeysAmong(InterpretOver(ps, find), ps)
    ensures DistinctKeys(ps) ==> DistinctPairs(InterpretOver(ps, find))
    decreases |ps|
  {
    if |ps| > 0 {
      var front := ps[..|ps| - 1];
      var last := ps[|ps| - 1];
      var a := InterpretOver(front, find);
      var b := match find(last) case Some(e) => [(last.key, e)] case None => [];
      var r := InterpretOver(ps, find);
      assert r == a + b;
      assert |b| <= 1;
      InterpretKeysOrdered(front, find);
      assert forall k :: 0 <= k < |front| ==> front[k] == ps[k];
      forall i | 0 <= i < |r|
        ensures exists k :: 0 <= k < |ps| && r[i].0 == ps[k].key
      {
        if i < |a| {
          assert r[i] == a[i];
          var k :| 0 <= k < |front| && a[i].0 == front[k].key;
          assert r[i].0 == ps[k].key;
        } else {
          assert r[i].0 == ps[|ps| - 1].key;
        }
      }
      if DistinctKeys(ps) {
        assert DistinctKeys(front);
        forall i, j | 0 <= i < j < |r|
          ensures r[i].0 != r[j].0
        {
          assert r[i] == a[i];
          if j >= |a| {
            var k :| 0 <= k < |front| && a[i].0 == front[k].key;
            assert r[j].0 == last.key && r[i].0 == ps[k].key && k < |ps| - 1;
          } else {
            assert r[j] == a[j];
          }
        }
      }
    }
  }

  /** A key absent from a list of pairs looks up to nothing. */
  lemma {:induction false} LookupAbsent(pairs: seq<(string, Entry)>, key: string)
    requires forall i :: 0 <= i < |pairs| ==> pairs[i].0 != key
    ensures Lookup(pairs, key).None?
    decreases |pairs|
  {
    if |pairs| > 0 {
      LookupAbsent(pairs[..|pairs| - 1], key);
    }
  }

  /** The last pattern's match, if any, sits under its key; every other key reads as before it. */
  lemma LookupLast(ps: seq<Pattern>, find: Pattern -> Option<Entry>, key: string)
    requires |ps| > 0
    ensures var last := ps[|ps| - 1];
      Lookup(InterpretOver(ps, find), key) ==
        if key == last.key && find(last).Some? then find(last) else Lookup(InterpretOver(ps[..|ps| - 1], find), key)
  {
    var last := ps[|ps| - 1];
    var a := InterpretOver(ps[..|ps| - 1], find);
    if find(last).Some? {
      var r := a + [(last.key, find(last).value)];
      assert InterpretOver(ps, find) == r;
      assert r[..|r| - 1] == a;
    } else {
      assert InterpretOver(ps, find) == a + [];
      assert a + [] == a;
    }
  }

  /** Under each pattern's key the result holds exactly that pattern's first match, and nothing where it has none. */
  lemma {:induction false} InterpretFindsFirstMatches(ps: seq<Pattern>, find: Pattern -> Option<Entry>, k: nat)
    requires DistinctKeys(ps) && k < |ps|
    ensures Lookup(InterpretOver(ps, find), ps[k].key) == find(ps[k])
    decreases |ps|
  {
    var front := ps[..|ps| - 1];
    var last := ps[|ps| - 1];
    LookupLast(ps, find, ps[k].key);
    if k < |ps| - 1 {
      assert front[k] == ps[k];
      assert DistinctKeys(front) by {
        assert forall j :: 0 <= j < |front| ==> front[j] == ps[j];
      }
      InterpretFindsFirstMatches(front, find, k);
      assert ps[k].key != last.key;
    } else {
      var a := InterpretOver(front, find);
      InterpretKeysOrdered(front, find);
      forall i | 0 <= i < |a|
        ensures a[i].0 != last.key
      {
        var j :| 0 <= j < |front| && a[i].0 == front[j].key;
        assert front[j] == ps[j];
      }
      LookupAbsent(a, last.key);
    }
  }

  /** The four patterns have distinct keys, so the result maps each key to its pattern's first match. */
  lemma InterpretByKey(s: string, k: nat)
    requires k < |Patterns|
    ensures Lookup(Interpret(s), Patterns[k].key) == Search(Patterns[k], s)
    ensures DistinctPairs(Interpret(s))
  {
    assert DistinctKeys(Patterns);
    InterpretFindsFirstMatches(Patterns, Finder(s), k);
    InterpretKeysOrdered(Patterns, Finder(s));
  }

  /**
   * `validate_input`: the first key that is not a known scenario is reported; an empty
   * dictionary is valid.
   */
  function ValidateInput(keys: seq<string>): (r: (bool, string))
    ensures r.0 <==> forall i :: 0 <= i < |keys| ==> keys[i] in ValidScenarios
    ensures r.0 ==> r.1 == "Valid scenario input."
    ensures !r.0 ==> exists i :: (0 <= i < |keys| && keys[i] !in ValidScenarios &&
      (forall j :: 0 <= j < i ==> keys[j] in ValidScenarios) && r.1 == "Invalid scenario detected: " + keys[i])
    decreases |keys|
  {
    if |keys| == 0 then (true, "Valid scenario input.")
    else if keys[0] !in ValidScenarios then (false, "Invalid scenario detected: " + keys[0])
    else
      var r := ValidateInput(keys[1..]);
      assert forall i :: 1 <= i < |keys| ==> keys[i] == keys[1..][i - 1];
      if !r.0 then
        var i :| 0 <= i < |keys[1..]| && keys[1..][i] !in ValidScenarios &&
          (forall j :: 0 <= j < i ==> keys[1..][j] in ValidScenarios) && r.1 == "Invalid scenario detected: " + keys[1..][i];
        assert keys[i + 1] == keys[1..][i];
        r
      else r
  }

  /** Whatever the patterns find, the keys are valid scenarios, because the pattern keys are exactly those. */
  lemma PatternKeysValid(find: Pattern -> Option<Entry>)
    ensures ValidateInput(KeysOf(InterpretOver(Patterns, find))).0
  {
    var r := InterpretOver(Patterns, find);
    InterpretKeysOrdered(Patterns, find);
    var keys := KeysOf(r);
    forall i | 0 <= i < |keys|
      ensures keys[i] in ValidScenarios
    {
      var k :| 0 <= k < |Patterns| && r[i].0 == Patterns[k].key;
      PatternKeyValid(k);
    }
  }

  lemma PatternKeyValid(k: nat)
    requires k < |Patterns|
    ensures Patterns[k].key in ValidScenarios
  {
    assert Patterns[k].key == ValidScenarios[k];
  }

  /** Whatever `interpret_input` extracts passes `validate_input`. */
  lemma InterpretValidates(s: string)
    ensures ValidateInput(KeysOf(Interpret(s))) == (true, "Valid scenario input.")
  {
    PatternKeysValid(Finder(s));
  }

  datatype Flexible = NoScenario(message: string) | Scenarios(data: seq<(string, Entry)>)

  /** `handle_flexible_scenarios`: a fixed message when nothing is recognised, the dictionary otherwise. */
  function HandleFlexibleScenarios(userInput: string): (r: Flexible)
    ensures r.NoScenario? <==> |Interpret(userInput)| == 0
    ensures r.NoScenario? ==> r.message == "No valid market scenario detected. Please check your input."
    ensures r.Scenarios? ==> r.data == Interpret(userInput)
  {
    var structured := Interpret(userInput);
    if |structured| == 0 then NoScenario("No valid market scenario detected. Please check your input.")
    else Scenarios(structured)
  }

  /** "interest rates rise by 2.5%" reads as a 2.5% rise of interest rates. */
  lemma InterestRateExample()
    ensures Search(Patterns[0], "interest rates rise by 2.5%") == Some(Entry("rise", 2.5))
  {
    var s := "interest rates rise by 2.5%";
    var lead := "interest rates " + "rise" + " by ";
    assert |lead| == 23;
    assert s[0..23] == lead;
    assert s[23..] == "2.5%";
    assert RunLength("2.5%", IsDigit) == 1 by {
      assert "2.5%"[1..] == ".5%";
      assert RunLength(".5%", IsDigit) == 0;
    }
    assert s[25..] == "5%";
    assert RunLength("5%", IsDigit) == 1 by {
      assert "5%"[1..] == "%";
      assert RunLength("%", IsDigit) == 0;
    }
    assert s[23..24] == "2" && s[25..26] == "5";
    assert DigitsValue("2") == 2 by {
      assert "2"[..0] == "";
    }
    assert DigitsValue("5") == 5 by {
      assert "5"[..0] == "";
    }
    assert PercentAt(s, 23) == Some((2.5, 26));
    assert AlternativeAt("interest rates ", "rise", s, 0) == Some(Entry("rise", 2.5));
  }
}
