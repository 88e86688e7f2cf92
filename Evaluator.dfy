/** The evaluator (evaluator.py): ground-truth and prediction parsing into
    theme sets, per-review set metrics and their aggregation over a batch.
    `ast.literal_eval` is an oracle giving the kind of literal parsed. */
module Evaluator {
  import opened Wrappers
  import opened Json
  import opened Text

  // ---------------------------------------------------------------------
  // Ground truth

  /** What `ast.literal_eval` makes of a `ProcessedCode` text: a set, list or
      tuple literal of theme names, any other literal, or a `ValueError` /
      `SyntaxError`. */
  datatype Literal =
    | SetLit(elements: set<string>)
    | ListLit(items: seq<string>)
    | TupleLit(items: seq<string>)
    | OtherLit
    | ParseError

  /** The theme set a literal stands for: a set as it is, the elements of a
      list or tuple, and nothing for anything else or a parse error. */
  function LiteralThemes(l: Literal): (r: set<string>)
    ensures l.SetLit? ==> r == l.elements
    ensures l.ListLit? || l.TupleLit? ==> forall x :: x in r <==> x in l.items
    ensures l.OtherLit? || l.ParseError? ==> r == {}
  {
    match l
    case SetLit(elements) => elements
    case ListLit(items) => set x | x in items
    case TupleLit(items) => set x | x in items
    case _ => {}
  }

  /** `parse_ground_truth`: a missing (NaN) or empty code gives the empty set
      without being parsed; otherwise the parsed literal's themes, and the
      empty set instead of an exception on a parse error. */
  function ParseGroundTruth(code: Option<string>, literalEval: string -> Literal): set<string>
  {
    if code.None? || code.value == "" then {} else LiteralThemes(literalEval(code.value))
  }

  /** A missing or empty code is never handed to the parser: the result is
      empty whatever the parser would say. */
  lemma MissingGroundTruthIsEmpty(code: Option<string>, eval1: string -> Literal, eval2: string -> Literal)
    requires code.None? || code == Some("")
    ensures ParseGroundTruth(code, eval1) == ParseGroundTruth(code, eval2) == {}
  {
  }

  /** For any other code the result is what the literal stands for: never an
      exception, the empty set for a parse error or a non-collection. */
  lemma ParsedGroundTruth(code: string, literalEval: string -> Literal)
    requires code != ""
    ensures var r := ParseGroundTruth(Some(code), literalEval);
      match literalEval(code)
      case SetLit(s) => r == s
      case ListLit(xs) => forall x :: x in r <==> x in xs
      case TupleLit(xs) => forall x :: x in r <==> x in xs
      case OtherLit => r == {}
      case ParseError => r == {}
  {
  }

  /** The set of a sequence's elements has at most as many members as the
      sequence has items: duplicates collapse. */
  lemma {:induction false} ElementsAtMostLength(xs: seq<string>)
    ensures |set x | x in xs| <= |xs|
  {
    if xs != [] {
      var rest := xs[..|xs| - 1];
      ElementsAtMostLength(rest);
      assert (set x | x in xs) == (set x | x in rest) + {xs[|xs| - 1]};
    }
  }

  /** A list, a tuple and a set of the same names give the same ground
      truth, with at most as many themes as the list has items. */
  lemma CollectionsAgree(xs: seq<string>)
    ensures LiteralThemes(ListLit(xs)) == LiteralThemes(TupleLit(xs)) ==
            LiteralThemes(SetLit(set x | x in xs))
    ensures |LiteralThemes(ListLit(xs))| <= |xs|
  {
    ElementsAtMostLength(xs);
  }

  // ---------------------------------------------------------------------
  // Predicted themes

  /** A theme name as the evaluator keeps it: stripped, non-empty and not
      the `"unknown"` sentinel in any letter case. */
  predicate IsThemeName(n: string)
  {
    n != "" && Strip(n) == n && Lower(n) != "unknown"
  }

  /** What the loop of `parse_llm_themes` does with one entry. */
  datatype Pick = Keep(name: string) | Skip | Raise

  /** A dict with a `"theme"` key contributes its stripped name unless that
      is empty or `"unknown"`; a theme value that is not a string has no
      `strip` and raises; anything else is skipped. */
  function PickOf(item: Value): Pick
  {
    if HasKey(item, "theme") then
      match item.fields["theme"]
      case Str(s) =>
        var name := Strip(s);
        if name != "" && Lower(name) != "unknown" then Keep(name) else Skip
      case _ => Raise
    else Skip
  }

  /** The exceptions `parse_llm_themes` lets through. */
  datatype ThemesError = ThemesNotIterable | ThemeNotString

  /** Every kept name is a theme name. */
  lemma KeptIsThemeName(item: Value)
    ensures PickOf(item).Keep? ==> IsThemeName(PickOf(item).name)
  {
    if PickOf(item).Keep? {
      StripIdempotent(item.fields["theme"].s);
    }
  }

  /** The decision for each entry of a list, in order. */
  function PicksOf(items: seq<Value>): (ps: seq<Pick>)
    ensures |ps| == |items|
    ensures forall i :: 0 <= i < |items| ==> ps[i] == PickOf(items[i])
  {
    if items == [] then [] else PicksOf(items[..|items| - 1]) + [PickOf(items[|items| - 1])]
  }

  /** The names the decisions keep, in a set, or the exception of the first
      entry that raises. */
  function Gather(ps: seq<Pick>): Result<set<string>, ThemesError>
  {
    if ps == [] then Success({})
    else
      var before := Gather(ps[..|ps| - 1]);
      if before.Failure? then before
      else
        match ps[|ps| - 1]
        case Keep(name) => Success(before.value + {name})
        case Skip => before
        case Raise => Failure(ThemeNotString)
  }

  /** The names kept from a list of entries, or the exception raised. */
  function NamesOf(items: seq<Value>): Result<set<string>, ThemesError>
  {
    Gather(PicksOf(items))
  }

  /** What `parse_llm_themes(llm_result)` gives: the empty set when the input
      is not a dict or has no `"themes"`, and when `"themes"` is a dict or a
      string (whose keys or characters are not dicts). */
  function LlmThemes(llmResult: Value): Result<set<string>, ThemesError>
  {
    if !HasKey(llmResult, "themes") then Success({})
    else
      match llmResult.fields["themes"]
      case List(items) => NamesOf(items)
      case Dict(_) => Success({})
      case Str(_) => Success({})
      case _ => Failure(ThemesNotIterable)
  }

  /** Gathering one more decision. */
  lemma GatherSnoc(ps: seq<Pick>, p: Pick)
    ensures Gather(ps + [p]) ==
      if Gather(ps).Failure? then Gather(ps)
      else match p
        case Keep(name) => Success(Gather(ps).value + {name})
        case Skip => Gather(ps)
        case Raise => Failure(ThemeNotString)
  {
    assert (ps + [p])[..|ps|] == ps;
  }

  /** The gathered decisions raise exactly when one of them is a raise. */
  lemma {:induction false} GatherRaisesIff(ps: seq<Pick>)
    ensures Gather(ps).Failure? <==> Raise in ps
  {
    if ps != [] {
      var n := |ps| - 1;
      GatherRaisesIff(ps[..n]);
      assert ps == ps[..n] + [ps[n]];
    }
  }

  /** The gathered names are exactly the names kept by some decision. */
  lemma {:induction false} GatherKeepsExactly(ps: seq<Pick>, name: string)
    requires Gather(ps).Success?
    ensures name in Gather(ps).value <==> Keep(name) in ps
  {
    if ps != [] {
      var n := |ps| - 1;
      GatherKeepsExactly(ps[..n], name);
      assert ps == ps[..n] + [ps[n]];
    }
  }

  /** A list of entries raises exactly when one of its entries does;
      otherwise a name is in the result exactly when some entry keeps it,
      and every name in it is a theme name. */
  lemma NamesOfExactly(items: seq<Value>, name: string)
    ensures NamesOf(items).Failure? <==> Raise in PicksOf(items)
    ensures NamesOf(items).Success? ==>
      (name in NamesOf(items).value <==> Keep(name) in PicksOf(items))
    ensures NamesOf(items).Success? && name in NamesOf(items).value ==> IsThemeName(name)
  {
    GatherRaisesIff(PicksOf(items));
    if NamesOf(items).Success? {
      GatherKeepsExactly(PicksOf(items), name);
      if Keep(name) in PicksOf(items) {
        var i :| 0 <= i < |items| && PicksOf(items)[i] == Keep(name);
        KeptIsThemeName(items[i]);
      }
    }
  }

  /** One more entry of a list: its decision is gathered after those of the
      entries before it. */
  lemma NamesSnoc(items: seq<Value>, j: nat)
    requires j < |items|
    ensures NamesOf(items[..j + 1]) ==
      if NamesOf(items[..j]).Failure? then NamesOf(items[..j])
      else match PickOf(items[j])
        case Keep(name) => Success(NamesOf(items[..j]).value + {name})
        case Skip => NamesOf(items[..j])
        case Raise => Failure(ThemeNotString)
  {
    assert items[..j + 1][..j] == items[..j];
    assert PicksOf(items[..j + 1]) == PicksOf(items[..j]) + [PickOf(items[j])];
    GatherSnoc(PicksOf(items[..j]), PickOf(items[j]));
  }

  /** Once an entry has raised, the later entries change nothing. */
  lemma {:induction false} RaiseIsFinal(items: seq<Value>, j: nat)
    requires j <= |items| && NamesOf(items[..j]) == Failure(ThemeNotString)
    ensures NamesOf(items) == Failure(ThemeNotString)
    decreases |items| - j
  {
    if j < |items| {
      NamesSnoc(items, j);
      RaiseIsFinal(items, j + 1);
    } else {
      assert items[..j] == items;
    }
  }

  /** The example `{"themes": [{"theme": "Unknown"}, {"theme": " staffing "}]}`
      gives `{"staffing"}`: the sentinel is dropped in any case and names are
      stripped. */
  lemma SentinelDroppedAndNamesStripped()
    ensures LlmThemes(Dict(map["themes" := List([Dict(map["theme" := Str("Unknown")]),
                                                  Dict(map["theme" := Str(" staffing ")])])]))
            == Success({"staffing"})
  {
    var unknown, staffing := Dict(map["theme" := Str("Unknown")]), Dict(map["theme" := Str(" staffing ")]);
    UnknownIsSkipped();
    StaffingIsKept();
    SkippedThenKept(unknown, staffing, "staffing");
  }

  /** A skipped entry followed by a kept one gives just the kept name. */
  lemma SkippedThenKept(a: Value, b: Value, name: string)
    requires PickOf(a) == Skip && PickOf(b) == Keep(name)
    ensures NamesOf([a, b]) == Success({name})
  {
    assert [a, b][..1] == [a];
    assert [a][..0] == [];
    assert PicksOf([a]) == [Skip];
    assert PicksOf([a, b]) == [Skip] + [Keep(name)];
    GatherSnoc([], Skip);
    assert [] + [Skip] == [Skip];
    assert Gather([Skip]) == Success({});
    GatherSnoc([Skip], Keep(name));
    assert {} + {name} == {name};
  }

  /** A word padded with one space on each side strips back to the word. */
  lemma StripPadded(w: string)
    requires w != [] && !IsSpace(w[0]) && !IsSpace(w[|w| - 1])
    ensures Strip(" " + w + " ") == w
  {
    var padded := " " + w + " ";
    assert padded[1..] == w + " ";
    assert StripStart(padded) == w + " ";
    assert (w + " ")[..|w|] == w;
    assert StripEnd(w + " ") == w;
  }

  lemma UnknownIsSkipped()
    ensures PickOf(Dict(map["theme" := Str("Unknown")])) == Skip
  {
    assert StripStart("Unknown") == "Unknown";
    assert StripEnd("Unknown") == "Unknown";
    assert Lower("Unknown") == "unknown";
  }

  lemma StaffingIsKept()
    ensures PickOf(Dict(map["theme" := Str(" staffing ")])) == Keep("staffing")
  {
    assert " staffing " == " " + "staffing" + " ";
    PaddedNameIsKept("staffing");
  }

  /** A theme name padded with one space on each side is kept, stripped. */
  lemma PaddedNameIsKept(w: string)
    requires w != [] && !IsSpace(w[0]) && !IsSpace(w[|w| - 1]) && Lower(w) != "unknown"
    ensures PickOf(Dict(map["theme" := Str(" " + w + " ")])) == Keep(w)
  {
    StripPadded(w);
  }

  /** `parse_llm_themes`: walks the entries of `llm_result["themes"]`,
      adding each kept name. */
  method ParseLlmThemes(llmResult: Value) returns (r: Result<set<string>, ThemesError>)
    ensures r == LlmThemes(llmResult)
  {
    var themes: set<string> := {};
    if !(llmResult.Dict? && "themes" in llmResult.fields) {
      return Success(themes);
    }
    var entries := llmResult.fields["themes"];
    if entries.Dict? || entries.Str? {
      return Success(themes);
    }
    if !entries.List? {
      return Failure(ThemesNotIterable);
    }
    r := KeptNames(entries.items);
  }

  /** The loop of `parse_llm_themes` over the entries of a list. */
  method KeptNames(items: seq<Value>) returns (r: Result<set<string>, ThemesError>)
    ensures r == NamesOf(items)
  {
    var themes: set<string> := {};
    var i := 0;
    while i < |items|
      invariant 0 <= i <= |items|
      invariant NamesOf(items[..i]) == Success(themes)
    {
      var item := items[i];
      NamesSnoc(items, i);
      if item.Dict? && "theme" in item.fields {
        var theme := item.fields["theme"];
        if !theme.Str? {
          RaiseIsFinal(items, i + 1);
          return Failure(ThemeNotString);
        }
        var name := Strip(theme.s);
        if name != "" && Lower(name) != "unknown" {
          themes := themes + {name};
        }
      }
      i := i + 1;
    }
    assert items[..i] == items;
    r := Success(themes);
  }

  // ---------------------------------------------------------------------
  // Per-review metrics

  /** The dict `calculate_metrics` returns. */
  datatype ReviewMetrics = ReviewMetrics(
    identifiedCount: nat,
    novelCount: nat,
    totalGroundTruth: nat,
    totalPredicted: nat,
    identifiedThemes: set<string>,
    novelThemes: set<string>,
    missedThemes: set<string>)

  /** A set splits into the part it shares with another set and the rest. */
  lemma SplitCardinality(a: set<string>, b: set<string>)
    ensures |a * b| + |a - b| == |a|
  {
    assert a == (a * b) + (a - b);
    assert (a * b) !! (a - b);
  }

  /** `calculate_metrics(G, P)`: identified = G∩P, novel = P−G and
      missed = G−P. The identified themes and the missed ones make up G, the
      identified and the novel ones make up P, so the counts add up to the
      two totals. */
  function CalculateMetrics(g: set<string>, p: set<string>): (m: ReviewMetrics)
    ensures m.identifiedThemes == g * p && m.novelThemes == p - g && m.missedThemes == g - p
    ensures m.identifiedThemes + m.missedThemes == g && m.identifiedThemes !! m.missedThemes
    ensures m.identifiedThemes + m.novelThemes == p && m.identifiedThemes !! m.novelThemes
    ensures m.identifiedThemes <= g && m.identifiedThemes <= p
    ensures m.identifiedCount == |m.identifiedThemes| && m.novelCount == |m.novelThemes|
    ensures m.totalGroundTruth == |g| && m.totalPredicted == |p|
    ensures m.identifiedCount + |m.missedThemes| == m.totalGroundTruth
    ensures m.identifiedCount + m.novelCount == m.totalPredicted
  {
    var identified := g * p;
    var novel := p - g;
    SplitCardinality(g, p);
    SplitCardinality(p, g);
    assert p * g == identified;
    ReviewMetrics(|identified|, |novel|, |g|, |p|, identified, novel, g - p)
  }

  // ---------------------------------------------------------------------
  // Aggregation

  /** `evaluate_predictions` raises `ValueError` on lists of different length. */
  datatype EvalError = LengthMismatch

  /** The dict `evaluate_predictions` returns. */
  datatype Aggregate = Aggregate(
    themeIdentificationRate: real,
    novelThemesPercentage: real,
    totalReviews: nat,
    totalGroundTruthThemes: nat,
    totalPredictedThemes: nat,
    totalIdentified: nat,
    totalNovel: nat,
    averageThemesPerReview: real)

  /** The sums of the per-review metrics over a batch. */
  datatype Totals = Totals(groundTruth: nat, predicted: nat, identified: nat, novel: nat)

  /** The totals over the first `|gts|` reviews. */
  function SumMetrics(gts: seq<set<string>>, preds: seq<set<string>>): Totals
    requires |gts| == |preds|
  {
    if gts == [] then Totals(0, 0, 0, 0)
    else
      var n := |gts| - 1;
      Add(SumMetrics(gts[..n], preds[..n]), CalculateMetrics(gts[n], preds[n]))
  }

  /** The totals with one more review's metrics added. */
  function Add(t: Totals, m: ReviewMetrics): Totals
  {
    Totals(t.groundTruth + m.totalGroundTruth, t.predicted + m.totalPredicted,
           t.identified + m.identifiedCount, t.novel + m.novelCount)
  }

  /** Summing one more review. */
  lemma SumSnoc(gts: seq<set<string>>, preds: seq<set<string>>, i: nat)
    requires |gts| == |preds| && i < |gts|
    ensures SumMetrics(gts[..i + 1], preds[..i + 1]) ==
            Add(SumMetrics(gts[..i], preds[..i]), CalculateMetrics(gts[i], preds[i]))
  {
    assert gts[..i + 1][..i] == gts[..i] && preds[..i + 1][..i] == preds[..i];
  }

  /** Over a batch, every predicted theme was counted as identified or novel,
      and no more themes were identified than the ground truth holds. */
  lemma {:induction false} TotalsBalance(gts: seq<set<string>>, preds: seq<set<string>>)
    requires |gts| == |preds|
    ensures var t := SumMetrics(gts, preds);
      t.identified + t.novel == t.predicted && t.identified <= t.groundTruth
  {
    if gts != [] {
      var n := |gts| - 1;
      TotalsBalance(gts[..n], preds[..n]);
    }
  }

  /** `count / total * 100`, or 0 when the total is 0. */
  function Percentage(count: nat, total: nat): (r: real)
    ensures total == 0 ==> r == 0.0
    ensures total > 0 ==> r * total as real == count as real * 100.0
    ensures count <= total ==> 0.0 <= r <= 100.0
  {
    if total > 0 then count as real / total as real * 100.0 else 0.0
  }

  /** `total / n`, or 0 when there is nothing to average over. */
  function Average(total: nat, n: nat): (r: real)
    ensures n == 0 ==> r == 0.0
    ensures n > 0 ==> r * n as real == total as real
  {
    if n > 0 then total as real / n as real else 0.0
  }

  /** The dict `evaluate_predictions` builds from the totals of `n` reviews: each
      rate is a percentage of its denominator, 0 when that is 0, and the
      average is over the number of reviews. */
  function Summary(t: Totals, n: nat): (a: Aggregate)
    ensures a.totalReviews == n
    ensures a.totalGroundTruthThemes == t.groundTruth && a.totalPredictedThemes == t.predicted
    ensures a.totalIdentified == t.identified && a.totalNovel == t.novel
    ensures t.groundTruth == 0 ==> a.themeIdentificationRate == 0.0
    ensures t.groundTruth > 0 ==>
              a.themeIdentificationRate * t.groundTruth as real == t.identified as real * 100.0
    ensures t.predicted == 0 ==> a.novelThemesPercentage == 0.0
    ensures t.predicted > 0 ==>
              a.novelThemesPercentage * t.predicted as real == t.novel as real * 100.0
    ensures n == 0 ==> a.averageThemesPerReview == 0.0
    ensures n > 0 ==> a.averageThemesPerReview * n as real == t.predicted as real
    ensures t.identified <= t.groundTruth ==> 0.0 <= a.themeIdentificationRate <= 100.0
    ensures t.novel <= t.predicted ==> 0.0 <= a.novelThemesPercentage <= 100.0
  {
    Aggregate(Percentage(t.identified, t.groundTruth), Percentage(t.novel, t.predicted),
              n, t.groundTruth, t.predicted, t.identified, t.novel, Average(t.predicted, n))
  }

  /** Over any batch both rates are percentages between 0 and 100, and the
      identified and novel themes add up to the predicted ones. */
  lemma RatesArePercentages(gts: seq<set<string>>, preds: seq<set<string>>)
    requires |gts| == |preds|
    ensures var a := Summary(SumMetrics(gts, preds), |gts|);
      0.0 <= a.themeIdentificationRate <= 100.0 && 0.0 <= a.novelThemesPercentage <= 100.0 &&
      a.totalIdentified + a.totalNovel == a.totalPredictedThemes
  {
    TotalsBalance(gts, preds);
  }

  /** `evaluate_predictions`: checks the lengths, sums the per-review metrics,
      then derives the two percentages and the average number of predicted
      themes per review. */
  method EvaluatePredictions(gts: seq<set<string>>, preds: seq<set<string>>)
    returns (r: Result<Aggregate, EvalError>)
    ensures |gts| != |preds| <==> r == Failure(LengthMismatch)
    ensures r.Success? ==> r.value == Summary(SumMetrics(gts, preds), |gts|)
  {
    if |gts| != |preds| {
      return Failure(LengthMismatch);
    }
    var totals := SumTotals(gts, preds);
    r := Success(Summary(totals, |preds|));
  }

  /** The loop of `evaluate_predictions`: the running totals of the metrics of
      each (ground truth, prediction) pair. */
  method SumTotals(gts: seq<set<string>>, preds: seq<set<string>>) returns (t: Totals)
    requires |gts| == |preds|
    ensures t == SumMetrics(gts, preds)
  {
    var groundTruth: nat, predicted: nat, identified: nat, novel: nat := 0, 0, 0, 0;
    var i := 0;
    while i < |gts|
      invariant 0 <= i <= |gts|
      invariant SumMetrics(gts[..i], preds[..i]) == Totals(groundTruth, predicted, identified, novel)
    {
      var m := CalculateMetrics(gts[i], preds[i]);
      SumSnoc(gts, preds, i);
      groundTruth := groundTruth + m.totalGroundTruth;
      predicted := predicted + m.totalPredicted;
      identified := identified + m.identifiedCount;
      novel := novel + m.novelCount;
      i := i + 1;
    }
    assert gts[..i] == gts && preds[..i] == preds;
    t := Totals(groundTruth, predicted, identified, novel);
  }
}
