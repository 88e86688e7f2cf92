/** The orchestrator (`ThemeCategorizationPipeline` in pipeline.py): it turns
    each review into a prompt, asks the LLM client for themes and keeps four
    run counters. The client is an oracle from prompt to outcome; the pauses
    between reviews are recorded in a ghost log instead of slept. */
module Pipeline {
  import opened LlmClients
  import opened PromptEngineer
  import opened Settings

  /** The `self.metrics` dict. */
  datatype RunMetrics = RunMetrics(
    totalReviews: nat,
    successfulExtractions: nat,
    failedExtractions: nat,
    totalThemesExtracted: nat)

  const ZeroMetrics: RunMetrics := RunMetrics(0, 0, 0, 0)

  /** Every review seen was counted as exactly one success or failure. */
  predicate Balanced(m: RunMetrics)
  {
    m.totalReviews == m.successfulExtractions + m.failedExtractions
  }

  /** What `llm_client.extract_themes(prompt)` does: return a result or raise. */
  datatype ClientOutcome = Returns(result: Extraction) | Raises

  /** What `process_review` hands back for a client outcome: the client's
      result unchanged, or `{"themes": []}` when it raised. */
  function ResultOf(o: ClientOutcome): Extraction
  {
    if o.Returns? then o.result else EmptyResult
  }

  /** The client outcomes for a batch of reviews, prompted with one
      template and one vocabulary. */
  function Outcomes(client: string -> ClientOutcome, t: Template, themes: seq<string>, reviews: seq<string>)
    : (os: seq<ClientOutcome>)
    ensures |os| == |reviews|
  {
    if reviews == [] then []
    else Outcomes(client, t, themes, reviews[..|reviews| - 1]) + [client(Fill(t, themes, reviews[|reviews| - 1]))]
  }

  /** The results a batch hands back, one per outcome, in order. */
  function Results(outcomes: seq<ClientOutcome>): (rs: seq<Extraction>)
    ensures |rs| == |outcomes|
    ensures forall i :: 0 <= i < |outcomes| ==> rs[i] == ResultOf(outcomes[i])
  {
    seq(|outcomes|, i requires 0 <= i < |outcomes| => ResultOf(outcomes[i]))
  }

  lemma OutcomesSnoc(client: string -> ClientOutcome, t: Template, themes: seq<string>, reviews: seq<string>, i: nat)
    requires i < |reviews|
    ensures Outcomes(client, t, themes, reviews[..i + 1]) ==
            Outcomes(client, t, themes, reviews[..i]) + [client(Fill(t, themes, reviews[i]))]
  {
    assert reviews[..i + 1][..i] == reviews[..i];
  }

  /** One more review extends the results by its result and the counters by
      its bookkeeping. */
  lemma BatchSnoc(m: RunMetrics, outcomes: seq<ClientOutcome>, o: ClientOutcome)
    ensures TallyAll(m, outcomes + [o]) == Tally(TallyAll(m, outcomes), o).metrics
    ensures Results(outcomes + [o]) == Results(outcomes) + [ResultOf(o)]
  {
    assert (outcomes + [o])[..|outcomes|] == outcomes;
  }

  /** The counters after one review and the result handed back. */
  datatype Step = Step(metrics: RunMetrics, result: Extraction)

  /** The bookkeeping of one `process_review` call, given the client outcome:
      a non-empty theme list is a success adding its length, an empty one or
      a raise is a failure, and a raise is answered with `{"themes": []}`. */
  function Tally(m: RunMetrics, o: ClientOutcome): (s: Step)
    ensures s.metrics.totalReviews == m.totalReviews + 1
    ensures s.metrics.successfulExtractions + s.metrics.failedExtractions ==
            m.successfulExtractions + m.failedExtractions + 1
    ensures s.metrics.successfulExtractions ==
            m.successfulExtractions + (if o.Returns? && o.result.themes != [] then 1 else 0)
    ensures s.metrics.failedExtractions ==
            m.failedExtractions + (if o.Returns? && o.result.themes != [] then 0 else 1)
    ensures s.metrics.totalThemesExtracted ==
            m.totalThemesExtracted + (if o.Returns? then |o.result.themes| else 0)
    ensures s.result == ResultOf(o)
  {
    var counted := m.(totalReviews := m.totalReviews + 1);
    match o
    case Raises =>
      Step(counted.(failedExtractions := counted.failedExtractions + 1), EmptyResult)
    case Returns(result) =>
      if |result.themes| > 0 then
        Step(counted.(successfulExtractions := counted.successfulExtractions + 1,
                      totalThemesExtracted := counted.totalThemesExtracted + |result.themes|),
             result)
      else Step(counted.(failedExtractions := counted.failedExtractions + 1), result)
  }

  /** The counters after a run of reviews with these client outcomes. */
  function TallyAll(m: RunMetrics, outcomes: seq<ClientOutcome>): RunMetrics
  {
    if outcomes == [] then m
    else Tally(TallyAll(m, outcomes[..|outcomes| - 1]), outcomes[|outcomes| - 1]).metrics
  }

  /** The number of outcomes that count as successes. */
  function Successes(outcomes: seq<ClientOutcome>): nat
  {
    if outcomes == [] then 0
    else
      var o := outcomes[|outcomes| - 1];
      Successes(outcomes[..|outcomes| - 1]) + (if o.Returns? && o.result.themes != [] then 1 else 0)
  }

  /** A run of `n` reviews adds `n` to the review count, adds one success per
      outcome with themes and one failure per other outcome, and so keeps the
      counters balanced. */
  lemma {:induction false} TallyAllCounts(m: RunMetrics, outcomes: seq<ClientOutcome>)
    ensures var m' := TallyAll(m, outcomes);
      m'.totalReviews == m.totalReviews + |outcomes| &&
      m'.successfulExtractions == m.successfulExtractions + Successes(outcomes) &&
      m'.failedExtractions == m.failedExtractions + |outcomes| - Successes(outcomes) &&
      Successes(outcomes) <= |outcomes| &&
      (Balanced(m) ==> Balanced(m'))
  {
    if outcomes != [] {
      TallyAllCounts(m, outcomes[..|outcomes| - 1]);
    }
  }

  /** The batch of three reviews where the client gives one theme, then no
      theme, then raises: three reviews, one success, two failures, one
      theme. */
  lemma OneThemeNoThemeRaises(entry: ThemeEntry)
    ensures TallyAll(ZeroMetrics, [Returns(Extraction([entry])), Returns(EmptyResult), Raises]) ==
            RunMetrics(3, 1, 2, 1)
  {
    var os := [Returns(Extraction([entry])), Returns(EmptyResult), Raises];
    assert os[..1][..0] == [];
    assert TallyAll(ZeroMetrics, os[..1]) == RunMetrics(1, 1, 0, 1);
    assert os[..2][..1] == os[..1];
    assert TallyAll(ZeroMetrics, os[..2]) == RunMetrics(2, 1, 1, 1);
    assert os[..3] == os;
  }

  /** The pause log of a batch of `n` reviews: one pause of `delay` seconds
      after every review, the last included, when rate limiting is on and the
      delay is positive; none otherwise. */
  function Pauses(n: nat, rateLimit: bool, delay: real): (p: seq<real>)
    ensures |p| == if rateLimit && delay > 0.0 then n else 0
    ensures forall i :: 0 <= i < |p| ==> p[i] == delay
  {
    if rateLimit && delay > 0.0 then seq(n, _ => delay) else []
  }

  lemma PausesSnoc(n: nat, rateLimit: bool, delay: real)
    ensures Pauses(n + 1, rateLimit, delay) ==
            Pauses(n, rateLimit, delay) + (if rateLimit && delay > 0.0 then [delay] else [])
  {
  }

  /** The counters as `get_metrics` reports them, with the two ratios. */
  datatype Snapshot = Snapshot(
    totalReviews: nat,
    successfulExtractions: nat,
    failedExtractions: nat,
    totalThemesExtracted: nat,
    successRate: real,
    avgThemesPerReview: real)

  class ThemeCategorizationPipeline {
    const client: string -> ClientOutcome
    const promptEngineer: ThemeCategorizationPrompt
    const settings: Settings
    var metrics: RunMetrics
    /** The `time.sleep` calls made so far, in seconds. */
    ghost var sleeps: seq<real>

    predicate Valid()
      reads this
    {
      Balanced(metrics)
    }

    constructor (client: string -> ClientOutcome, promptEngineer: ThemeCategorizationPrompt,
                 settings: Settings)
      ensures this.client == client && this.promptEngineer == promptEngineer
      ensures this.settings == settings
      ensures metrics == ZeroMetrics && sleeps == []
      ensures Valid()
    {
      this.client := client;
      this.promptEngineer := promptEngineer;
      this.settings := settings;
      metrics := ZeroMetrics;
      sleeps := [];
    }

    /** `process_review`: counts the review first, then builds the prompt,
        calls the client and counts a success or a failure. */
    method ProcessReview(review: string) returns (result: Extraction)
      requires Valid()
      modifies this
      ensures Valid()
      ensures Step(metrics, result) ==
              Tally(old(metrics), client(Fill(promptEngineer.template, promptEngineer.themes.items, review)))
      ensures sleeps == old(sleeps)
    {
      metrics := metrics.(totalReviews := metrics.totalReviews + 1);
      var prompt := promptEngineer.CreatePrompt(review);
      var outcome := client(prompt);
      if outcome.Raises? {
        metrics := metrics.(failedExtractions := metrics.failedExtractions + 1);
        return EmptyResult;
      }
      result := outcome.result;
      if |result.themes| > 0 {
        metrics := metrics.(successfulExtractions := metrics.successfulExtractions + 1);
        metrics := metrics.(totalThemesExtracted := metrics.totalThemesExtracted + |result.themes|);
      } else {
        metrics := metrics.(failedExtractions := metrics.failedExtractions + 1);
      }
    }

    /** `process_batch`: one result per review, in order, each the result of
        `process_review` on that review; `showProgress` changes nothing. */
    method ProcessBatch(reviews: seq<string>, showProgress: bool, rateLimit: bool)
      returns (results: seq<Extraction>)
      requires Valid()
      modifies this
      ensures Valid()
      ensures |results| == |reviews|
      ensures results == Results(Outcomes(client, promptEngineer.template, promptEngineer.themes.items, reviews))
      ensures metrics == TallyAll(old(metrics), Outcomes(client, promptEngineer.template, promptEngineer.themes.items, reviews))
      ensures sleeps == old(sleeps) + Pauses(|reviews|, rateLimit, settings.rateLimitDelay)
    {
      ghost var themes := promptEngineer.themes.items;
      results := [];
      var i := 0;
      while i < |reviews|
        invariant 0 <= i <= |reviews|
        invariant Valid()
        invariant promptEngineer.themes.items == themes
        invariant results == Results(Outcomes(client, promptEngineer.template, themes, reviews[..i]))
        invariant metrics == TallyAll(old(metrics), Outcomes(client, promptEngineer.template, themes, reviews[..i]))
        invariant sleeps == old(sleeps) + Pauses(i, rateLimit, settings.rateLimitDelay)
      {
        ghost var before := metrics;
        var result := ProcessReview(reviews[i]);
        ghost var o := client(Fill(promptEngineer.template, themes, reviews[i]));
        assert Step(metrics, result) == Tally(before, o);
        OutcomesSnoc(client, promptEngineer.template, themes, reviews, i);
        BatchSnoc(old(metrics), Outcomes(client, promptEngineer.template, themes, reviews[..i]), o);
        results := results + [result];
        PausesSnoc(i, rateLimit, settings.rateLimitDelay);
        if rateLimit && settings.rateLimitDelay > 0.0 {
          sleeps := sleeps + [settings.rateLimitDelay];
        }
        i := i + 1;
      }
      assert reviews[..i] == reviews;
    }

    /** `get_metrics`: the counters unchanged, the share of successful
        reviews (0 before any review) and the themes per successful review
        (0 before any success). */
    function GetMetrics(): (snap: Snapshot)
      reads this
      ensures snap.totalReviews == metrics.totalReviews
      ensures snap.successfulExtractions == metrics.successfulExtractions
      ensures snap.failedExtractions == metrics.failedExtractions
      ensures snap.totalThemesExtracted == metrics.totalThemesExtracted
      ensures metrics.totalReviews == 0 ==> snap.successRate == 0.0
      ensures metrics.totalReviews > 0 ==>
                snap.successRate * metrics.totalReviews as real == metrics.successfulExtractions as real
      ensures Valid() ==> 0.0 <= snap.successRate <= 1.0
      ensures metrics.successfulExtractions == 0 ==> snap.avgThemesPerReview == 0.0
      ensures metrics.successfulExtractions > 0 ==>
                snap.avgThemesPerReview * metrics.successfulExtractions as real ==
                metrics.totalThemesExtracted as real
    {
      var m := metrics;
      var rate := if m.totalReviews > 0 then m.successfulExtractions as real / m.totalReviews as real else 0.0;
      var avg := if m.successfulExtractions > 0
                 then m.totalThemesExtracted as real / m.successfulExtractions as real else 0.0;
      Snapshot(m.totalReviews, m.successfulExtractions, m.failedExtractions, m.totalThemesExtracted,
               rate, avg)
    }

    /** `reset_metrics`: all four counters back to zero. */
    method ResetMetrics()
      modifies this
      ensures metrics == ZeroMetrics && Valid()
      ensures sleeps == old(sleeps)
    {
      metrics := ZeroMetrics;
    }
  }
}
