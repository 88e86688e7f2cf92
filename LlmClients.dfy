/** The theme-extraction client (`HuggingFaceClient` in llm_clients.py): the
    retry loop of `extract_themes` and the response parser `_parse_response`.
    The chat-completion endpoint is an oracle giving the outcome of each
    request, `json.loads` an oracle giving the decoded value, and each
    `time.sleep` is recorded in a log of waits. */
module LlmClients {
  import opened Wrappers
  import opened Json
  import opened Text

  /** One validated entry of an extraction result. Both fields are copied
      from the decoded entry unchanged, so neither need be a string. */
  datatype ThemeEntry = ThemeEntry(theme: Value, description: Value)

  /** `{"themes": [...]}` as the client returns it. */
  datatype Extraction = Extraction(themes: seq<ThemeEntry>)

  /** `{"themes": []}`, which every failure path returns. */
  const EmptyResult: Extraction := Extraction([])

  /** What `json.loads` makes of the candidate text. A text that starts with
      `{` and decodes can only be an object, so success carries its fields. */
  datatype Decoded = DecodedObject(fields: map<string, Value>) | DecodeError

  /** `json.loads(text)` with the parser `decode` standing in for non-empty
      texts: the only other candidate, "", never decodes. */
  function Loads(decode: string -> Decoded, text: string): (d: Decoded)
    ensures text == "" ==> d == DecodeError
  {
    if text == "" then DecodeError else decode(text)
  }

  /** `_parse_response` either returns a result or raises an exception other
      than `JSONDecodeError`, which escapes to the retry loop. */
  datatype Parse = Parsed(result: Extraction) | ParseRaised

  /** The transport failures `extract_themes` tells apart; they differ only
      in what is logged. */
  datatype TransportError = Timeout | RateLimited | ApiError | OtherError

  /** The outcome of one chat-completion request: the first choice's content
      (`None` when the message has no content) or a raised failure. */
  datatype CallOutcome = Completed(content: Option<string>) | Failed(error: TransportError)

  // ---------------------------------------------------------------------
  // Response parsing

  /** The candidate JSON text: from the first `{` to the last `}` of the
      stripped content, or nothing when either brace is missing. When the
      last `}` comes before the first `{` Python's slice is "". */
  function JsonCandidate(content: string): (r: Option<string>)
    ensures r.None? <==> '{' !in Strip(content) || '}' !in Strip(content)
  {
    var s := Strip(content);
    var start := Find(s, '{');
    var endIdx := RFind(s, '}') + 1;
    if start == -1 || endIdx == 0 then None else Some(Slice(s, start, endIdx))
  }

  /** The candidate is exactly the stripped content from its first `{` to its
      last `}`, both included; it holds no `{` that precedes the first and no
      `}` that follows the last. */
  lemma CandidateIsFirstToLastBrace(content: string)
    requires JsonCandidate(content).Some?
    ensures var s, t := Strip(content), JsonCandidate(content).value;
      var i, j := Find(s, '{'), RFind(s, '}');
      0 <= i < |s| && 0 <= j < |s| && s[i] == '{' && s[j] == '}' &&
      '{' !in s[..i] && '}' !in s[j + 1..] &&
      (i <= j ==> t == s[i..j + 1] && t[0] == '{' && t[|t| - 1] == '}') &&
      (j < i ==> t == "")
  {
  }

  /** `isinstance(item, dict) and "theme" in item`, turned into the entry the
      parser appends: the theme value as it is and the description, "" when
      absent. The `"unknown"` default of `.get("theme", ...)` cannot apply,
      because the key is known to be present. */
  function EntryOf(item: Value): Option<ThemeEntry>
  {
    if HasKey(item, "theme") then
      var f := item.fields;
      Some(ThemeEntry(f["theme"], if "description" in f then f["description"] else Str("")))
    else None
  }

  /** The entries kept from a list of decoded items, in order. */
  function Validated(items: seq<Value>): seq<ThemeEntry>
  {
    if |items| == 0 then []
    else
      var e := EntryOf(items[|items| - 1]);
      Validated(items[..|items| - 1]) + (if e.Some? then [e.value] else [])
  }

  /** Validation keeps order: the entries of a concatenation are the entries
      of the first part followed by those of the second. */
  lemma {:induction false} ValidatedConcat(a: seq<Value>, b: seq<Value>)
    ensures Validated(a + b) == Validated(a) + Validated(b)
  {
    if |b| == 0 {
      assert a + b == a;
    } else {
      var b' := b[..|b| - 1];
      assert (a + b)[..|a + b| - 1] == a + b';
      ValidatedConcat(a, b');
    }
  }

  /** An item is kept, as `EntryOf` makes it, exactly when it is a dict with a
      `"theme"` key; every other item is dropped. */
  lemma ValidatedOne(x: Value)
    ensures Validated([x]) == if HasKey(x, "theme") then [EntryOf(x).value] else []
  {
    assert [x][..0] == [];
  }

  /** Iterating `parsed["themes"]`: a list yields its items; a dict yields its
      keys and a string its characters, none of them a dict, so nothing is
      kept; `None`, a bool or a number is not iterable and raises. */
  function KeptEntries(themes: Value): Option<seq<ThemeEntry>>
  {
    match themes
    case List(items) => Some(Validated(items))
    case Dict(_) => Some([])
    case Str(_) => Some([])
    case _ => None
  }

  /** What `_parse_response(content)` does, as a function of the content and
      the decoder. */
  function Parsing(content: string, decode: string -> Decoded): Parse
  {
    match JsonCandidate(content)
    case None => Parsed(EmptyResult)
    case Some(text) =>
      match Loads(decode, text)
      case DecodeError => Parsed(EmptyResult)
      case DecodedObject(fields) =>
        if "themes" !in fields then Parsed(EmptyResult)
        else
          match KeptEntries(fields["themes"])
          case None => ParseRaised
          case Some(entries) => Parsed(Extraction(entries))
  }

  /** `_parse_response`: slices out the candidate, decodes it and keeps the
      well-formed entries one by one. */
  method ParseResponse(content: string, decode: string -> Decoded) returns (p: Parse)
    ensures p == Parsing(content, decode)
  {
    var candidate := JsonCandidate(content);
    if candidate.None? {
      return Parsed(EmptyResult);
    }
    var decoded := if candidate.value == "" then DecodeError else decode(candidate.value);
    if decoded.DecodeError? || "themes" !in decoded.fields {
      return Parsed(EmptyResult);
    }
    var themes := decoded.fields["themes"];
    if !themes.List? {
      return if themes.Dict? || themes.Str? then Parsed(EmptyResult) else ParseRaised;
    }
    var items := themes.items;
    var validated: seq<ThemeEntry> := [];
    var i := 0;
    while i < |items|
      invariant 0 <= i <= |items|
      invariant validated == Validated(items[..i])
    {
      var item := items[i];
      assert items[..i + 1][..i] == items[..i];
      if item.Dict? && "theme" in item.fields {
        var description := if "description" in item.fields then item.fields["description"] else Str("");
        validated := validated + [ThemeEntry(item.fields["theme"], description)];
      }
      i := i + 1;
    }
    assert items[..i] == items;
    p := Parsed(Extraction(validated));
  }

  /** Shape failures give `{"themes": []}` without raising: no brace pair, a
      decode error, or a decoded object without `"themes"`. */
  lemma ShapeFailuresGiveEmpty(content: string, decode: string -> Decoded)
    ensures JsonCandidate(content).None? ==> Parsing(content, decode) == Parsed(EmptyResult)
    ensures JsonCandidate(content).Some? &&
            (Loads(decode, JsonCandidate(content).value).DecodeError? ||
             "themes" !in Loads(decode, JsonCandidate(content).value).fields) ==>
            Parsing(content, decode) == Parsed(EmptyResult)
  {
  }

  /** Content whose last `}` comes before its first `{` gives `{"themes": []}`
      whatever the decoder: the candidate is "", on which `json.loads` raises
      `JSONDecodeError`. */
  lemma ReversedBracesGiveEmpty(content: string, decode: string -> Decoded)
    requires '{' in Strip(content) && '}' in Strip(content)
    requires RFind(Strip(content), '}') < Find(Strip(content), '{')
    ensures JsonCandidate(content) == Some("")
    ensures Parsing(content, decode) == Parsed(EmptyResult)
  {
  }

  /** `for theme in v` raises `TypeError` for these values. */
  predicate NotIterable(v: Value)
  {
    v.Null? || v.Bool? || v.Num?
  }

  /** The parser raises exactly when the decoded `"themes"` value is not
      iterable; otherwise its result lists the kept entries. */
  lemma ParseRaisesIffThemesNotIterable(content: string, decode: string -> Decoded)
    ensures Parsing(content, decode).ParseRaised? <==>
            JsonCandidate(content).Some? &&
            Loads(decode, JsonCandidate(content).value).DecodedObject? &&
            "themes" in Loads(decode, JsonCandidate(content).value).fields &&
            NotIterable(Loads(decode, JsonCandidate(content).value).fields["themes"])
  {
  }

  /** A decoded list of items gives exactly the entries kept from it. */
  lemma ParsedListKeepsEntries(content: string, decode: string -> Decoded, items: seq<Value>)
    requires JsonCandidate(content).Some?
    requires Loads(decode, JsonCandidate(content).value).DecodedObject?
    requires "themes" in Loads(decode, JsonCandidate(content).value).fields
    requires Loads(decode, JsonCandidate(content).value).fields["themes"] == List(items)
    ensures Parsing(content, decode) == Parsed(Extraction(Validated(items)))
  {
  }

  // ---------------------------------------------------------------------
  // The retry loop

  /** What one attempt of the loop body gives: the parsed result, returned at
      once, or `None` when an exception reached one of the handlers (a failed
      request, a missing content, or a raise inside the parser). */
  function AttemptResult(o: CallOutcome, decode: string -> Decoded): Option<Extraction>
  {
    match o
    case Failed(_) => None
    case Completed(None) => None
    case Completed(Some(content)) =>
      match Parsing(content, decode)
      case Parsed(result) => Some(result)
      case ParseRaised => None
  }

  /** A run of `extract_themes`: its result, the number of requests made and
      the waits slept, in order. */
  datatype Run = Run(result: Extraction, calls: nat, waits: seq<int>)

  /** The waits after the first `n` failed attempts: 2, 4, ..., 2n seconds. */
  function Backoff(n: nat): (w: seq<int>)
    ensures |w| == n && forall i :: 0 <= i < n ==> w[i] == (i + 1) * 2
  {
    seq(n, i => (i + 1) * 2)
  }

  lemma BackoffSnoc(n: nat)
    ensures Backoff(n + 1) == Backoff(n) + [(n + 1) * 2]
  {
  }

  /** The loop from attempt `k` on, for `retries` attempts in all;
      `endpoint(prompt, k)` is the outcome of the `k`-th request for this
      prompt. After a failed attempt `k` it waits `(k+1)*2` seconds, unless
      that was the last attempt, in which case it returns `{"themes": []}`. */
  function Attempts(endpoint: (string, nat) -> CallOutcome, decode: string -> Decoded,
                    prompt: string, retries: int, k: nat): Run
    decreases retries - k
  {
    if k >= retries then Run(EmptyResult, 0, [])
    else
      match AttemptResult(endpoint(prompt, k), decode)
      case Some(result) => Run(result, 1, [])
      case None =>
        if k < retries - 1 then
          var rest := Attempts(endpoint, decode, prompt, retries, k + 1);
          Run(rest.result, rest.calls + 1, [(k + 1) * 2] + rest.waits)
        else Run(EmptyResult, 1, [])
  }

  /** A run from attempt `n` on, seen from attempt 0 after `n` failures. */
  function After(n: nat, r: Run): Run
  {
    Run(r.result, r.calls + n, Backoff(n) + r.waits)
  }

  /** One failed, non-final attempt moves the loop on by one wait. */
  lemma FailedStep(endpoint: (string, nat) -> CallOutcome, decode: string -> Decoded,
                   prompt: string, retries: int, k: nat)
    requires k < retries - 1 && AttemptResult(endpoint(prompt, k), decode).None?
    ensures After(k, Attempts(endpoint, decode, prompt, retries, k)) ==
            After(k + 1, Attempts(endpoint, decode, prompt, retries, k + 1))
  {
    var rest := Attempts(endpoint, decode, prompt, retries, k + 1);
    assert Attempts(endpoint, decode, prompt, retries, k) ==
           Run(rest.result, rest.calls + 1, [(k + 1) * 2] + rest.waits);
    ShiftWait(k, rest);
  }

  /** A run that starts with the wait after attempt `k`, seen from attempt `k`,
      is the rest of the run seen from attempt `k + 1`. */
  lemma ShiftWait(k: nat, rest: Run)
    ensures After(k, Run(rest.result, rest.calls + 1, [(k + 1) * 2] + rest.waits)) == After(k + 1, rest)
  {
    BackoffSnoc(k);
    assert Backoff(k) + ([(k + 1) * 2] + rest.waits) == Backoff(k + 1) + rest.waits;
  }

  /** `extract_themes(prompt, retries)`: returns the result, the number of
      requests made and the log of its sleeps. */
  method ExtractThemes(endpoint: (string, nat) -> CallOutcome, decode: string -> Decoded,
                       prompt: string, retries: int)
    returns (result: Extraction, calls: nat, waits: seq<int>)
    ensures Run(result, calls, waits) == Attempts(endpoint, decode, prompt, retries, 0)
  {
    calls, waits := 0, [];
    var attempt := 0;
    while attempt < retries
      invariant 0 <= attempt && (retries > 0 ==> attempt < retries)
      invariant calls == attempt && waits == Backoff(attempt)
      invariant Attempts(endpoint, decode, prompt, retries, 0) ==
                After(attempt, Attempts(endpoint, decode, prompt, retries, attempt))
      decreases retries - attempt
    {
      var outcome := endpoint(prompt, attempt);
      calls := calls + 1;
      if outcome.Completed? && outcome.content.Some? {
        var parsed := ParseResponse(outcome.content.value, decode);
        if parsed.Parsed? {
          return parsed.result, calls, waits;
        }
      }
      // A timeout, a rate limit, an API error and any other exception are
      // all handled alike.
      assert AttemptResult(outcome, decode).None?;
      if attempt < retries - 1 {
        FailedStep(endpoint, decode, prompt, retries, attempt);
        waits := waits + [(attempt + 1) * 2];
        attempt := attempt + 1;
      } else {
        return EmptyResult, calls, waits;
      }
    }
    result := EmptyResult;
  }

  // ---------------------------------------------------------------------
  // Properties of the retry policy

  /** From attempt `k` on, the loop makes at most `retries - k` requests (at
      least one if any attempt is left) and waits once after each request
      but the last, the `i`-th wait being `(k+i+1)*2` seconds. */
  lemma {:induction false} AttemptsShape(endpoint: (string, nat) -> CallOutcome, decode: string -> Decoded,
                                         prompt: string, retries: int, k: nat)
    ensures var r := Attempts(endpoint, decode, prompt, retries, k);
      r.calls <= (if retries > k then retries - k else 0) &&
      (k < retries ==> r.calls >= 1) &&
      |r.waits| == (if r.calls > 0 then r.calls - 1 else 0) &&
      forall i :: 0 <= i < |r.waits| ==> r.waits[i] == (k + i + 1) * 2
    decreases retries - k
  {
    if k < retries && AttemptResult(endpoint(prompt, k), decode).None? && k < retries - 1 {
      var rest := Attempts(endpoint, decode, prompt, retries, k + 1);
      AttemptsShape(endpoint, decode, prompt, retries, k + 1);
      var w := [(k + 1) * 2] + rest.waits;
      assert Attempts(endpoint, decode, prompt, retries, k).waits == w;
      forall i | 0 < i < |w| ensures w[i] == (k + i + 1) * 2 {
        assert w[i] == rest.waits[i - 1];
      }
    }
  }

  /** `extract_themes` makes at most `retries` requests, none when
      `retries <= 0` (then returning `{"themes": []}`), and its waits are
      2, 4, ... seconds, one fewer than the requests: none after the last. */
  lemma AtMostRetriesRequests(endpoint: (string, nat) -> CallOutcome, decode: string -> Decoded,
                              prompt: string, retries: int)
    ensures var r := Attempts(endpoint, decode, prompt, retries, 0);
      r.calls <= (if retries > 0 then retries else 0) &&
      (retries <= 0 ==> r == Run(EmptyResult, 0, [])) &&
      (r.calls > 0 ==> r.waits == Backoff(r.calls - 1))
  {
    AttemptsShape(endpoint, decode, prompt, retries, 0);
    var r := Attempts(endpoint, decode, prompt, retries, 0);
    if r.calls > 0 {
      assert r.waits == Backoff(r.calls - 1);
    }
  }

  /** The first attempt whose request and parse both complete ends the loop
      with its result, even an empty one, after `n` failed attempts and
      their `n` waits. */
  lemma {:induction false} FirstCompletedAttemptWins(endpoint: (string, nat) -> CallOutcome,
                                                     decode: string -> Decoded,
                                                     prompt: string, retries: int, n: nat)
    requires n < retries
    requires forall j :: 0 <= j < n ==> AttemptResult(endpoint(prompt, j), decode).None?
    requires AttemptResult(endpoint(prompt, n), decode).Some?
    ensures Attempts(endpoint, decode, prompt, retries, 0) ==
            Run(AttemptResult(endpoint(prompt, n), decode).value, n + 1, Backoff(n))
  {
    var k := 0;
    while k < n
      invariant 0 <= k <= n
      invariant Attempts(endpoint, decode, prompt, retries, 0) ==
                After(k, Attempts(endpoint, decode, prompt, retries, k))
    {
      FailedStep(endpoint, decode, prompt, retries, k);
      k := k + 1;
    }
    assert Backoff(n) + [] == Backoff(n);
  }

  /** When every one of the `retries` attempts fails, the result is
      `{"themes": []}` after `retries` requests and `retries - 1` waits. */
  lemma AllAttemptsFail(endpoint: (string, nat) -> CallOutcome, decode: string -> Decoded,
                        prompt: string, retries: int)
    requires retries > 0
    requires forall j :: 0 <= j < retries ==> AttemptResult(endpoint(prompt, j), decode).None?
    ensures Attempts(endpoint, decode, prompt, retries, 0) ==
            Run(EmptyResult, retries, Backoff(retries - 1))
  {
    var k := 0;
    while k < retries - 1
      invariant 0 <= k <= retries - 1
      invariant Attempts(endpoint, decode, prompt, retries, 0) ==
                After(k, Attempts(endpoint, decode, prompt, retries, k))
    {
      FailedStep(endpoint, decode, prompt, retries, k);
      k := k + 1;
    }
    assert Backoff(k) + [] == Backoff(k);
  }

  /** Two outcomes that differ at most in which transport failure occurred. */
  predicate SameUpToFailureKind(a: CallOutcome, b: CallOutcome)
  {
    a == b || (a.Failed? && b.Failed?)
  }

  /** Timeouts, rate limits, API errors and other exceptions are retried,
      waited for and reported alike: the run does not depend on which of
      them occurred. */
  lemma {:induction false} FailureKindIrrelevant(e1: (string, nat) -> CallOutcome,
                                                 e2: (string, nat) -> CallOutcome,
                                                 decode: string -> Decoded,
                                                 prompt: string, retries: int, k: nat)
    requires forall j: nat :: SameUpToFailureKind(e1(prompt, j), e2(prompt, j))
    ensures Attempts(e1, decode, prompt, retries, k) == Attempts(e2, decode, prompt, retries, k)
    decreases retries - k
  {
    if k < retries {
      assert SameUpToFailureKind(e1(prompt, k), e2(prompt, k));
      assert AttemptResult(e1(prompt, k), decode) == AttemptResult(e2(prompt, k), decode);
      if k < retries - 1 {
        FailureKindIrrelevant(e1, e2, decode, prompt, retries, k + 1);
      }
    }
  }

  /** Two transport failures and then a completed attempt, with three
      attempts allowed (the default) or more: the third result is returned
      after waits of 2 and 4 seconds. */
  lemma RetriedTwiceThenCompleted(endpoint: (string, nat) -> CallOutcome, decode: string -> Decoded,
                                  prompt: string, retries: int)
    requires retries >= 3
    requires endpoint(prompt, 0).Failed? && endpoint(prompt, 1).Failed?
    requires AttemptResult(endpoint(prompt, 2), decode).Some?
    ensures Attempts(endpoint, decode, prompt, retries, 0) ==
            Run(AttemptResult(endpoint(prompt, 2), decode).value, 3, [2, 4])
  {
    forall j | 0 <= j < 2 ensures AttemptResult(endpoint(prompt, j), decode).None? {
      assert endpoint(prompt, j).Failed?;
    }
    FirstCompletedAttemptWins(endpoint, decode, prompt, retries, 2);
    var b := Backoff(2);
    assert |b| == 2 && b[0] == 2 && b[1] == 4;
    assert b == [2, 4];
  }

  /** A first response whose braces are reversed is not retried either: one
      request, no wait, `{"themes": []}`. */
  lemma ReversedBracesAreNotRetried(endpoint: (string, nat) -> CallOutcome, decode: string -> Decoded,
                                    prompt: string, retries: int, content: string)
    requires retries >= 1
    requires endpoint(prompt, 0) == Completed(Some(content))
    requires '{' in Strip(content) && '}' in Strip(content)
    requires RFind(Strip(content), '}') < Find(Strip(content), '{')
    ensures Attempts(endpoint, decode, prompt, retries, 0) == Run(EmptyResult, 1, [])
  {
    ReversedBracesGiveEmpty(content, decode);
  }

  /** A response with braces that does not decode is not retried: one
      request, no wait, `{"themes": []}`. */
  lemma UndecodableIsNotRetried(endpoint: (string, nat) -> CallOutcome, decode: string -> Decoded,
                                prompt: string, retries: int, content: string)
    requires retries >= 1
    requires endpoint(prompt, 0) == Completed(Some(content))
    requires JsonCandidate(content).Some? && Loads(decode, JsonCandidate(content).value) == DecodeError
    ensures Attempts(endpoint, decode, prompt, retries, 0) == Run(EmptyResult, 1, [])
  {
  }
}
