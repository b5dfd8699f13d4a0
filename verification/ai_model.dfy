/**
 * The AI model page (components/AIModelPage.tsx): one image-generation
 * request driven through at most five attempts, with rate-limit detection,
 * a provider retry hint or exponential back-off, and a progress message
 * before every sleep.
 *
 * The provider is a script: entry `k` of it says what attempt `k` produced
 * (a response, or a thrown error whose message is abstracted to what
 * `JSON.parse` would find in it) and which two `Math.random()` draws the
 * attempt would use, as bounded integer milliseconds of jitter.
 */
module AIModel {
  import opened Types
  import opened Ascii
  import opened Catalog

  const MaxRetries: nat := 5

  /** The messages the loading screen cycles through. */
  const LoadingMessages: seq<string> := [
    "Warming up the AI studio...",
    "Designing your personalized model...",
    "Generating a high-resolution image...",
    "Adding the final touches..."
  ]

  const FailureMessage: string :=
    "Failed to generate the model after multiple attempts. The AI might be busy. Please try again later."

  const ResourceExhausted: string := "RESOURCE_EXHAUSTED"
  const RetryInfoType: string := "type.googleapis.com/google.rpc.RetryInfo"

  /** The data URL header of the generated image (RFC 2397, section 3). */
  const ImagePrefix: string := "data:image/png;base64,"

  // ------------------------------------------------------------ the provider

  /** A content part; `inlineData` holds the base64 image when present. */
  datatype Part = Part(inlineData: Option<string>)
  datatype Content = Content(parts: Option<seq<Part>>)
  datatype Candidate = Candidate(content: Option<Content>)
  datatype Response = Response(candidates: Option<seq<Candidate>>)

  /** One entry of `error.details` in a JSON error body. */
  datatype Detail = Detail(typeUrl: Option<string>, retryDelay: Option<string>)
  datatype ApiError = ApiError(status: Option<string>, details: Option<seq<Detail>>)

  /**
   * What `JSON.parse(err.message)` yields: no JSON value at all (this also
   * stands for a message that is not a string), or a value whose `error`
   * member may be missing.
   */
  datatype ErrorPayload = NotJson | Json(error: Option<ApiError>)

  datatype Outcome = Responded(response: Response) | Raised(payload: ErrorPayload)

  type BackoffJitter = j: int | 0 <= j < 1000
  type HintJitter = j: int | 0 <= j < 500

  /** What the provider and `Math.random()` contribute to one attempt. */
  datatype Attempt = Attempt(outcome: Outcome, backoffJitter: BackoffJitter, hintJitter: HintJitter)

  type MessageIndex = i: nat | i < 4

  /**
   * What the loading screen shows: one of the rotating loading messages, or
   * the retry notice written before a sleep. `Text` spells it out.
   */
  datatype Progress = Rotating(index: MessageIndex) | Retrying(ms: int, attempt: nat)

  /** A sleep between attempts, with the progress shown during it. */
  datatype Sleep = Sleep(progress: Progress, ms: int)

  // ------------------------------------------------------ one attempt's parts

  /** `response.candidates?.[0]?.content?.parts || []`. */
  function PartsOf(r: Response): (ps: seq<Part>)
    ensures r.candidates.None? || r.candidates.value == [] ==> ps == []
  {
    match r.candidates
    case None => []
    case Some(cs) =>
      if cs == [] then []
      else match cs[0].content
        case None => []
        case Some(c) => match c.parts case None => [] case Some(ps) => ps
  }

  /** The data of the first part that has `inlineData`. */
  function FirstInlineData(ps: seq<Part>): (r: Option<string>)
    ensures r.None? <==> forall i :: 0 <= i < |ps| ==> ps[i].inlineData.None?
  {
    if ps == [] then None
    else if ps[0].inlineData.Some? then ps[0].inlineData
    else FirstInlineData(ps[1..])
  }

  /** The part `FirstInlineData` picks is the first one with `inlineData`; later parts are ignored. */
  lemma {:induction false} FirstInlineDataIsFirst(ps: seq<Part>, i: nat)
    requires i < |ps| && ps[i].inlineData.Some?
    requires forall j :: 0 <= j < i ==> ps[j].inlineData.None?
    ensures FirstInlineData(ps) == ps[i].inlineData
  {
    if i > 0 {
      FirstInlineDataIsFirst(ps[1..], i - 1);
    }
  }

  /** The image data an attempt produced, if any: only a response can carry one. */
  function ImageOf(o: Outcome): Option<string> {
    match o
    case Responded(r) => FirstInlineData(PartsOf(r))
    case Raised(_) => None
  }

  /** `data:image/png;base64,${data}`. */
  function ImageUrl(data: string): (url: string)
    ensures StartsWith(url, ImagePrefix) && url[|ImagePrefix|..] == data
  {
    ImagePrefix + data
  }

  /**
   * The error the catch block sees. A response without an image is turned
   * into `new Error("Image generation succeeded but no image data was
   * returned.")`, whose message is not JSON.
   */
  function FailurePayload(o: Outcome): ErrorPayload {
    match o
    case Responded(_) => NotJson
    case Raised(p) => p
  }

  /** `errorJson?.error?.status === 'RESOURCE_EXHAUSTED'`. */
  predicate IsRateLimited(p: ErrorPayload) {
    p.Json? && p.error.Some? && p.error.value.status == Some(ResourceExhausted)
  }

  /** `details?.find(d => d['@type'] === RetryInfo)`: the first RetryInfo detail. */
  function FindRetryInfo(ds: seq<Detail>): (r: Option<Detail>)
    ensures r.Some? ==> r.value in ds && r.value.typeUrl == Some(RetryInfoType)
    ensures r.None? ==> forall d :: d in ds ==> d.typeUrl != Some(RetryInfoType)
  {
    if ds == [] then None
    else if ds[0].typeUrl == Some(RetryInfoType) then Some(ds[0])
    else FindRetryInfo(ds[1..])
  }

  /** Like `find`, the lookup returns the first RetryInfo detail, so a later one's delay is never used. */
  lemma {:induction false} FindRetryInfoIsFirst(ds: seq<Detail>, i: nat)
    requires i < |ds| && ds[i].typeUrl == Some(RetryInfoType)
    requires forall j :: 0 <= j < i ==> ds[j].typeUrl != Some(RetryInfoType)
    ensures FindRetryInfo(ds) == Some(ds[i])
  {
    if i > 0 {
      var rest := ds[1..];
      forall j | 0 <= j < i - 1
        ensures rest[j].typeUrl != Some(RetryInfoType)
      {
        assert rest[j] == ds[j + 1];
      }
      FindRetryInfoIsFirst(rest, i - 1);
    }
  }

  /** `retryInfo?.retryDelay`, when it is a non-empty (truthy) string. */
  function RetryHint(e: ApiError): Option<string> {
    match e.details
    case None => None
    case Some(ds) =>
      match FindRetryInfo(ds)
      case None => None
      case Some(d) => if d.retryDelay.Some? && d.retryDelay.value != "" then d.retryDelay else None
    }

  /** `parseInt(retryDelay.replace('s', ''), 10)`, `None` for no hint or `NaN`. */
  function HintSeconds(p: ErrorPayload): Option<int> {
    if p.Json? && p.error.Some? && RetryHint(p.error.value).Some? then
      ParseInt(RemoveFirst(RetryHint(p.error.value).value, 's'))
    else None
  }

  function Pow2(n: nat): (r: nat)
    ensures r >= 1
  {
    if n == 0 then 1 else 2 * Pow2(n - 1)
  }

  /** The exponential back-off base of attempt `k`: 2000·2^k ms. */
  function Backoff(k: nat): nat {
    2000 * Pow2(k)
  }

  /**
   * The delay chosen after a failed attempt `k`: the hinted seconds plus up to
   * half a second of jitter for a rate-limit error whose hint parses, the
   * back-off plus up to a second of jitter otherwise.
   */
  function Delay(a: Attempt, k: nat): int {
    var p := FailurePayload(a.outcome);
    if IsRateLimited(p) && HintSeconds(p).Some? then HintSeconds(p).value * 1000 + a.hintJitter
    else Backoff(k) + a.backoffJitter
  }

  /** `Math.ceil(ms / 1000)`. */
  function CeilSeconds(ms: int): (s: int)
    ensures (s - 1) * 1000 < ms <= s * 1000
  {
    (ms + 999) / 1000
  }

  /** The progress message shown while sleeping after attempt `k`. */
  function RetryMessage(ms: int, k: nat): string {
    RetryLead + IntToString(CeilSeconds(ms)) + AttemptTail(k)
  }

  const RetryLead: string := "AI is busy. Retrying in "

  /** The part of the retry message after the seconds, naming the next attempt. */
  function AttemptTail(k: nat): string {
    "s... (Attempt " + IntToString(k + 2) + "/" + IntToString(MaxRetries) + ")"
  }

  /** What one attempt leads to: the image's data URL, a retry after a delay, or giving up. */
  datatype Step = Success(url: string) | Retry(ms: int) | GiveUp

  /**
   * Attempt `k`'s step: an image ends the request; a rate-limit error with
   * attempts left retries after `Delay`; any other failure gives up.
   */
  function StepOf(a: Attempt, k: nat): Step {
    match ImageOf(a.outcome)
    case Some(data) => Success(ImageUrl(data))
    case None =>
      if IsRateLimited(FailurePayload(a.outcome)) && k < MaxRetries - 1 then Retry(Delay(a, k)) else GiveUp
  }

  /** The sleep after attempt `k`, announced by its retry message. */
  function Announce(ms: int, k: nat): Sleep {
    Sleep(Retrying(ms, k), ms)
  }

  /** The sleeps of a request whose successive delays were `delays`. */
  function Announced(delays: seq<int>): (r: seq<Sleep>)
    ensures |r| == |delays|
    ensures forall i :: 0 <= i < |delays| ==> r[i] == Announce(delays[i], i)
  {
    seq(|delays|, i requires 0 <= i < |delays| => Announce(delays[i], i))
  }

  lemma AnnouncedSnoc(delays: seq<int>, ms: int)
    ensures Announced(delays + [ms]) == Announced(delays) + [Announce(ms, |delays|)]
  {
    assert forall i :: 0 <= i < |delays| ==> (delays + [ms])[i] == delays[i];
  }

  // ---------------------------------------------------------- whole requests

  /** How a request ended: the image URL or none, the attempts made and the delays slept between them. */
  datatype Generation = Generation(image: Option<string>, attempts: nat, delays: seq<int>)

  /** The step each of the `MaxRetries` attempts of a script would take. */
  function StepsOf(script: seq<Attempt>): (steps: seq<Step>)
    requires |script| == MaxRetries
    ensures |steps| == MaxRetries
    ensures forall i :: 0 <= i < MaxRetries ==> steps[i] == StepOf(script[i], i)
    ensures LastDoesNotRetry(steps)
  {
    seq(MaxRetries, i requires 0 <= i < MaxRetries => StepOf(script[i], i))
  }

  /** The last of the `MaxRetries` attempts never retries. */
  predicate LastDoesNotRetry(steps: seq<Step>) {
    |steps| == MaxRetries && !steps[MaxRetries - 1].Retry?
  }

  /**
   * The request from attempt `k` on, given each attempt's step. It stops at the
   * first step that does not retry; that step decides the image; every earlier
   * one left a delay.
   */
  function RunFrom(steps: seq<Step>, k: nat): (g: Generation)
    requires k < MaxRetries && LastDoesNotRetry(steps)
    ensures k < g.attempts <= MaxRetries
    ensures |g.delays| == g.attempts - 1 - k
    decreases MaxRetries - k
  {
    match steps[k]
    case Success(url) => Generation(Some(url), k + 1, [])
    case GiveUp => Generation(None, k + 1, [])
    case Retry(ms) =>
      var rest := RunFrom(steps, k + 1);
      Generation(rest.image, rest.attempts, [ms] + rest.delays)
  }

  /** The image a final step leaves: the URL of a success, nothing otherwise. */
  function FinalImage(s: Step): Option<string> {
    if s.Success? then Some(s.url) else None
  }

  /** Every attempt of a request before its last one retried, after the delay the request records. */
  lemma {:induction false} RunFromRetried(steps: seq<Step>, k: nat, j: nat)
    requires k < MaxRetries && LastDoesNotRetry(steps)
    requires j < |RunFrom(steps, k).delays|
    ensures steps[k + j] == Retry(RunFrom(steps, k).delays[j])
    decreases j
  {
    if j > 0 {
      RunFromRetried(steps, k + 1, j - 1);
    }
  }

  /** The last attempt of a request did not retry, and its step decides the image. */
  lemma {:induction false} RunFromFinal(steps: seq<Step>, k: nat)
    requires k < MaxRetries && LastDoesNotRetry(steps)
    ensures var g := RunFrom(steps, k);
      !steps[g.attempts - 1].Retry? && g.image == FinalImage(steps[g.attempts - 1])
    decreases MaxRetries - k
  {
    if steps[k].Retry? {
      RunFromFinal(steps, k + 1);
    }
  }

  /**
   * Conversely, a trace determines the request: if attempts `k` to `n - 1`
   * retried after `delays` and attempt `n` did not retry, the request from `k`
   * made n + 1 attempts, slept those delays and ends with attempt `n`'s image.
   */
  lemma {:induction false} RunFromOfTrace(steps: seq<Step>, k: nat, n: nat, delays: seq<int>)
    requires k <= n < MaxRetries && LastDoesNotRetry(steps) && |delays| == n
    requires forall i {:trigger delays[i]} :: k <= i < n ==> steps[i] == Retry(delays[i])
    requires !steps[n].Retry?
    ensures RunFrom(steps, k) == Generation(FinalImage(steps[n]), n + 1, delays[k..])
    decreases n - k
  {
    if k < n {
      RunFromOfTrace(steps, k + 1, n, delays);
      assert delays[k..] == [delays[k]] + delays[k + 1..];
    } else {
      assert delays[k..] == [];
    }
  }

  /** A whole request, from the first attempt. */
  function Run(script: seq<Attempt>): Generation
    requires |script| == MaxRetries
  {
    RunFrom(StepsOf(script), 0)
  }

  /** The whole request that retried after `delays` and stopped at attempt `n`. */
  lemma RunOfTrace(script: seq<Attempt>, n: nat, delays: seq<int>)
    requires |script| == MaxRetries && n < MaxRetries && |delays| == n
    requires forall i {:trigger delays[i]} :: 0 <= i < n ==> StepsOf(script)[i] == Retry(delays[i])
    requires !StepsOf(script)[n].Retry?
    ensures Run(script) == Generation(FinalImage(StepsOf(script)[n]), n + 1, delays)
  {
    RunFromOfTrace(StepsOf(script), 0, n, delays);
    assert delays[0..] == delays;
  }

  /** `loadingMessages.indexOf(m)`, -1 when absent. */
  function IndexOfMessage(m: string): (i: int)
    ensures -1 <= i < |LoadingMessages|
    ensures i >= 0 ==> LoadingMessages[i] == m
    ensures i == -1 <==> m !in LoadingMessages
  {
    if m == LoadingMessages[0] then 0
    else if m == LoadingMessages[1] then 1
    else if m == LoadingMessages[2] then 2
    else if m == LoadingMessages[3] then 3
    else -1
  }

  /** One tick of the loading-message interval. */
  function NextLoadingMessage(prev: string): (next: string)
    ensures next in LoadingMessages
    ensures prev !in LoadingMessages ==> next == LoadingMessages[0]
  {
    LoadingMessages[(IndexOfMessage(prev) + 1) % |LoadingMessages|]
  }

  /** The message on screen. */
  function Text(p: Progress): string {
    match p
    case Rotating(i) => LoadingMessages[i]
    case Retrying(ms, k) => RetryMessage(ms, k)
  }

  /** One tick of the rotation, on `Progress`: the next loading message, or the first after a retry notice. */
  function Advance(p: Progress): (q: Progress)
    ensures q.Rotating?
  {
    match p
    case Rotating(i) => Rotating(if i == 3 then 0 else i + 1)
    case Retrying(_, _) => Rotating(0)
  }

  /**
   * The catch block's classification of failed attempt `k`: whether the error
   * is a rate-limit error, and the delay to wait before the next attempt.
   */
  method ClassifyFailure(a: Attempt, k: nat) returns (isRateLimitError: bool, retryDelayMs: int)
    ensures isRateLimitError == IsRateLimited(FailurePayload(a.outcome))
    ensures isRateLimitError ==> retryDelayMs == Delay(a, k)
  {
    var payload := FailurePayload(a.outcome);
    isRateLimitError := false;
    retryDelayMs := Backoff(k) + a.backoffJitter;
    if payload.Json? && payload.error.Some? && payload.error.value.status == Some(ResourceExhausted) {
      isRateLimitError := true;
      var hint := RetryHint(payload.error.value);
      if hint.Some? {
        var seconds := ParseInt(RemoveFirst(hint.value, 's'));
        if seconds.Some? {
          retryDelayMs := seconds.value * 1000 + a.hintJitter;
        }
      }
    }
  }

  /** The scan over the response parts: the first part with `inlineData` wins. */
  method ScanParts(parts: seq<Part>) returns (image: Option<string>)
    ensures image == FirstInlineData(parts)
  {
    var i := 0;
    while i < |parts|
      invariant i <= |parts|
      invariant FirstInlineData(parts[i..]) == FirstInlineData(parts)
    {
      if parts[i].inlineData.Some? {
        return parts[i].inlineData;
      }
      assert parts[i..][1..] == parts[i + 1..];
      i := i + 1;
    }
    return None;
  }

  /** One pass of the loop body, without its effects on the page: what attempt `k` leads to. */
  method TryAttempt(a: Attempt, k: nat) returns (step: Step)
    ensures step == StepOf(a, k)
  {
    var image := None;
    if a.outcome.Responded? {
      image := ScanParts(PartsOf(a.outcome.response));
    }
    if image.Some? {
      return Success(ImageUrl(image.value));
    }
    var isRateLimitError, retryDelayMs := ClassifyFailure(a, k);
    if isRateLimitError && k < MaxRetries - 1 {
      return Retry(retryDelayMs);
    }
    return GiveUp;
  }

  // ------------------------------------------------------------------ the page

  class AIModelPage {
    var products: seq<Product>
    var selectedProductId: Option<Id>
    var isLoading: bool
    var loadingMessage: Progress
    var generatedImageUrl: Option<string>
    var error: Option<string>
    /** Every `sleep` the handler awaited, in order, with the message shown meanwhile. */
    var sleeps: seq<Sleep>

    /** The page as first rendered: the first product (if its id is non-empty) selected. */
    constructor(products: seq<Product>)
      ensures this.products == products
      ensures selectedProductId == if products != [] && products[0].id != "" then Some(products[0].id) else None
      ensures !isLoading && loadingMessage == Rotating(0)
      ensures generatedImageUrl.None? && error.None? && sleeps == []
    {
      this.products := products;
      selectedProductId := if products != [] && products[0].id != "" then Some(products[0].id) else None;
      isLoading := false;
      loadingMessage := Rotating(0);
      generatedImageUrl := None;
      error := None;
      sleeps := [];
    }

    /** `products.find(p => p.id === selectedProductId)`. */
    function SelectedProduct(): (r: Option<Product>)
      reads this
      ensures r.Some? ==> r.value in products && selectedProductId == Some(r.value.id)
      ensures selectedProductId.Some? && HasId(products, selectedProductId.value) ==> r.Some?
    {
      match selectedProductId
      case None => None
      case Some(id) => Find(products, id)
    }

    method SelectProduct(id: Id)
      modifies this
      ensures selectedProductId == Some(id)
      ensures products == old(products) && isLoading == old(isLoading)
      ensures loadingMessage == old(loadingMessage) && generatedImageUrl == old(generatedImageUrl)
      ensures error == old(error) && sleeps == old(sleeps)
    {
      selectedProductId := Some(id);
    }

    /** The interval callback, which runs only while loading. */
    method TickLoadingMessage()
      modifies this
      ensures loadingMessage == if old(isLoading) then Advance(old(loadingMessage)) else old(loadingMessage)
      ensures products == old(products) && selectedProductId == old(selectedProductId)
      ensures isLoading == old(isLoading) && generatedImageUrl == old(generatedImageUrl)
      ensures error == old(error) && sleeps == old(sleeps)
    {
      if isLoading {
        loadingMessage := Advance(loadingMessage);
      }
    }

    /**
     * `handleGenerateModel`, with the provider's answers given by `script`.
     * Without a selected product nothing changes; otherwise the page ends in
     * exactly one of two states, as `Run(script)` says: the image, or the
     * fixed failure message; in both `isLoading` is false.
     */
    method HandleGenerateModel(script: seq<Attempt>)
      requires |script| == MaxRetries
      modifies this
      ensures old(SelectedProduct()).None? ==>
        isLoading == old(isLoading) && loadingMessage == old(loadingMessage) &&
        generatedImageUrl == old(generatedImageUrl) && error == old(error) && sleeps == old(sleeps)
      ensures old(SelectedProduct()).Some? ==> Finished(Run(script), old(sleeps))
      ensures products == old(products) && selectedProductId == old(selectedProductId)
    {
      if SelectedProduct().None? {
        return;
      }
      isLoading := true;
      generatedImageUrl := None;
      error := None;
      loadingMessage := Rotating(0);
      Attempts(script);
    }

    /** The state a request `g` leaves behind, given the sleeps logged before it. */
    ghost predicate Finished(g: Generation, before: seq<Sleep>)
      reads this
    {
      && !isLoading
      && generatedImageUrl == g.image
      && error == (if g.image.None? then Some(FailureMessage) else None)
      && sleeps == before + Announced(g.delays)
      && loadingMessage == (if g.delays == [] then Rotating(0) else Retrying(g.delays[|g.delays| - 1], |g.delays| - 1))
    }

    /** The attempt loop of `handleGenerateModel` and what follows it. */
    method Attempts(script: seq<Attempt>)
      requires |script| == MaxRetries
      requires isLoading && generatedImageUrl.None? && error.None? && loadingMessage == Rotating(0)
      modifies this
      ensures Finished(Run(script), old(sleeps))
      ensures products == old(products) && selectedProductId == old(selectedProductId)
    {
      ghost var steps := StepsOf(script);
      ghost var delays: seq<int> := [];
      var attempt: nat := 0;
      while attempt < MaxRetries
        invariant attempt < MaxRetries && |delays| == attempt
        invariant forall i {:trigger delays[i]} :: 0 <= i < attempt ==> steps[i] == Retry(delays[i])
        invariant sleeps == old(sleeps) + Announced(delays)
        invariant loadingMessage == if delays == [] then Rotating(0)
                                    else Retrying(delays[|delays| - 1], |delays| - 1)
        invariant isLoading && generatedImageUrl.None? && error.None?
        invariant products == old(products) && selectedProductId == old(selectedProductId)
      {
        var step := TryAttempt(script[attempt], attempt);
        assert step == steps[attempt];
        if step.Success? {
          RunOfTrace(script, attempt, delays);
          generatedImageUrl := Some(step.url);
          isLoading := false;
          return;
        } else if step.Retry? {
          AnnouncedSnoc(delays, step.ms);
          loadingMessage := Retrying(step.ms, attempt);
          sleeps := sleeps + [Sleep(loadingMessage, step.ms)];
          delays := delays + [step.ms];
        } else {
          RunOfTrace(script, attempt, delays);
          break;
        }
        attempt := attempt + 1;
      }

      error := Some(FailureMessage);
      isLoading := false;
    }
  }

  // ------------------------------------------------------------ properties

  /** At most five attempts, and one sleep fewer than attempts: the last attempt never sleeps. */
  lemma RunBounds(script: seq<Attempt>)
    requires |script| == MaxRetries
    ensures 1 <= Run(script).attempts <= MaxRetries
    ensures |Run(script).delays| == Run(script).attempts - 1
    ensures |Run(script).delays| <= MaxRetries - 1
  {
  }

  /** A first failure that is not a rate-limit error ends the request after one attempt, with no image. */
  lemma {:induction false} OtherErrorsStopAtOnce(script: seq<Attempt>)
    requires |script| == MaxRetries
    requires ImageOf(script[0].outcome).None? && !IsRateLimited(FailurePayload(script[0].outcome))
    ensures Run(script) == Generation(None, 1, [])
  {
    assert StepOf(script[0], 0) == GiveUp;
  }

  /** A response without an image is a failure that is never retried. */
  lemma {:induction false} ImagelessResponseFails(script: seq<Attempt>, r: Response)
    requires |script| == MaxRetries && script[0].outcome == Responded(r)
    requires FirstInlineData(PartsOf(r)).None?
    ensures Run(script) == Generation(None, 1, [])
  {
    OtherErrorsStopAtOnce(script);
  }

  /** The first attempt that yields an image ends the request with its data URL and no error. */
  lemma {:induction false} FirstImageWins(script: seq<Attempt>, k: nat)
    requires |script| == MaxRetries && k < MaxRetries
    requires forall i :: 0 <= i < k ==>
      ImageOf(script[i].outcome).None? && IsRateLimited(FailurePayload(script[i].outcome))
    requires ImageOf(script[k].outcome).Some?
    ensures Run(script).attempts == k + 1
    ensures Run(script).image == Some(ImageUrl(ImageOf(script[k].outcome).value))
  {
    var delays := seq(k, i requires 0 <= i < k => Delay(script[i], i));
    RunFromOfTrace(StepsOf(script), 0, k, delays);
  }

  /** Five rate-limit errors in a row: five attempts, four sleeps, no image. */
  lemma {:induction false} AllRateLimited(script: seq<Attempt>)
    requires |script| == MaxRetries
    requires forall i :: 0 <= i < MaxRetries ==>
      ImageOf(script[i].outcome).None? && IsRateLimited(FailurePayload(script[i].outcome))
    ensures Run(script).image.None?
    ensures Run(script).attempts == MaxRetries
    ensures |Run(script).delays| == MaxRetries - 1
  {
    var delays := seq(MaxRetries - 1, i requires 0 <= i < MaxRetries - 1 => Delay(script[i], i));
    RunFromOfTrace(StepsOf(script), 0, MaxRetries - 1, delays);
  }

  /**
   * Every delay of a request is the one chosen after a rate-limit failure of
   * the attempt before it, and the retry message of sleep `i` announces
   * attempt i + 2, which never passes five.
   */
  lemma {:induction false} DelaysOfRun(script: seq<Attempt>)
    requires |script| == MaxRetries
    ensures forall i :: 0 <= i < |Run(script).delays| ==>
      && ImageOf(script[i].outcome).None?
      && IsRateLimited(FailurePayload(script[i].outcome))
      && Run(script).delays[i] == Delay(script[i], i)
      && i + 2 <= MaxRetries
  {
    forall i | 0 <= i < |Run(script).delays|
      ensures ImageOf(script[i].outcome).None? && IsRateLimited(FailurePayload(script[i].outcome))
      ensures Run(script).delays[i] == Delay(script[i], i) && i + 2 <= MaxRetries
    {
      RunFromRetried(StepsOf(script), 0, i);
      RetryStep(script[i], i);
    }
  }

  /**
   * The delay after a rate-limit error: the hinted seconds plus jitter in
   * [0, 500) when the hint parses, the back-off plus jitter in [0, 1000) otherwise.
   */
  lemma DelayRange(a: Attempt, k: nat)
    requires IsRateLimited(FailurePayload(a.outcome))
    ensures HintSeconds(FailurePayload(a.outcome)).Some? ==>
      var n := HintSeconds(FailurePayload(a.outcome)).value;
      n * 1000 <= Delay(a, k) < n * 1000 + 500
    ensures HintSeconds(FailurePayload(a.outcome)).None? ==>
      2000 * Pow2(k) <= Delay(a, k) < 2000 * Pow2(k) + 1000
  {
  }

  /** The back-off doubles from one attempt to the next. */
  lemma {:induction false} BackoffDoubles(k: nat)
    ensures Backoff(k + 1) == 2 * Backoff(k)
    ensures Backoff(0) == 2000 && Backoff(3) == 16000
  {
    assert Pow2(3) == 8 by { assert Pow2(1) == 2; assert Pow2(2) == 4; }
  }


  lemma NoDigitsInIntToString(n: int)
    ensures 's' !in IntToString(n)
  {
    var t := IntToString(n);
    if n >= 0 {
      assert forall i :: 0 <= i < |t| ==> IsDigit(t[i]);
    } else {
      var u := NatToString(-n);
      assert t == "-" + u;
      assert forall i :: 0 <= i < |u| ==> IsDigit(u[i]);
      assert forall i :: 1 <= i < |t| ==> t[i] == u[i - 1];
    }
  }

  /** Reading the message back: the number after "Retrying in " is ⌈delay/1000⌉. */
  lemma RetryMessageSeconds(ms: int, k: nat)
    ensures StartsWith(RetryMessage(ms, k), RetryLead)
    ensures ParseInt(RetryMessage(ms, k)[|RetryLead|..]) == Some(CeilSeconds(ms))
  {
    var tail := IntToString(CeilSeconds(ms)) + AttemptTail(k);
    assert RetryMessage(ms, k) == RetryLead + tail;
    StartsWithConcat(RetryLead, tail);
    AttemptTailStartsWithS(k);
    ParseIntOfIntToString(CeilSeconds(ms), AttemptTail(k));
  }

  lemma AttemptTailStartsWithS(k: nat)
    ensures AttemptTail(k) != [] && AttemptTail(k)[0] == 's'
  {
  }

  /** Reading the message back: the attempt number before "/5)" is k + 2. */
  lemma RetryMessageAttempt(ms: int, k: nat)
    requires k + 2 < 10
    ensures var m := RetryMessage(ms, k);
      (|m| >= 4 && m[|m| - 3..] == "/5)" && ParseInt(m[|m| - 4..]) == Some(k + 2))
  {
    var m := RetryMessage(ms, k);
    var digit := IntToString(k + 2);
    assert digit == [DigitChar(k + 2)];
    assert IntToString(MaxRetries) == "5";
    var head := RetryLead + IntToString(CeilSeconds(ms)) + "s... (Attempt ";
    assert AttemptTail(k) == "s... (Attempt " + digit + "/5)";
    assert m == head + digit + "/5)";
    assert m[|m| - 4..] == digit + "/5)";
    ParseIntOfIntToString(k + 2, "/5)");
  }

  /** A retry message is not a loading message, so the next tick restarts the cycle at its first message. */
  lemma RetryMessageRestartsRotation(ms: int, k: nat)
    ensures RetryMessage(ms, k) !in LoadingMessages
    ensures NextLoadingMessage(RetryMessage(ms, k)) == LoadingMessages[0]
  {
    var m := RetryMessage(ms, k);
    assert m[1] == 'I';
    assert forall i :: 0 <= i < |LoadingMessages| ==> LoadingMessages[i][1] != 'I';
  }

  /** One tick moves a loading message to the next one, and the last back to the first. */
  lemma NextOfLoadingMessage(i: nat)
    requires i < |LoadingMessages|
    ensures NextLoadingMessage(LoadingMessages[i]) == LoadingMessages[if i == 3 then 0 else i + 1]
  {
    IndexOfLoadingMessage(i);
  }

  /** The four messages start with different letters, so `indexOf` finds each at its own place. */
  lemma IndexOfLoadingMessage(i: nat)
    requires i < |LoadingMessages|
    ensures IndexOfMessage(LoadingMessages[i]) == i
  {
    assert LoadingMessages[0][0] == 'W' && LoadingMessages[1][0] == 'D';
    assert LoadingMessages[2][0] == 'G' && LoadingMessages[3][0] == 'A';
  }

  /**
   * The rotation on `Progress` is the rotation the page performs on the
   * message text through `indexOf`.
   */
  lemma AdvanceMatchesText(p: Progress)
    ensures Text(Advance(p)) == NextLoadingMessage(Text(p))
  {
    match p
    case Rotating(i) => NextOfLoadingMessage(i);
    case Retrying(ms, k) => RetryMessageRestartsRotation(ms, k);
  }

  /** Four ticks bring any loading message back to itself. */
  lemma {:induction false} RotationCycles(i: nat)
    requires i < |LoadingMessages|
    ensures NextLoadingMessage(NextLoadingMessage(NextLoadingMessage(NextLoadingMessage(LoadingMessages[i]))))
      == LoadingMessages[i]
  {
    NextOfLoadingMessage(0);
    NextOfLoadingMessage(1);
    NextOfLoadingMessage(2);
    NextOfLoadingMessage(3);
  }

  /** A rate-limit error body whose only detail is a RetryInfo with this hint. */
  function RateLimited(hint: string): (p: ErrorPayload)
    ensures IsRateLimited(p)
  {
    Json(Some(ApiError(Some(ResourceExhausted), Some([Detail(Some(RetryInfoType), Some(hint))]))))
  }

  /** A hint written as "<n>s" is read as n seconds. */
  lemma {:induction false} HintOfSeconds(n: int)
    ensures HintSeconds(RateLimited(IntToString(n) + "s")) == Some(n)
  {
    var t := IntToString(n);
    var p := RateLimited(t + "s");
    assert RetryHint(p.error.value) == Some(t + "s");
    NoDigitsInIntToString(n);
    RemoveLast(t, 's');
    ParseIntOfIntToString(n, []);
    assert t + [] == t;
  }

  /** A step that retries comes from a rate-limit error before the last attempt, after `Delay`. */
  lemma RetryStep(a: Attempt, k: nat)
    requires StepOf(a, k).Retry?
    ensures ImageOf(a.outcome).None? && IsRateLimited(FailurePayload(a.outcome))
    ensures StepOf(a, k).ms == Delay(a, k) && k < MaxRetries - 1
  {
  }

  /** A rate-limit error hinting "<n>s" before the last attempt retries after n seconds and its jitter. */
  lemma HintedRetry(a: Attempt, k: nat, n: int)
    requires a.outcome == Raised(RateLimited(IntToString(n) + "s")) && k < MaxRetries - 1
    ensures Delay(a, k) == n * 1000 + a.hintJitter
    ensures StepOf(a, k) == Retry(Delay(a, k))
  {
    HintOfSeconds(n);
  }

  lemma {:induction false} RemoveLast(t: string, c: char)
    requires c !in t
    ensures RemoveFirst(t + [c], c) == t
  {
    if t != [] {
      assert (t + [c])[1..] == t[1..] + [c];
      RemoveLast(t[1..], c);
      assert [t[0]] + t[1..] == t;
    } else {
      assert t + [c] == [c];
    }
  }

  /** A negative hint is not rejected: "-3s" makes the delay negative. */
  lemma NegativeHintAccepted(a: Attempt, k: nat)
    requires a.outcome == Raised(RateLimited("-3s"))
    ensures Delay(a, k) < 0
  {
    assert NatToString(3) == "3";
    assert IntToString(-3) + "s" == "-3s";
    HintOfSeconds(-3);
    assert HintSeconds(FailurePayload(a.outcome)) == Some(-3);
  }

  /** A fractional hint loses its fraction: "1.5s" waits between 1 and 1.5 seconds. */
  lemma FractionalHintTruncated(a: Attempt, k: nat)
    requires a.outcome == Raised(RateLimited("1.5s"))
    ensures 1000 <= Delay(a, k) < 1500
  {
    var p := FailurePayload(a.outcome);
    assert RetryHint(p.error.value) == Some("1.5s");
    assert RemoveFirst("1.5s", 's') == "1.5";
    assert DigitsValue("1") == 1;
    ParseIntOfDigits("1", ".5");
    assert "1" + ".5" == "1.5";
    assert HintSeconds(p) == Some(1);
  }

  /** Two retries and then an image: three attempts, the two delays, and the image's URL. */
  lemma TwoRetriesThenImage(steps: seq<Step>, d0: int, d1: int, url: string)
    requires LastDoesNotRetry(steps)
    requires steps[0] == Retry(d0) && steps[1] == Retry(d1) && steps[2] == Success(url)
    ensures RunFrom(steps, 0) == Generation(Some(url), 3, [d0, d1])
  {
    RunFromOfTrace(steps, 0, 2, [d0, d1]);
  }

  /** A response whose one candidate has one part carrying `data` yields that image. */
  lemma SinglePartImage(a: Attempt, k: nat, data: string)
    requires a.outcome == Responded(Response(Some([Candidate(Some(Content(Some([Part(Some(data))]))))])))
    ensures StepOf(a, k) == Success(ImagePrefix + data)
  {
    assert PartsOf(a.outcome.response) == [Part(Some(data))];
  }

  lemma ThreeSecondHint()
    ensures IntToString(3) + "s" == "3s"
  {
    assert NatToString(3) == "3";
  }

  /**
   * A rate-limited first attempt with hint "3s", the same again, then an image:
   * three attempts, two delays of 3 to 3.5 seconds.
   */
  lemma RetryThenSucceed(script: seq<Attempt>, data: string)
    requires |script| == MaxRetries
    requires script[0].outcome == Raised(RateLimited("3s")) && script[1].outcome == Raised(RateLimited("3s"))
    requires script[2].outcome == Responded(Response(Some([Candidate(Some(Content(Some([Part(Some(data))]))))])))
    ensures Run(script).image == Some(ImagePrefix + data)
    ensures Run(script).attempts == 3
    ensures |Run(script).delays| == 2
    ensures forall i :: 0 <= i < 2 ==> 3000 <= Run(script).delays[i] < 3500
  {
    var steps := StepsOf(script);
    var d0, d1 := Delay(script[0], 0), Delay(script[1], 1);
    ThreeSecondHint();
    HintedRetry(script[0], 0, 3);
    HintedRetry(script[1], 1, 3);
    SinglePartImage(script[2], 2, data);
    TwoRetriesThenImage(steps, d0, d1, ImagePrefix + data);
    assert Run(script).delays == [d0, d1];
  }
}
