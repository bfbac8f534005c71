/** `run_agent_with_failover` (`backend/agents.py`): one request is tried on
    each model of the roster in turn until one answers. The model call itself
    is an oracle from model identifier to outcome. */
module Failover {
  import opened Wrappers
  import opened Text

  /** What one `agent.run` on one model produced. */
  datatype Outcome<T> =
    | Ok(output: T)          // a non-empty output
    | Empty                  // the call returned, but its output was empty
    | Err(message: string)   // the call raised; `message` is `str(e)`

  /** The error raised in place of an empty output. */
  const EmptyResultMessage: string := "Model returned an empty result"

  /** A failure whose text names a rejected credential; the loop stops on it. */
  predicate IsCredentialError(message: string) {
    Contains(message, "401") || Contains(message, "Unauthorized")
  }

  /** `"401" in error_msg or "Unauthorized" in error_msg`: one of the two
      markers occurs somewhere in the text. */
  lemma CredentialMarkers(message: string)
    ensures IsCredentialError(message) <==>
      (exists i :: OccursAt(message, "401", i)) || (exists i :: OccursAt(message, "Unauthorized", i))
  {
    ContainsIff(message, "401");
    ContainsIff(message, "Unauthorized");
  }

  /** The text of the error a failed attempt leaves behind. */
  function FailureMessage<T>(o: Outcome<T>): string
    requires !o.Ok?
  {
    if o.Empty? then EmptyResultMessage else o.message
  }

  /** A failed attempt after which the next model is tried. */
  predicate Retryable<T>(o: Outcome<T>) {
    !o.Ok? && !IsCredentialError(FailureMessage(o))
  }

  /** The outcome of one failover run and the models it tried, in order. */
  datatype Run<T> = Run(result: Result<T, string>, attempts: seq<string>)

  /** The loop over the models still to try; `lastError` is the error of the
      previous attempt (none before the first). */
  function Loop<T>(models: seq<string>, call: string -> Outcome<T>, lastError: Option<string>): (r: Run<T>)
    requires |models| > 0 || lastError.Some?
    ensures |r.attempts| <= |models| && r.attempts == models[..|r.attempts|]
    ensures |models| > 0 ==> |r.attempts| > 0
    ensures |models| == 0 ==> lastError.Some? && r == Run(Failure(lastError.value), [])
    ensures forall k :: 0 <= k < |r.attempts| - 1 ==> Retryable(call(models[k]))
    ensures |r.attempts| > 0 ==>
      var last := call(models[|r.attempts| - 1]);
      match r.result
      case Success(v) => last == Ok(v)
      case Failure(e) =>
        && !last.Ok?
        && e == FailureMessage(last)
        && (IsCredentialError(e) || |r.attempts| == |models|)
    decreases |models|
  {
    if |models| == 0 then Run(Failure(lastError.value), [])
    else
      var outcome := call(models[0]);
      if outcome.Ok? then Run(Success(outcome.output), [models[0]])
      else
        var error := FailureMessage(outcome);
        if IsCredentialError(error) then Run(Failure(error), [models[0]])
        else
          var rest := Loop(models[1..], call, Some(error));
          Run(rest.result, [models[0]] + rest.attempts)
  }

  /** `run_agent_with_failover` over a non-empty roster. The models tried are
      a non-empty prefix of the roster, in roster order; every model before the
      last one tried failed in a way that allows a retry; and the run ends with
      the last model's output, or with its error when that error names a
      credential problem or no model is left. */
  function RunWithFailover<T>(roster: seq<string>, call: string -> Outcome<T>): (r: Run<T>)
    requires |roster| > 0
    ensures FailoverSpec(roster, call, r)
  {
    Loop(roster, call, None)
  }

  /** The declarative description of a failover run. */
  ghost predicate FailoverSpec<T>(roster: seq<string>, call: string -> Outcome<T>, r: Run<T>) {
    && 0 < |r.attempts| <= |roster|
    && r.attempts == roster[..|r.attempts|]
    && (forall k :: 0 <= k < |r.attempts| - 1 ==> Retryable(call(roster[k])))
    && var last := call(roster[|r.attempts| - 1]);
       match r.result
       case Success(v) => last == Ok(v)
       case Failure(e) =>
         && !last.Ok?
         && e == FailureMessage(last)
         && (IsCredentialError(e) || |r.attempts| == |roster|)
  }

  /** The description determines the run: any run that satisfies it is the
      one `RunWithFailover` computes. */
  lemma FailoverSpecUnique<T>(roster: seq<string>, call: string -> Outcome<T>, r: Run<T>)
    requires |roster| > 0
    requires FailoverSpec(roster, call, r)
    ensures r == RunWithFailover(roster, call)
  {

  }

  /** If the first k models fail in retryable ways and model k answers,
      exactly k + 1 models are tried and model k's output is returned. */
  lemma SucceedsAt<T>(roster: seq<string>, call: string -> Outcome<T>, k: nat)
    requires k < |roster|
    requires forall i :: 0 <= i < k ==> Retryable(call(roster[i]))
    requires call(roster[k]).Ok?
    ensures RunWithFailover(roster, call) == Run(Success(call(roster[k]).output), roster[..k + 1])
  {

  }

  /** A credential failure on the first model ends the run after that single
      attempt, however long the roster is. */
  lemma CredentialFailureStops<T>(roster: seq<string>, call: string -> Outcome<T>)
    requires |roster| > 0
    requires call(roster[0]).Err? && IsCredentialError(call(roster[0]).message)
    ensures RunWithFailover(roster, call) == Run(Failure(call(roster[0]).message), [roster[0]])
  {
  }

  /** When every model fails in a retryable way, all of them are tried and the
      error is the one left by the last model of the roster. */
  lemma AllFail<T>(roster: seq<string>, call: string -> Outcome<T>)
    requires |roster| > 0
    requires forall i :: 0 <= i < |roster| ==> Retryable(call(roster[i]))
    ensures
      var last := call(roster[|roster| - 1]);
      Retryable(last) && RunWithFailover(roster, call) == Run(Failure(FailureMessage(last)), roster)
  {
  }

  /** A text without the characters '4' and 'U' cannot name a credential problem. */
  lemma NoMarker(message: string)
    requires '4' !in message && 'U' !in message
    ensures !IsCredentialError(message)
  {
    ContainsFirst(message, "401");
    ContainsFirst(message, "Unauthorized");
  }

  /** An empty output never stops the loop: its error names no credential. */
  lemma EmptyIsRetryable<T>()
    ensures Retryable<T>(Empty)
  {
    NoMarker(EmptyResultMessage);
  }

  /** A plain server error is retried on the next model. */
  lemma ServerErrorIsRetryable<T>(o: Outcome<T>)
    requires o == Err("500 Server Error")
    ensures Retryable(o)
  {
    NoMarker("500 Server Error");
  }

  /** Two retryable failures followed by an answer: three attempts, third output. */
  lemma AnswerOnThird<T>(call: string -> Outcome<T>, m1: string, m2: string, m3: string)
    requires Retryable(call(m1)) && Retryable(call(m2)) && call(m3).Ok?
    ensures RunWithFailover([m1, m2, m3], call) == Run(Success(call(m3).output), [m1, m2, m3])
  {
    var roster := [m1, m2, m3];
    assert roster[0] == m1 && roster[1] == m2 && roster[2] == m3;
    SucceedsAt(roster, call, 2);
    assert roster[..3] == roster;
  }

  /** The three-model scenario: a server error, then an empty output, then an
      answer; the answer of the third model comes back after three attempts. */
  lemma ServerErrorThenEmptyThenAnswer<T>(call: string -> Outcome<T>, m1: string, m2: string, m3: string, v: T)
    requires call(m1) == Err("500 Server Error") && call(m2) == Empty && call(m3) == Ok(v)
    ensures RunWithFailover([m1, m2, m3], call) == Run(Success(v), [m1, m2, m3])
  {
    ServerErrorIsRetryable(call(m1));
    EmptyIsRetryable<T>();
    AnswerOnThird(call, m1, m2, m3);
  }

  /** The credential scenario: "401 Unauthorized" from the first model ends the
      run at once and the second model is never called. */
  lemma UnauthorizedFirst<T>(call: string -> Outcome<T>, m1: string, m2: string)
    requires call(m1) == Err("401 Unauthorized")
    ensures RunWithFailover([m1, m2], call) == Run(Failure("401 Unauthorized"), [m1])
  {
    assert OccursAt("401 Unauthorized", "401", 0);
    ContainsIff("401 Unauthorized", "401");
    CredentialFailureStops([m1, m2], call);
  }
}
