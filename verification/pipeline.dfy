/**
 * The control of index.js around the renderer: an empty diff ends the run at
 * once with exit code 0; otherwise `aiPRBot` asks the completion provider for
 * a review, renders it, and posts it, and any failure on the way (a rejected
 * provider call, a reply that is not JSON, a POST answered with a non-2xx
 * status) is retried while the module-level counter `retry` is below
 * `maxRetry`, after which the process exits with code 1.
 *
 * The outside world is an oracle: `world(k)` is what the attempt made while
 * the counter holds `k` meets (the provider's reply and the POST's answer).
 */
module Pipeline {
  import Render

  /** `maxRetry` of index.js: the number of retries after the first attempt. */
  const MaxRetry: nat := 3

  datatype Option<T> = None | Some(value: T)

  /** What the comments endpoint answered to the POST. */
  datatype PostResponse = Status(code: int) | NetworkError

  /** `res.ok`: the status is in the 2xx range. */
  predicate IsOk(r: PostResponse) {
    r.Status? && 200 <= r.code <= 299
  }

  /** A provider reply whose text parsed as JSON, with the metadata the footer reports. */
  datatype Completion = Completion(reply: Render.ModelReply, info: Render.ModelInfo)

  /**
   * What one attempt meets: the provider's parsed reply (None when the call
   * rejects or its text is not JSON) and the answer to the POST of the comment.
   */
  datatype AttemptEnv = AttemptEnv(completion: Option<Completion>, post: PostResponse)

  /** How one attempt ended: the POST of the comment rendering `reply` was acknowledged, or the attempt failed. */
  datatype AttemptResult = Posted(reply: Completion) | Failed

  /**
   * One pass through the `try` block of `aiPRBot`: it succeeds exactly when the
   * reply parsed and the POST of the comment was answered with a 2xx status; a
   * non-ok answer is turned into a failure like any exception.
   */
  function Attempt(env: AttemptEnv): (r: AttemptResult)
    ensures r.Posted? <==> env.completion.Some? && IsOk(env.post)
  {
    match env.completion
    case None => Failed
    case Some(c) => if IsOk(env.post) then Posted(c) else Failed
  }

  /** The text posted for a parsed reply: banner, rendered review, model-info footer. */
  function Comment(c: Completion): string {
    Render.PostedBody(Render.CommentBody(c.reply), c.info)
  }

  /**
   * How a run ends: the exit code, the prompts sent to the provider, and the
   * replies whose comment's POST was acknowledged with a 2xx status (the
   * comment for `c` is `Comment(c)`).
   */
  datatype RunResult = RunResult(exitCode: int, prompts: seq<string>, posted: seq<Completion>)

  predicate Fails(world: nat -> AttemptEnv, k: nat) {
    Attempt(world(k)).Failed?
  }

  /**
   * The attempts made from counter value `retry` on: each sends the same
   * prompt; a success ends the run with exit code 0 and one acknowledged
   * comment; a failure is retried while `retry < MaxRetry`, and otherwise ends
   * the run with exit code 1 and no acknowledged comment.
   */
  function RetryFrom(retry: nat, prompt: string, world: nat -> AttemptEnv): (r: RunResult)
    requires retry <= MaxRetry
    ensures 1 <= |r.prompts| <= MaxRetry + 1 - retry
    ensures forall k :: 0 <= k < |r.prompts| ==> r.prompts[k] == prompt
    ensures (r.exitCode == 0 && |r.posted| == 1) || (r.exitCode == 1 && r.posted == [])
    ensures r.exitCode == 1 ==> |r.prompts| == MaxRetry + 1 - retry
    decreases MaxRetry - retry
  {
    match Attempt(world(retry))
    case Posted(c) => RunResult(0, [prompt], [c])
    case Failed =>
      if retry < MaxRetry then
        var rest := RetryFrom(retry + 1, prompt, world);
        RunResult(rest.exitCode, [prompt] + rest.prompts, rest.posted)
      else
        RunResult(1, [prompt], [])
  }

  /** A failed attempt below the limit is followed by the run from the next counter value. */
  lemma RetryAfterFailure(retry: nat, prompt: string, world: nat -> AttemptEnv)
    requires retry < MaxRetry && Fails(world, retry)
    ensures var rest := RetryFrom(retry + 1, prompt, world);
      RetryFrom(retry, prompt, world) == RunResult(rest.exitCode, [prompt] + rest.prompts, rest.posted)
  {
  }

  /**
   * A whole run of index.js for the diff `diffText`, whose prompt is `prompt`:
   * an empty diff exits with code 0 before any provider call or comment;
   * otherwise at least one and at most `MaxRetry + 1` attempts are made, each
   * sending `prompt`, and one comment's POST is acknowledged exactly when the
   * run exits with 0.
   */
  function Run(diffText: string, prompt: string, world: nat -> AttemptEnv): (r: RunResult)
    ensures diffText == "" ==> r == RunResult(0, [], [])
    ensures diffText != "" ==> 1 <= |r.prompts| <= MaxRetry + 1
    ensures forall k :: 0 <= k < |r.prompts| ==> r.prompts[k] == prompt
    ensures r.exitCode == 0 || r.exitCode == 1
    ensures |r.posted| <= 1 && (|r.posted| == 1 <==> r.exitCode == 0 && diffText != "")
  {
    if diffText == "" then RunResult(0, [], []) else RetryFrom(0, prompt, world)
  }

  /** From counter value `retry`, the first attempt `k` that succeeds decides the run. */
  lemma {:induction false} RetryFromFirstSuccess(retry: nat, prompt: string, world: nat -> AttemptEnv, k: nat)
    requires retry <= k <= MaxRetry
    requires !Fails(world, k) && forall j :: retry <= j < k ==> Fails(world, j)
    ensures RetryFrom(retry, prompt, world).exitCode == 0
    ensures |RetryFrom(retry, prompt, world).prompts| == k - retry + 1
    ensures RetryFrom(retry, prompt, world).posted == [world(k).completion.value]
    decreases k - retry
  {
    if retry < k {
      assert Fails(world, retry);
      RetryFromFirstSuccess(retry + 1, prompt, world, k);
    }
  }

  /** From counter value `retry`, the run exits with code 1 exactly when every remaining attempt fails. */
  lemma {:induction false} RetryFromAllFail(retry: nat, prompt: string, world: nat -> AttemptEnv)
    requires retry <= MaxRetry
    ensures RetryFrom(retry, prompt, world).exitCode == 1 <==> forall j :: retry <= j <= MaxRetry ==> Fails(world, j)
    decreases MaxRetry - retry
  {
    if !Fails(world, retry) {
      assert RetryFrom(retry, prompt, world).exitCode == 0;
    } else if retry < MaxRetry {
      RetryFromAllFail(retry + 1, prompt, world);
      assert (forall j :: retry <= j <= MaxRetry ==> Fails(world, j))
         <==> (forall j :: retry + 1 <= j <= MaxRetry ==> Fails(world, j));
    }
  }

  /**
   * With a non-empty diff, the first successful attempt `k` ends the run: the
   * exit code is 0, `k + 1` provider calls were made, and the only acknowledged
   * comment is the one rendering the reply of attempt `k`.
   */
  lemma FirstSuccessEndsRun(diffText: string, prompt: string, world: nat -> AttemptEnv, k: nat)
    requires diffText != "" && k <= MaxRetry
    requires !Fails(world, k) && forall j :: 0 <= j < k ==> Fails(world, j)
    ensures Run(diffText, prompt, world).exitCode == 0
    ensures |Run(diffText, prompt, world).prompts| == k + 1
    ensures Run(diffText, prompt, world).posted == [world(k).completion.value]
  {
    RetryFromFirstSuccess(0, prompt, world, k);
  }

  /**
   * With a non-empty diff, the run exits with code 1 exactly when all
   * `MaxRetry + 1` attempts fail; it then made that many provider calls and
   * no comment's POST was acknowledged.
   */
  lemma ExitOneIffAllAttemptsFail(diffText: string, prompt: string, world: nat -> AttemptEnv)
    requires diffText != ""
    ensures Run(diffText, prompt, world).exitCode == 1 <==> forall j :: 0 <= j <= MaxRetry ==> Fails(world, j)
    ensures Run(diffText, prompt, world).exitCode == 1 ==> |Run(diffText, prompt, world).prompts| == MaxRetry + 1
  {
    RetryFromAllFail(0, prompt, world);
  }

  /**
   * The module-level state of index.js: the retry counter, and what the run
   * has done so far (prompts sent, comments acknowledged, the code handed to
   * `process.exit`, if any).
   */
  class ReviewRun {
    const prompt: string
    var retry: nat
    var prompts: seq<string>
    var posted: seq<Completion>
    var exited: Option<int>

    constructor (prompt: string)
      ensures this.prompt == prompt
      ensures retry == 0 && prompts == [] && posted == [] && exited == None
    {
      this.prompt := prompt;
      retry := 0;
      prompts := [];
      posted := [];
      exited := None;
    }

    /**
     * `aiPRBot`: one attempt, and on failure either a retry with the counter
     * one higher or `process.exit(1)`. The retried attempt sees the counter
     * already incremented.
     */
    method AiPRBot(world: nat -> AttemptEnv)
      requires retry <= MaxRetry && exited == None
      modifies this
      decreases MaxRetry - retry
      ensures var r := RetryFrom(old(retry), prompt, world);
        && prompts == old(prompts) + r.prompts
        && posted == old(posted) + r.posted
        && exited == (if r.exitCode == 1 then Some(1) else None)
        && retry == old(retry) + |r.prompts| - 1
    {
      ghost var before, k := prompts, retry;
      prompts := prompts + [prompt];
      var outcome, _ := TryOnce(world(retry));
      match outcome
      case Posted(c) =>
        posted := posted + [c];
      case Failed =>
        if retry < MaxRetry {
          retry := retry + 1;
          AiPRBot(world);
          RetryAfterFailure(k, prompt, world);
          Render.AppendAssoc(before, [prompt], RetryFrom(k + 1, prompt, world).prompts);
        } else {
          exited := Some(1);
        }
    }
  }

  /**
   * The body of the `try` block of `aiPRBot` for one attempt: render the
   * parsed reply, wrap it with the banner and the model-info footer, and post
   * it; the outcome is the one `Attempt` describes.
   */
  method TryOnce(env: AttemptEnv) returns (outcome: AttemptResult, body: string)
    ensures outcome == Attempt(env)
    ensures env.completion.Some? ==> body == Comment(env.completion.value)
  {
    match env.completion
    case None =>
      outcome, body := Failed, "";
    case Some(completion) =>
      var commentBody := Render.RenderCommentBody(completion.reply);
      body := Render.Banner + commentBody + Render.Footer(completion.info);
      if IsOk(env.post) {
        outcome := Posted(completion);
      } else {
        outcome := Failed;
      }
  }

  /**
   * `aiPRBot()` started on a fresh module state (counter 0, nothing sent or
   * posted): the exit code (0 when the process ends without `process.exit`),
   * the prompts sent and the comments acknowledged are those `RetryFrom(0, ..)` gives.
   */
  method ReviewWith(prompt: string, world: nat -> AttemptEnv) returns (exitCode: int, prompts: seq<string>, posted: seq<Completion>)
    ensures RunResult(exitCode, prompts, posted) == RetryFrom(0, prompt, world)
  {
    var run := new ReviewRun(prompt);
    run.AiPRBot(world);
    exitCode := if run.exited.Some? then run.exited.value else 0;
    prompts, posted := run.prompts, run.posted;
  }
}
