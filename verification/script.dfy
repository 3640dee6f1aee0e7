/**
 * The top level of index.js: the prompt is built from the diff and the review
 * loop of `Pipeline` is started with the retry counter at 0.
 */
module Script {
  import Prompt
  import Pipeline

  /**
   * The whole script: the empty-diff exit, then `aiPRBot` with the counter at
   * 0. Returns the exit code (0 when the process ends without `process.exit`),
   * the prompts sent and the replies whose comment was acknowledged.
   */
  method RunReview(diffText: string, world: nat -> Pipeline.AttemptEnv) returns (exitCode: int, prompts: seq<string>, posted: seq<Pipeline.Completion>)
    ensures Pipeline.RunResult(exitCode, prompts, posted) == Pipeline.Run(diffText, Prompt.BuildPrompt(diffText), world)
  {
    if diffText == "" {
      return 0, [], [];
    }
    exitCode, prompts, posted := Pipeline.ReviewWith(Prompt.BuildPrompt(diffText), world);
  }
}
