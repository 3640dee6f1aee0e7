# AI PR review bot — a Dafny model of its deterministic core

The bot runs as a GitHub Action. It takes the diff of a pull request and
builds a review prompt from it. It asks a completion provider for a JSON
review, renders the review as a markdown comment, and posts that comment to
the pull request. When an attempt fails it retries a bounded number of times,
and after the last failure it exits with code 1. A separate demo server ships
an `escapeHtml` helper.

This project models those parts in Dafny and proves what they promise:

- `Text` (text.dfy) is the text a template literal produces for an integer
  (within the range JavaScript prints in plain digits), and the ASCII part of
  `toUpperCase`.
- `HtmlEscape` (html_escape.dfy) is `escapeHtml` as written: five global
  replacements, `&` first. It is proved equal to a per-character entity map.
  The lemmas then give the absence of markup characters, the well-formedness
  of every `&`, distribution over concatenation, fixed points, length and
  injectivity.
- `Prompt` (prompt.dfy) is the prompt template, with the diff embedded
  verbatim between the opening line and the instructions.
- `Render` (render.dfy) is the comment body, which is a header plus one
  numbered block per suggestion. It is given both as a specification function
  and as the appending loop of the source, proved equal. `Render` also holds
  the banner and the model-info footer.
- `Pipeline` (pipeline.dfy) covers the attempts and the retry counter. Each
  attempt renders the reply, wraps it and posts it. A non-2xx answer counts
  as a failure. A failure is retried while `retry < maxRetry` and otherwise
  ends in exit code 1. The module-level state of the script is a class whose
  method is proved against the functional `RetryFrom`.
- `Script` (script.dfy) is the top level: the empty-diff exit, then the first
  attempt with the built prompt.

The provider and GitHub are an oracle `world: nat -> AttemptEnv`. For the
attempt made while the counter holds `k`, `world(k)` gives two things:

- the parsed reply, or `None` when the call rejected or its text was not JSON;
- the HTTP answer to the POST.

## Model

| member | source | states |
|---|---|---|
| Text.NatToDecimal | index.js:102 | the number of a block is a non-empty string of digits with no leading zero except for 0 itself |
| Text.ParseNatToDecimal | index.js:102 | reading the numeral back gives the number: the rendered number identifies it |
| Text.IntToDecimal | index.js:104-106 | severity and line number are rendered as digits, with a leading `-` exactly for negative values |
| Text.IntToDecimalInjective | index.js:104-106 | distinct severities or line numbers render as distinct text |
| Text.UpperChar | index.js:102 | one character of `toUpperCase`, ASCII case mapping only: an ASCII lower-case letter becomes its capital, any other character is kept, and no ASCII lower-case letter results |
| Text.ToUpperCase | index.js:102 | the upper-cased category has the input's length and is upper-cased character by character |
| Text.ToUpperCaseIdempotent | index.js:102 | the upper-cased category holds no lower-case ASCII letter and upper-casing it again changes nothing |
| HtmlEscape.EscapeHtml | vulnerableDemo.js:89-93 | definition: the five global replacements in source order, `&` first; its properties are the lemmas below, chiefly `EscapeHtmlIsPerChar` |
| HtmlEscape.ReplaceAll | vulnerableDemo.js:90-92 | a global replacement of a character that does not occur returns the string unchanged |
| HtmlEscape.ReplaceAllAppend | vulnerableDemo.js:90-92 | a global replacement acts on the two halves of a concatenation independently |
| HtmlEscape.Entity | vulnerableDemo.js:90-92 | each character's replacement is non-empty, and longer than one character exactly for the five special characters |
| HtmlEscape.EscapeHtmlChar | vulnerableDemo.js:90-92 | on one character the five passes give exactly that character's entity (`&amp;`, `&lt;`, `&gt;`, `&quot;`, `&#39;`, else itself) |
| HtmlEscape.EscapeHtmlAppend | vulnerableDemo.js:90-92 | escaping distributes over concatenation |
| HtmlEscape.EscapeHtmlIsPerChar | vulnerableDemo.js:89-93 | the chain of five passes equals the per-character entity map, so no entity produced by a later pass is escaped again |
| HtmlEscape.EscapeEachNoMarkup | vulnerableDemo.js:90-92 | the per-character map leaves no `<`, `>`, `"` or `'` |
| HtmlEscape.NoMarkupRemains | vulnerableDemo.js:90-92 | the output of `escapeHtml` contains no `<`, `>`, `"` or `'` |
| HtmlEscape.EscapeEachAmpersands | vulnerableDemo.js:90 | in the per-character map every `&` starts one of the five entities |
| HtmlEscape.AmpersandsStartEntities | vulnerableDemo.js:90 | every `&` in the output of `escapeHtml` starts one of the five entities |
| HtmlEscape.EscapeEachLength | vulnerableDemo.js:90-92 | the per-character map never shortens; its output has the same length exactly when no special character occurs, and is then the input |
| HtmlEscape.EscapeHtmlLength | vulnerableDemo.js:90-92 | the output is at least as long as the input, and equally long exactly when the input holds none of the five characters |
| HtmlEscape.EscapeHtmlFixedPoints | vulnerableDemo.js:90-92 | a string is returned unchanged if and only if it holds none of the five special characters |
| HtmlEscape.EntityPrefixDetermines | vulnerableDemo.js:90-92 | no entity is a prefix of another, so the first entity of an output determines the character and the rest |
| HtmlEscape.EscapeEachInjective | vulnerableDemo.js:90-92 | the per-character map is injective |
| HtmlEscape.EscapeHtmlInjective | vulnerableDemo.js:90-92 | distinct inputs give distinct escaped outputs |
| Prompt.BuildPrompt | index.js:28-75 | definition: `Embed(Opening, diffText, Instructions)`, where the constants `Opening` (index.js:28) and `Instructions` (index.js:30-75) hold the template's text; its layout is `Prompt.EmbedLayout` |
| Prompt.Embed | index.js:28-30 | definition: the template's join of the opening line, a line break, the diff, a line break and the instructions; proved by `Prompt.EmbedLayout` |
| Prompt.EmbedLayout | index.js:28-30 | the prompt is the opening line, then the whole diff verbatim and untruncated on the next line, then a line break and the instructions |
| Prompt.EmbedInjective | index.js:28-30 | the diff can be read back from the prompt: distinct diffs give distinct prompts |
| Prompt.BuildPromptInjective | index.js:28-29 | the diff can be read back from the prompt actually sent: distinct diffs give distinct prompts |
| Render.Header | index.js:90-96 | definition: the opening of the comment body; its layout is `Render.HeaderLayout` |
| Render.HeaderLayout | index.js:90-96 | the body opens with a line break, the summary unchanged, the rule and the `### 💡 **Suggestions**` heading |
| Render.SnippetShown | index.js:110 | definition: the snippet, or `// Code snippet not provided.` when it is empty (the falsy empty string); used by `Render.BlockShowsFields` |
| Render.BlockParts | index.js:100-117 | definition: the pieces of one block's template literal, in order; `Render.PartAt` and `Render.PartsInOrder` place them |
| Render.RenderBlock | index.js:100-117 | definition: the concatenation of `BlockParts`; what a block shows is `Render.BlockShowsFields` |
| Render.BlockShowsFields | index.js:100-117 | a block starts with its 1-based number and contains the upper-cased category in `**[...]**`, the issue text, `severity/5`, the file path in backticks, the line number, the snippet in a fence (the placeholder when the snippet is empty) and the recommendation |
| Render.ConcatContainsPart | index.js:100-117 | every piece of a block occurs in the block |
| Render.ConcatAppend | index.js:100-117 | concatenating pieces distributes over splitting the list of pieces |
| Render.PartAt | index.js:100-117 | piece `k` sits right after the pieces before it |
| Render.PartsInOrder | index.js:100-117 | earlier pieces end before later pieces begin |
| Render.BlocksAppend | index.js:98-118 | rendering `a + b` renders `a`, then `b` numbered on from where `a` stopped |
| Render.BlocksSnoc | index.js:98-118 | one more suggestion adds its block, numbered after the others, at the end |
| Render.CommentBody | index.js:90-118 | definition: the header followed by one block per suggestion numbered from 1; `Render.RenderCommentBody` is proved equal to it and `Render.SuggestionBlockAt` places each block |
| Render.SuggestionBlockAt | index.js:98-118 | the body holds exactly one block per suggestion in input order: block `k + 1` follows the header and the blocks before it |
| Render.CommentBodyStartsWithHeader | index.js:90-118 | the body starts with the header, and is the header alone exactly when there are no suggestions |
| Render.RenderStep | index.js:100-117 | appending the next block to header plus blocks `1..i` gives header plus blocks `1..i+1` |
| Render.RenderCommentBody | index.js:90-118 | the appending loop builds exactly the specified body; its invariant is header plus the blocks of the first `i` suggestions |
| Render.CounterText | index.js:131-134 | definition: a token counter as a template literal prints it, `undefined` when it is absent |
| Render.Footer | index.js:129-135 | definition: the concatenation of the footer's lines; their order is `Render.FooterCountersInOrder` |
| Render.PostedBody | index.js:125-135 | definition: banner, comment body, footer; its layout is `Render.PostedBodyLayout` |
| Render.FooterCountersInOrder | index.js:129-135 | the footer lists the version and then the prompt, candidates, total and thoughts token counters, in that order |
| Render.PostedBodyLayout | index.js:125-135 | the posted text is the `# AI PR REVIEW BOT` banner, the comment body intact, then the footer |
| Render.PostedBodyInjective | index.js:125-135 | for the same model info, the posted text determines the comment body |
| Pipeline.IsOk | index.js:142-143 | definition: `res.ok`, a status in the 2xx range; used by `Pipeline.Attempt` |
| Pipeline.Attempt | index.js:81-148 | an attempt succeeds (its comment's POST is acknowledged) exactly when the reply parsed and the POST got a 2xx answer; a non-ok answer is a failure |
| Pipeline.RetryFrom | index.js:149-157 | from counter `retry` at most `maxRetry + 1 - retry` attempts run, each sending the same prompt; the run ends with exit 0 and one acknowledged comment or exit 1 and none, and exit 1 only after all remaining attempts |
| Pipeline.RetryFromFirstSuccess | index.js:149-157 | the first successful attempt ends the run with exit 0, after exactly the attempts before it, posting that attempt's reply |
| Pipeline.RetryFromAllFail | index.js:149-157 | the run exits with 1 if and only if every remaining attempt fails |
| Pipeline.Run | index.js:23-26 | an empty diff exits 0 with no provider call and no comment; otherwise 1 to 4 attempts send the prompt, and a comment POST was acknowledged exactly when the exit code is 0 |
| Pipeline.FirstSuccessEndsRun | index.js:142-156 | with a non-empty diff, the first success at attempt `k` means exit 0, `k + 1` provider calls and that attempt's reply as the acknowledged comment (the non-empty diff is what gets past the exit at index.js:23-26) |
| Pipeline.ExitOneIffAllAttemptsFail | index.js:149-156 | with a non-empty diff, exit code 1 holds if and only if all four attempts fail, and then four provider calls were made |
| Pipeline.ReviewRun.constructor | index.js:78-79 | the script starts with the counter at 0, nothing sent, nothing posted and no exit |
| Pipeline.ReviewRun.AiPRBot | index.js:80-157 | one attempt, then a retry with the counter one higher or exit 1; the prompts sent, the replies posted, the exit and the final counter are those of `RetryFrom` |
| Pipeline.TryOnce | index.js:81-148 | one pass through the `try` block: its outcome is `Attempt`, and the POST body is banner, rendered body and footer of the parsed reply |
| Pipeline.ReviewWith | index.js:159 | `aiPRBot()` on a fresh state yields exactly `RetryFrom(0, ..)` |
| Script.RunReview | index.js:23-30 | the whole script is `Run` on the prompt built from the diff |

## Left out

- The provider client and its `generateContent` call, the GitHub `fetch`, `diff_extractor`, `dotenv` and reading the event file are not modelled. Their results are the oracle `world` and the input `diffText`; diff_extractor.js is not part of this model.
- `JSON.parse` of the model text is not modelled. The parsed reply is the `ModelReply` datatype, and a parse failure, or a reply without `suggestions`, is a failed attempt (`completion == None`). Fields read as `undefined` are not modelled, except for the token counters, which render as `undefined`.
- Severity, line number and the token counters are integers. JSON numbers with a fraction or an exponent are not modelled.
- The response time is wall-clock floating point and is taken as an opaque string.
- Retry ordering: the source calls the unawaited `aiPRBot()` before `retry++`. The model assumes every failure happens after the first `await`, so the retried attempt checks the counter after the increment. A synchronous throw would see a stale counter.
- `console.log`/`console.error` output is not modelled. Of `process.exit`, only the exit code is kept.
- Pipeline.RunResult: records which parsed replies were posted, not the posted strings. The text of each comment is stated by `Pipeline.TryOnce` and `Render.PostedBodyLayout`.
- Text.ToUpperCase, Text.UpperChar: only ASCII letters are upper-cased and every other character is kept. JavaScript's full Unicode case mapping (for example `é` becoming `É`, or `ß` becoming `SS`) is not modelled.
- Text.IntToDecimal: severity, line number and the token counters are unbounded integers printed in plain digits. JavaScript numbers are doubles: `JSON.parse` rounds integers beyond 2^53 (9007199254740993 becomes 9007199254740992), and magnitudes of 10^21 or more print in exponent form (`1e+21`). The model does not capture either.
- Pipeline.RunResult, Pipeline.Attempt: a success means the POST was answered with a 2xx status. GitHub may create the comment and the answer still be lost (a network error, or a non-2xx answer from a proxy); the run then retries and can leave duplicate comments. The model counts only acknowledged comments and does not bound the comments actually created.
- `String(str)` coercion in `escapeHtml` is not modelled; the input is a string.
- The Express routes, SQLite, file reads and server lifecycle of vulnerableDemo.js are not modelled, and neither is test.js; they are I/O demo code.
- `index.js` makes up to `maxRetry + 1 = 4` attempts; it does not truncate the diff and does not validate the reply's schema. The model follows the code.
- No lemma states what the instruction text says (for example that it asks for a JSON reply); the constant `Instructions` holds the template's text exactly.
- The layout of `Prompt.BuildPrompt` (opening, diff, instructions) is stated by `Prompt.EmbedLayout` for every opening and every tail, and so for `Opening` and `Instructions`, but it is not restated on `BuildPrompt` itself: slicing the prompt literal costs the verifier more than 3,000,000 resource units, above the limit of 2,000,000 the project is verified with. `Prompt.BuildPromptInjective` is stated on `BuildPrompt` directly.
