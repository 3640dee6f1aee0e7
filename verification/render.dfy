/**
 * The review comment of index.js: the parsed model reply rendered as a
 * markdown body (summary, a "Suggestions" heading, one numbered block per
 * suggestion), then wrapped in the bot's banner and a model-info footer.
 */
module Render {
  import Text

  /** One suggestion of the model's reply, with the fields the renderer reads. */
  datatype Suggestion = Suggestion(
    issue: string,
    severity: int,
    category: string,
    filePath: string,
    lineNumber: int,
    codeSnippet: string,
    recommendation: string)

  /** The parsed model reply. */
  datatype ModelReply = ModelReply(summary: string, suggestions: seq<Suggestion>)

  /** A token counter of the provider's usage metadata; a missing one is interpolated as "undefined". */
  datatype Counter = Count(n: int) | Undefined

  /** What the provider reports beside its reply; the response time is wall-clock text. */
  datatype ModelInfo = ModelInfo(
    modelVersion: string,
    promptTokens: Counter,
    candidatesTokens: Counter,
    totalTokens: Counter,
    thoughtsTokens: Counter,
    responseTime: string)

  const SuggestionsHeading: string := "### \U{1F4A1} **Suggestions**"
  const SnippetPlaceholder: string := "// Code snippet not provided."
  const Banner: string := "\n# AI PR REVIEW BOT\n\n"

  /** `k` is a position at which `needle` occurs in `hay`. */
  predicate Occurs(hay: string, needle: string, k: nat) {
    k + |needle| <= |hay| && hay[k..k + |needle|] == needle
  }

  predicate Contains(hay: string, needle: string) {
    exists k: nat :: k <= |hay| && Occurs(hay, needle, k)
  }

  lemma OccursBetween(a: string, x: string, b: string)
    ensures Occurs(a + x + b, x, |a|)
  {
  }

  /** The opening of the comment body: the summary, a rule, and the "Suggestions" heading. */
  function Header(summary: string): string {
    "\n" + summary + "\n\n---\n\n" + SuggestionsHeading + "\n"
  }

  /** The header is a newline, the summary unchanged, then the rule and the heading. */
  lemma HeaderLayout(summary: string)
    ensures |Header(summary)| > 1 + |summary|
    ensures Header(summary)[0] == '\n' && Header(summary)[1..1 + |summary|] == summary
    ensures Header(summary)[1 + |summary|..] == "\n\n---\n\n" + SuggestionsHeading + "\n"
  {
  }

  /** `s.codeSnippet || placeholder`: the empty string is falsy. */
  function SnippetShown(s: Suggestion): string {
    if s.codeSnippet != "" then s.codeSnippet else SnippetPlaceholder
  }

  /** The pieces of text a block is made of, in order. */
  function BlockParts(i: nat, s: Suggestion): seq<string> {
    [ NumberText(i), CategoryTag(s), " \U{2014} ", s.issue,
      "\n\n", SeverityText(s), "  \n", FilePathText(s), "  \n", LineNumberText(s),
      "\n**Code Snippet:**  \n", SnippetFence(s),
      "\n\n", RecommendationText(s), "\n---\n" ]
  }

  /** The concatenation of `parts`, in order. */
  function Concat(parts: seq<string>): string {
    if parts == [] then "" else parts[0] + Concat(parts[1..])
  }

  /** The markdown block of the suggestion at 0-based position `i`. */
  function RenderBlock(i: nat, s: Suggestion): string {
    Concat(BlockParts(i, s))
  }

  /** The heading of the block at 0-based position `i`, numbered from 1. */
  function NumberText(i: nat): string {
    "\n\n#### " + Text.NatToDecimal(i + 1) + ". "
  }

  function CategoryTag(s: Suggestion): string {
    "**[" + Text.ToUpperCase(s.category) + "]**"
  }

  function SeverityText(s: Suggestion): string {
    "> **Severity:** " + Text.IntToDecimal(s.severity) + "/5"
  }

  function FilePathText(s: Suggestion): string {
    "> **File Path:** `" + s.filePath + "`"
  }

  function LineNumberText(s: Suggestion): string {
    "> **Line Number:** " + Text.IntToDecimal(s.lineNumber) + "\n"
  }

  function SnippetFence(s: Suggestion): string {
    "```\n" + SnippetShown(s) + "\n```"
  }

  function RecommendationText(s: Suggestion): string {
    "**\U{1F6E0} Recommendation:**  \n" + s.recommendation + "\n"
  }

  /** Every part occurs in the concatenation of the parts. */
  lemma {:induction false} ConcatContainsPart(parts: seq<string>, k: nat)
    requires k < |parts|
    ensures Contains(Concat(parts), parts[k])
  {
    var whole := Concat(parts);
    if k == 0 {
      assert whole[..|parts[0]|] == parts[0];
      assert Occurs(whole, parts[0], 0);
    } else {
      ConcatContainsPart(parts[1..], k - 1);
      var rest := Concat(parts[1..]);
      var j: nat :| j <= |rest| && Occurs(rest, parts[k], j);
      assert whole[|parts[0]| + j..|parts[0]| + j + |parts[k]|] == rest[j..j + |parts[k]|];
      assert Occurs(whole, parts[k], |parts[0]| + j);
    }
  }

  /**
   * Each block opens with its 1-based number and shows the category upper-cased
   * in `**[...]**`, the severity as `n/5`, the file path in backticks, the line
   * number, the snippet (or the placeholder when it is empty) in a fence, and
   * the recommendation.
   */
  lemma BlockShowsFields(i: nat, s: Suggestion)
    ensures "\n\n#### " + Text.NatToDecimal(i + 1) + ". " <= RenderBlock(i, s)
    ensures Contains(RenderBlock(i, s), "**[" + Text.ToUpperCase(s.category) + "]**")
    ensures Contains(RenderBlock(i, s), s.issue)
    ensures Contains(RenderBlock(i, s), "> **Severity:** " + Text.IntToDecimal(s.severity) + "/5")
    ensures Contains(RenderBlock(i, s), "> **File Path:** `" + s.filePath + "`")
    ensures Contains(RenderBlock(i, s), "> **Line Number:** " + Text.IntToDecimal(s.lineNumber) + "\n")
    ensures s.codeSnippet != "" ==> Contains(RenderBlock(i, s), "```\n" + s.codeSnippet + "\n```")
    ensures s.codeSnippet == "" ==> Contains(RenderBlock(i, s), "```\n" + SnippetPlaceholder + "\n```")
    ensures Contains(RenderBlock(i, s), "**\U{1F6E0} Recommendation:**  \n" + s.recommendation + "\n")
  {
    var parts := BlockParts(i, s);
    assert parts[0] <= RenderBlock(i, s);
    ConcatContainsPart(parts, 1);
    ConcatContainsPart(parts, 3);
    ConcatContainsPart(parts, 5);
    ConcatContainsPart(parts, 7);
    ConcatContainsPart(parts, 9);
    ConcatContainsPart(parts, 11);
    ConcatContainsPart(parts, 13);
  }

  lemma {:induction false} ConcatAppend(a: seq<string>, b: seq<string>)
    ensures Concat(a + b) == Concat(a) + Concat(b)
  {
    if a == [] {
      assert a + b == b;
    } else {
      assert (a + b)[1..] == a[1..] + b;
      ConcatAppend(a[1..], b);
    }
  }

  /** Part `k` sits in the concatenation right after the parts before it. */
  lemma PartAt(parts: seq<string>, k: nat)
    requires k < |parts|
    ensures Occurs(Concat(parts), parts[k], |Concat(parts[..k])|)
  {
    assert parts == parts[..k] + ([parts[k]] + parts[k + 1..]);
    ConcatAppend(parts[..k], [parts[k]] + parts[k + 1..]);
    ConcatAppend([parts[k]], parts[k + 1..]);
    assert Concat([parts[k]]) == parts[k];
    OccursBetween(Concat(parts[..k]), parts[k], Concat(parts[k + 1..]));
  }

  /** Earlier parts end before later parts begin. */
  lemma PartsInOrder(parts: seq<string>, j: nat, k: nat)
    requires j < k <= |parts|
    ensures |Concat(parts[..j])| + |parts[j]| <= |Concat(parts[..k])|
  {
    assert parts[..k] == parts[..j] + ([parts[j]] + parts[j + 1..k]);
    ConcatAppend(parts[..j], [parts[j]] + parts[j + 1..k]);
    ConcatAppend([parts[j]], parts[j + 1..k]);
    assert Concat([parts[j]]) == parts[j];
  }

  /** The blocks of `ss`, numbered from position `start`. */
  function BlocksFrom(start: nat, ss: seq<Suggestion>): string
    decreases |ss|
  {
    if ss == [] then "" else RenderBlock(start, ss[0]) + BlocksFrom(start + 1, ss[1..])
  }

  /** The comment body the loop of index.js builds: the header, then one block per suggestion. */
  function CommentBody(reply: ModelReply): string {
    Header(reply.summary) + BlocksFrom(0, reply.suggestions)
  }

  /** Rendering `a + b` is rendering `a`, then rendering `b` numbered on from where `a` stopped. */
  lemma {:induction false} BlocksAppend(start: nat, a: seq<Suggestion>, b: seq<Suggestion>)
    ensures BlocksFrom(start, a + b) == BlocksFrom(start, a) + BlocksFrom(start + |a|, b)
    decreases |a|
  {
    if a == [] {
      assert a + b == b;
    } else {
      assert (a + b)[1..] == a[1..] + b;
      BlocksAppend(start + 1, a[1..], b);
    }
  }

  lemma AppendAssoc<T>(a: seq<T>, b: seq<T>, c: seq<T>)
    ensures a + b + c == a + (b + c)
  {
  }

  /** One more suggestion adds its block, numbered after the others, at the end. */
  lemma BlocksSnoc(start: nat, ss: seq<Suggestion>, s: Suggestion)
    ensures BlocksFrom(start, ss + [s]) == BlocksFrom(start, ss) + RenderBlock(start + |ss|, s)
  {
    BlocksAppend(start, ss, [s]);
    assert BlocksFrom(start + |ss|, [s]) == RenderBlock(start + |ss|, s) + BlocksFrom(start + |ss| + 1, []);
  }

  /**
   * The body holds exactly one block per suggestion, in input order: the block
   * of suggestion `k`, numbered `k + 1`, comes right after the header and the
   * blocks of the suggestions before it, and the blocks of those after it follow.
   */
  lemma SuggestionBlockAt(reply: ModelReply, k: nat)
    requires k < |reply.suggestions|
    ensures CommentBody(reply)
         == Header(reply.summary)
          + BlocksFrom(0, reply.suggestions[..k])
          + RenderBlock(k, reply.suggestions[k])
          + BlocksFrom(k + 1, reply.suggestions[k + 1..])
  {
    var ss := reply.suggestions;
    var tail := ss[k..];
    assert ss == ss[..k] + tail;
    BlocksAppend(0, ss[..k], tail);
    assert tail[0] == ss[k] && tail[1..] == ss[k + 1..];
    var h, before, block, after := Header(reply.summary), BlocksFrom(0, ss[..k]), RenderBlock(k, ss[k]), BlocksFrom(k + 1, ss[k + 1..]);
    assert BlocksFrom(k, tail) == block + after;
    AppendAssoc(h, before, block + after);
    AppendAssoc(h + before, block, after);
  }

  /** With no suggestions the body is the header alone; otherwise the header is followed by blocks. */
  lemma CommentBodyStartsWithHeader(reply: ModelReply)
    ensures Header(reply.summary) <= CommentBody(reply)
    ensures CommentBody(reply) == Header(reply.summary) <==> reply.suggestions == []
  {
  }

  /** Appending the next block to a partly built body extends it by one suggestion. */
  lemma RenderStep(header: string, ss: seq<Suggestion>, i: nat)
    requires i < |ss|
    ensures header + BlocksFrom(0, ss[..i]) + RenderBlock(i, ss[i]) == header + BlocksFrom(0, ss[..i + 1])
  {
    assert ss[..i + 1] == ss[..i] + [ss[i]];
    BlocksSnoc(0, ss[..i], ss[i]);
    AppendAssoc(header, BlocksFrom(0, ss[..i]), RenderBlock(i, ss[i]));
  }

  /**
   * index.js builds the comment body in a loop that appends one block per
   * suggestion; after `i` rounds the body is the header followed by the blocks
   * of the first `i` suggestions.
   */
  method RenderCommentBody(reply: ModelReply) returns (body: string)
    ensures body == CommentBody(reply)
  {
    var ss := reply.suggestions;
    body := Header(reply.summary);
    var i := 0;
    while i < |ss|
      invariant 0 <= i <= |ss|
      invariant body == Header(reply.summary) + BlocksFrom(0, ss[..i])
    {
      RenderStep(Header(reply.summary), ss, i);
      body := body + RenderBlock(i, ss[i]);
      i := i + 1;
    }
    assert ss[..i] == ss;
  }

  /** How a template literal interpolates a token counter. */
  function CounterText(c: Counter): string {
    match c
    case Count(n) => Text.IntToDecimal(n)
    case Undefined => "undefined"
  }

  /** One line of the footer's bullet list. */
  function InfoLine(name: string, value: string): string {
    "\n- " + name + ": " + value
  }

  /** The lines of the model-info footer, in order. */
  function FooterParts(info: ModelInfo): seq<string> {
    [ "\n**Model Info:**",
      InfoLine("Version", info.modelVersion),
      InfoLine("Prompt Tokens", CounterText(info.promptTokens)),
      InfoLine("Candidates Tokens", CounterText(info.candidatesTokens)),
      InfoLine("Total Tokens", CounterText(info.totalTokens)),
      InfoLine("Thoughts Tokens", CounterText(info.thoughtsTokens)),
      InfoLine("Model Response Time", info.responseTime + "s") ]
  }

  function Footer(info: ModelInfo): string {
    Concat(FooterParts(info))
  }

  /**
   * The footer reports the model version and then the four token counters in
   * the fixed order prompt, candidates, total, thoughts.
   */
  lemma FooterCountersInOrder(info: ModelInfo)
    ensures exists v: nat, p: nat, c: nat, t: nat, th: nat ::
              v < p < c < t < th
              && Occurs(Footer(info), InfoLine("Version", info.modelVersion), v)
              && Occurs(Footer(info), InfoLine("Prompt Tokens", CounterText(info.promptTokens)), p)
              && Occurs(Footer(info), InfoLine("Candidates Tokens", CounterText(info.candidatesTokens)), c)
              && Occurs(Footer(info), InfoLine("Total Tokens", CounterText(info.totalTokens)), t)
              && Occurs(Footer(info), InfoLine("Thoughts Tokens", CounterText(info.thoughtsTokens)), th)
  {
    var parts := FooterParts(info);
    var v, p, c, t, th := |Concat(parts[..1])|, |Concat(parts[..2])|, |Concat(parts[..3])|, |Concat(parts[..4])|, |Concat(parts[..5])|;
    PartAt(parts, 1);
    PartAt(parts, 2);
    PartAt(parts, 3);
    PartAt(parts, 4);
    PartAt(parts, 5);
    PartsInOrder(parts, 1, 2);
    PartsInOrder(parts, 2, 3);
    PartsInOrder(parts, 3, 4);
    PartsInOrder(parts, 4, 5);
    assert Footer(info) == Concat(parts);
    assert Occurs(Footer(info), parts[1], v) && Occurs(Footer(info), parts[2], p) && Occurs(Footer(info), parts[3], c);
    assert Occurs(Footer(info), parts[4], t) && Occurs(Footer(info), parts[5], th);
  }

  /**
   * The comment posted to the pull request: the bot banner, the comment body
   * intact, then the model-info footer.
   */
  function PostedBody(commentBody: string, info: ModelInfo): string {
    Banner + commentBody + Footer(info)
  }

  /** The posted comment is the banner, then the comment body intact, then the footer. */
  lemma PostedBodyLayout(commentBody: string, info: ModelInfo)
    ensures |PostedBody(commentBody, info)| == |Banner| + |commentBody| + |Footer(info)|
    ensures PostedBody(commentBody, info)[..|Banner|] == Banner
    ensures PostedBody(commentBody, info)[|Banner|..|Banner| + |commentBody|] == commentBody
    ensures PostedBody(commentBody, info)[|Banner| + |commentBody|..] == Footer(info)
  {
  }

  /** For the same model info, different comment bodies give different posted comments. */
  lemma PostedBodyInjective(a: string, b: string, info: ModelInfo)
    ensures PostedBody(a, info) == PostedBody(b, info) ==> a == b
  {
    PostedBodyLayout(a, info);
    PostedBodyLayout(b, info);
  }
}
