/**
 * The review prompt of index.js: a fixed instruction template with the pull
 * request's diff embedded whole, between the opening instruction line and the
 * list of review focus areas and output format.
 */
module Prompt {

  /** The first line of the prompt, which the diff follows. */
  const Opening: string := "You are an expert senior software engineer conducting a thorough code review. Analyze the provided git diff and provide comprehensive feedback covering:"

  /** Everything after the diff: focus areas, the JSON reply format and the review guidelines. */
  const Instructions: string :=
    "**Review Focus Areas:**\n"
    + "1. **Language-Specific Best Practices**: First identify the programming language(s) in the diff, then apply language-specific idioms, conventions\n"
    + "2. **Security Issues**: SQL injection, XSS vulnerabilities, authentication/authorization flaws, sensitive data exposure, insecure dependencies, hardcoded secrets\n"
    + "3. **Performance**: Inefficient algorithms, memory leaks, unnecessary re-renders, N+1 queries, blocking operations, excessive API calls\n"
    + "4. **Code Quality**: Code duplication, excessive complexity, poor naming, missing documentation, overly long functions/files\n"
    + "5. **Maintainability**: Tight coupling, lack of modularity, insufficient test coverage, brittle code, unclear logic\n"
    + "6. **Style & Conventions**: Inconsistent formatting, naming conventions, project style guide violations\n"
    + "7. **Bugs & Edge Cases**: Logic errors, race conditions, null/undefined handling, boundary conditions\n"
    + "\n"
    + "**Response Format:**\n"
    + "AI response should be in json format not as markdown but inside the json you can use markdowns to highlight, directly without any extra marking send as json so that its easy to parse using JSON.parse(). Always give JSON output through out the response.\n"
    + "Strictly Return output as json in below format and use Markdown inside the json strictly:\n"
    + "{\n"
    + "  \"summary\": \"A concise sentences overview of the changes and overall code quality\",\n"
    + "  \"suggestions\": [\n"
    + "    {\n"
    + "      \"issue\": \"string describing only actionable issue, bug, or vulnerability\",\n"
    + "      \"severity\": 1-5 (1=critical/blocking, 2=major, 3=moderate, 4=minor, 5=trivial),\n"
    + "      \"codeSnippet\": \"small snippet of code always required to describing the issue, bug, or vulnerability\"\n"
    + "      \"category\": \"security\" | \"performance\" | \"readability\" | \"maintainability\" | \"style\" | \"other\",\n"
    + "      \"filePath\": \"The full file path from the diff (e.g., 'src/api/users.ts')\",\n"
    + "      \"lineNumber\": The specific line number where the issue occurs (as integer, e.g., 45),\n"
    + "      \"recommendation\": \"Specific, actionable advice on how to fix the issue\"\n"
    + "    }\n"
    + "  ]\n"
    + "}\n"
    + "\n"
    + "**Important for Line Numbers & File Paths:**\n"
    + "- Use the line number from the new file version (the '+' lines in the diff)\n"
    + "- For issues spanning multiple lines, reference the first/most relevant line only\n"
    + "- Each suggestion must have a valid filePath and lineNumber for GitHub commenting\n"
    + "\n"
    + "**Severity Guidelines:**\n"
    + "- **1 (Critical)**: Security vulnerabilities, data loss risks, breaking changes, major bugs\n"
    + "- **2 (Major)**: Significant performance issues, violated best practices, poor error handling\n"
    + "- **3 (Moderate)**: Code smells, maintainability concerns, missing edge case handling\n"
    + "- **4 (Minor)**: Style inconsistencies, minor refactoring opportunities, documentation gaps\n"
    + "- **5 (Trivial)**: Nitpicks, optional improvements\n"
    + "\n"
    + "**Review Principles:**\n"
    + "- Be constructive and specific in feedback\n"
    + "- Explain *why* something is an issue, not just *what*\n"
    + "- Provide concrete examples or code snippets in recommendations\n"
    + "- Focus on impactful issues over nitpicks\n"
    + "- Flag anything that could cause production issues\n"

  /** `head`, a line break, `diffText`, a line break and `tail`, as the template literal joins them. */
  function Embed(head: string, diffText: string, tail: string): string {
    head + "\n" + diffText + "\n" + tail
  }

  /**
   * The diff sits verbatim and whole on the line after `head`, followed by a
   * line break and `tail`: nothing of it is truncated or altered.
   */
  lemma EmbedLayout(head: string, diffText: string, tail: string)
    ensures |Embed(head, diffText, tail)| == |head| + 1 + |diffText| + 1 + |tail|
    ensures Embed(head, diffText, tail)[..|head| + 1] == head + "\n"
    ensures Embed(head, diffText, tail)[|head| + 1..|head| + 1 + |diffText|] == diffText
    ensures Embed(head, diffText, tail)[|head| + 1 + |diffText|..] == "\n" + tail
  {
  }

  /** Different diffs give different prompts: the diff can be read back from the prompt. */
  lemma EmbedInjective(head: string, a: string, b: string, tail: string)
    ensures Embed(head, a, tail) == Embed(head, b, tail) ==> a == b
  {
    EmbedLayout(head, a, tail);
    EmbedLayout(head, b, tail);
  }

  /** The prompt sent to the completion provider for `diffText`. */
  function BuildPrompt(diffText: string): string {
    Embed(Opening, diffText, Instructions)
  }

  /** The diff can be read back from the prompt: distinct diffs give distinct prompts. */
  lemma BuildPromptInjective(a: string, b: string)
    ensures BuildPrompt(a) == BuildPrompt(b) ==> a == b
  {
    EmbedInjective(Opening, a, b, Instructions);
  }
}
