/** The query actually sent to the engine: the user's text with a fixed instruction to answer in Italian. */
module Prompt {
  /** The instruction appended to every prompt. */
  const ItalianInstruction: string := ". Rispondi sempre e solo in italiano"

  /** The augmented query: the prompt, unchanged, followed by the instruction. */
  function Augment(prompt: string): (query: string)
    ensures |query| == |prompt| + |ItalianInstruction|
    ensures query[..|prompt|] == prompt
    ensures query[|prompt|..] == ItalianInstruction
  {
    prompt + ItalianInstruction
  }

  /** Different prompts give different queries, so the engine always sees which prompt was typed. */
  lemma AugmentInjective(p: string, q: string)
    requires Augment(p) == Augment(q)
    ensures p == q
  {
  }
}
