/**
 * `generate_content`: builds the prompt from the topic and its SEO keywords,
 * asks the text generator once, and strips what comes back. The generator
 * itself (a remote completion API in one script, a local GPT-2 pipeline in
 * the other) is outside the model: its text is an input, `None` when it
 * raised or its reply had no text.
 */
module Content {
  import opened Wrappers
  import opened Text
  import opened Catalog
  import opened Calls

  /** The length bound both scripts pass (`max_tokens`, `max_length`). */
  const MaxLength: nat := 200

  /** The fixed text of the prompt around the topic and the keywords, split into short literals. */
  const PromptOpening := "\n        " + "Write a short " + "LinkedIn post about "
  const PromptMiddle :=
    " in the context " + "of DevOps and " + "cloud-native " + "technologies.\n"
    + "        " + "The post should " + "be engaging, " + "informative, " + "and suitable for " + "a professional " + "audience.\n"
    + "        " + "Include relevant " + "keywords for " + "Google and " + "LinkedIn SEO: "
  const PromptClosing := ".\n        "

  predicate OccursAt(part: string, whole: string, i: nat) {
    i + |part| <= |whole| && whole[i..i + |part|] == part
  }

  ghost predicate Occurs(part: string, whole: string) {
    exists i :: OccursAt(part, whole, i)
  }

  /**
   * The prompt: the fixed opening, the topic, the fixed middle, the
   * keywords and the fixed closing. It opens and closes with the fixed text
   * and is exactly as long as its five parts together.
   */
  function Prompt(topic: string, keywords: string): (p: string)
    ensures |p| == |PromptOpening| + |topic| + |PromptMiddle| + |keywords| + |PromptClosing|
    ensures OccursAt(PromptOpening, p, 0)
    ensures OccursAt(PromptClosing, p, |p| - |PromptClosing|)
  {
    PromptOpening + topic + PromptMiddle + keywords + PromptClosing
  }

  /** The prompt names the topic and carries its keywords, at fixed offsets. */
  lemma PromptCarries(topic: string, keywords: string)
    ensures OccursAt(topic, Prompt(topic, keywords), |PromptOpening|)
    ensures OccursAt(keywords, Prompt(topic, keywords), |PromptOpening| + |topic| + |PromptMiddle|)
    ensures Occurs(topic, Prompt(topic, keywords)) && Occurs(keywords, Prompt(topic, keywords))
  {
    var p := Prompt(topic, keywords);
    assert OccursAt(topic, p, |PromptOpening|);
    assert OccursAt(keywords, p, |PromptOpening + topic + PromptMiddle|);
  }

  /**
   * `generate_content(topic)`. A topic without keywords raises `KeyError`
   * while the prompt is built, so the generator is not called and the result
   * is `None`. Otherwise the generator is called once with the prompt, and
   * its text is returned stripped: empty exactly when it was all whitespace.
   */
  function GenerateContent(topic: string, generated: Option<string>): (r: Stage<string>)
    ensures topic !in Topics ==> r == Stage(None, [])
    ensures topic in Topics ==> r.calls == [GenerateText(Prompt(topic, SeoKeywords[topic]), MaxLength)]
    ensures r.result.Some? <==> topic in Topics && generated.Some?
    ensures r.result.Some? ==> r.result.value == Strip(generated.value)
    ensures r.result.Some? ==> (r.result.value == "" <==> AllSpace(generated.value))
    ensures r.result.Some? && r.result.value != "" ==>
              !IsSpace(r.result.value[0]) && !IsSpace(r.result.value[|r.result.value| - 1])
  {
    match KeywordsFor(topic)
    case None => Stage(None, [])
    case Some(keywords) =>
      var calls := [GenerateText(Prompt(topic, keywords), MaxLength)];
      match generated
      case None => Stage(None, calls)
      case Some(text) => Stage(Some(Strip(text)), calls)
  }
}
