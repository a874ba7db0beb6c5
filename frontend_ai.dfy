// The simulated AI features of the web demo (frontend/js/ai-integration.js):
// the keyword predicate behind the moderation banner, the banner it drives,
// and the placeholder translation.
module FrontendAi {
  import opened Text
  import Moderation

  /** The demo's word list. */
  const FrontendWords: seq<string> := ["naked", "nude", "explicit", "xxx", "porn"]

  /** `words.some(word => lowered.includes(word))`, scanning left to right. */
  function SomeIncluded(words: seq<string>, lowered: string): (r: bool)
    ensures r <==> exists i :: 0 <= i < |words| && Contains(lowered, words[i])
  {
    if words == [] then false
    else Contains(lowered, words[0]) || SomeIncluded(words[1..], lowered)
  }

  /** The predicate of simulateAIContentModeration. */
  predicate HasInappropriateContent(text: string)
  {
    SomeIncluded(FrontendWords, Lower(text))
  }

  /** The AI status panel: its inner HTML and its background colour. */
  datatype Banner = Banner(html: string, background: string)

  const MonitoringBanner: Banner :=
    Banner("<span>AI is monitoring conversations for quality and safety</span>", "rgba(37, 211, 102, 0.2)")

  const WarningBanner: Banner :=
    Banner("<span>AI detected potentially inappropriate content. Content has been flagged for review.</span>",
           "rgba(255, 204, 0, 0.2)")

  /** One call of simulateAIContentModeration on the current panel: the panel
      afterwards, and whether the five-second reset to MonitoringBanner was
      scheduled. Without a match the call has no effect at all. */
  function SimulateAIContentModeration(text: string, panel: Banner): (r: (Banner, bool))
    ensures r.1 <==> HasInappropriateContent(text)
    ensures r.0 == if r.1 then WarningBanner else panel
  {
    if HasInappropriateContent(text) then (WarningBanner, true) else (panel, false)
  }

  /** The demo's predicate and the server's fallback check agree on every
      input: the two lists hold the same words, and matching is the same
      lower-cased substring test. */
  lemma FrontendAgreesWithBackend(text: string)
    ensures (set w | w in FrontendWords) == (set w | w in Moderation.InappropriateWords)
    ensures HasInappropriateContent(text) <==> Moderation.AnyOccurs(Moderation.InappropriateWords, Lower(text))
  {
    Moderation.RepeatedWordsIrrelevant(Lower(text));
    assert FrontendWords == Moderation.DistinctWords;
  }

  /** Matching ignores case: "NUDE" raises the warning. */
  lemma FrontendUpperCaseFlagged()
    ensures HasInappropriateContent("NUDE")
  {
    assert Lower("NUDE") == "nude";
    assert Contains(Lower("NUDE"), FrontendWords[1]);
  }

  const TranslationPrefix: string := "[Translated to "

  /** simulateAITranslation: the tagged input. The output is the fixed prefix,
      the language, "] " and then the untouched input as a suffix. */
  function SimulateAITranslation(text: string, targetLanguage: string): (r: string)
    ensures |r| == |TranslationPrefix| + |targetLanguage| + 2 + |text|
    ensures r[..|TranslationPrefix|] == TranslationPrefix
    ensures r[|TranslationPrefix|..|TranslationPrefix| + |targetLanguage|] == targetLanguage
    ensures r[|TranslationPrefix| + |targetLanguage|..|r| - |text|] == "] "
    ensures r[|r| - |text|..] == text
  {
    TranslationPrefix + targetLanguage + "] " + text
  }

  /** For one target language, different inputs never give the same output,
      so the original text can always be read back off the end. */
  lemma TranslationInjective(a: string, b: string, targetLanguage: string)
    requires SimulateAITranslation(a, targetLanguage) == SimulateAITranslation(b, targetLanguage)
    ensures a == b
  {
    var r := SimulateAITranslation(a, targetLanguage);
    assert a == r[|r| - |a|..];
    assert b == r[|r| - |b|..];
  }
}
