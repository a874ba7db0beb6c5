// The keyword fallback of the server's content moderation
// (backend/ai_integration.py): the check used when the moderation API call
// fails, and the human-readable reason built from a category table.
module Moderation {
  import opened Text

  /** The fallback word list, with its repeated entries as written. */
  const InappropriateWords: seq<string> := ["naked", "nude", "explicit", "xxx", "porn", "nude", "naked"]

  /** The same words without the repetitions. */
  const DistinctWords: seq<string> := ["naked", "nude", "explicit", "xxx", "porn"]

  /** A moderation verdict. Python dicts keep insertion order, so the category
      and score tables are sequences of (name, value) pairs. */
  datatype ModerationResult = ModerationResult(
    flagged: bool,
    categories: seq<(string, bool)>,
    categoryScores: seq<(string, real)>,
    reason: string)

  /** The verdict for text containing a listed word. */
  const FlaggedResult: ModerationResult :=
    ModerationResult(true, [("sexual", true)], [("sexual", 0.9)], "Contains inappropriate content")

  /** The verdict for text containing none of the listed words. */
  const CleanResult: ModerationResult := ModerationResult(false, [], [], "")

  /** Some word of `words` is a substring of `text`. */
  predicate AnyOccurs(words: seq<string>, text: string)
  {
    exists i :: 0 <= i < |words| && Contains(text, words[i])
  }

  /** The fallback check: scan the list in order and stop at the first word
      found in the lower-cased text. */
  method SimpleContentCheck(text: string) returns (r: ModerationResult)
    ensures r.flagged <==> AnyOccurs(InappropriateWords, Lower(text))
    ensures r == if r.flagged then FlaggedResult else CleanResult
  {
    var textLower := Lower(text);
    var i := 0;
    while i < |InappropriateWords|
      invariant 0 <= i <= |InappropriateWords|
      invariant forall j :: 0 <= j < i ==> !Contains(textLower, InappropriateWords[j])
    {
      if Contains(textLower, InappropriateWords[i]) {
        return FlaggedResult;
      }
      i := i + 1;
    }
    return CleanResult;
  }

  /** The repeated entries of the list change no verdict. */
  lemma RepeatedWordsIrrelevant(text: string)
    ensures AnyOccurs(InappropriateWords, text) <==> AnyOccurs(DistinctWords, text)
  {
    if AnyOccurs(InappropriateWords, text) {
      var i :| 0 <= i < |InappropriateWords| && Contains(text, InappropriateWords[i]);
      var j := if i == 5 then 1 else if i == 6 then 0 else i;
      assert DistinctWords[j] == InappropriateWords[i];
    }
    if AnyOccurs(DistinctWords, text) {
      var j :| 0 <= j < |DistinctWords| && Contains(text, DistinctWords[j]);
      assert InappropriateWords[j] == DistinctWords[j];
    }
  }

  lemma ListedWordsAreLower(k: int)
    requires 0 <= k < |InappropriateWords|
    ensures IsLower(InappropriateWords[k])
  {
  }

  /** Matching is by substring and ignores case on the input side: a listed
      word embedded anywhere, in any surrounding text, is flagged. */
  lemma EmbeddedWordFlagged(before: string, k: int, after: string)
    requires 0 <= k < |InappropriateWords|
    ensures AnyOccurs(InappropriateWords, Lower(before + InappropriateWords[k] + after))
  {
    var w := InappropriateWords[k];
    ListedWordsAreLower(k);
    LowerOfLower(w);
    LowerAppend(before + w, after);
    LowerAppend(before, w);
    ContainsInfix(Lower(before), w, Lower(after));
  }

  /** A message and its lower-cased form get the same verdict. */
  lemma LowerCasedSameVerdict(text: string)
    ensures AnyOccurs(InappropriateWords, Lower(Lower(text))) <==> AnyOccurs(InappropriateWords, Lower(text))
  {
    LowerIdempotent(text);
  }

  /** Upper-case input is flagged: "NUDE" lower-cases to a listed word. */
  lemma UpperCaseFlagged()
    ensures AnyOccurs(InappropriateWords, Lower("NUDE"))
  {
    assert Lower("NUDE") == "nude";
    assert Contains(Lower("NUDE"), InappropriateWords[1]);
  }

  /** A word inside a longer word is flagged: "denuded" contains "nude". */
  lemma InnerWordFlagged()
    ensures AnyOccurs(InappropriateWords, Lower("denuded"))
  {
    EmbeddedWordFlagged("de", 1, "d");
    assert "de" + InappropriateWords[1] + "d" == "denuded";
  }

  // ---------------------------------------------------------------------------
  // The moderation reason
  // ---------------------------------------------------------------------------

  /** The names of the flagged categories, in table order. */
  function FlaggedNames(categories: seq<(string, bool)>): (names: seq<string>)
    ensures |names| <= |categories|
    ensures forall n :: n in names ==> exists i :: 0 <= i < |categories| && categories[i] == (n, true)
    ensures forall i :: 0 <= i < |categories| && categories[i].1 ==> categories[i].0 in names
  {
    if categories == [] then []
    else
      var last := categories[|categories| - 1];
      FlaggedNames(categories[..|categories| - 1]) + (if last.1 then [last.0] else [])
  }

  const ReasonPrefix: string := "Content flagged for: "

  /** Build the reason with a loop that collects the flagged names and then
      joins them with ", " after a fixed prefix; no flagged name gives "". */
  method GetModerationReason(categories: seq<(string, bool)>) returns (reason: string)
    ensures reason == "" <==> forall i :: 0 <= i < |categories| ==> !categories[i].1
    ensures reason != "" ==> reason == ReasonPrefix + Join(FlaggedNames(categories), ", ")
  {
    var reasons: seq<string> := [];
    var i := 0;
    while i < |categories|
      invariant 0 <= i <= |categories|
      invariant reasons == FlaggedNames(categories[..i])
    {
      assert categories[..i + 1][..i] == categories[..i];
      if categories[i].1 {
        reasons := reasons + [categories[i].0];
      }
      i := i + 1;
    }
    assert categories[..i] == categories;
    if reasons != [] {
      reason := ReasonPrefix + Join(reasons, ", ");
      assert reason[0] == 'C';
      assert reasons[0] in reasons;
      var k :| 0 <= k < |categories| && categories[k] == (reasons[0], true);
      assert categories[k].1;
    } else {
      reason := "";
    }
  }

  /** The reason the fallback verdict carries is the one the reason builder
      would derive from its own category table, up to wording: both are
      empty exactly when nothing is flagged. */
  lemma FallbackReasonConsistent(r: ModerationResult)
    requires r == FlaggedResult || r == CleanResult
    ensures r.reason == "" <==> FlaggedNames(r.categories) == []
  {
    if r == FlaggedResult {
      assert r.categories[0] == ("sexual", true);
      assert "sexual" in FlaggedNames(r.categories);
    }
  }
}
