/**
 * The decisions of the suggestions list: the per-mode button label, the
 * section title, the card titles, the layout, and what selecting a card
 * hands back.
 */
module SuggestionsView {
  import opened Outcomes
  import Text
  import opened EmailInput

  const DefaultButtonText := "Use this Suggestion"

  /** `getButtonTextAndIcon(mode).text`, over the mode string the component
      receives at run time; anything outside the five modes gets the default. */
  function ButtonText(mode: string): (r: string)
    ensures r == DefaultButtonText <==> ParseSelectedMode(mode).None?
  {
    if mode == "reply" then "Use this Reply"
    else if mode == "jobPosting" then "Use this Posting Draft"
    else if mode == "applyToJob" then "Use this Application Draft"
    else if mode == "casualMessage" then "Use this Inquiry"
    else if mode == "rewriteMessage" then "Use this Rewritten Text"
    else DefaultButtonText
  }

  /** Every UI mode has its own label, and none gets the default. */
  lemma ButtonTextPerMode(m1: SelectedMode, m2: SelectedMode)
    ensures ButtonText(ModeName(m1)) != DefaultButtonText
    ensures m1 != m2 ==> ButtonText(ModeName(m1)) != ButtonText(ModeName(m2))
  {
    ModeNameRoundTrip(m1);
  }

  /** The modes whose single result is one composed artifact. */
  predicate IsSingleArtifactMode(m: SelectedMode)
  {
    m == JobPosting || m == ApplyToJob || m == RewriteMessage
  }

  /** The section heading for `count` (at least one) suggestions: a
      mode-specific heading exactly for one single-artifact suggestion, the
      casual heading exactly for several casual inquiries, and otherwise the
      generic one. */
  function SectionTitle(count: nat, m: SelectedMode): (t: string)
    ensures t !in {"AI Suggestions", "AI Drafted Casual Inquiries"} <==> count == 1 && IsSingleArtifactMode(m)
    ensures t == "AI Drafted Casual Inquiries" <==> count != 1 && m == CasualMessage
  {
    if count == 1 then
      if m == JobPosting then "AI Drafted Job Posting"
      else if m == ApplyToJob then "AI Drafted Application Email"
      else if m == RewriteMessage then "AI Rewritten Text"
      else "AI Suggestions"
    else if m == CasualMessage then "AI Drafted Casual Inquiries"
    else "AI Suggestions"
  }

  /** The card heading of one suggestion out of `count`, at 0-based `index`:
      numbered exactly when there are several, and the number read back is
      `index + 1`. */
  function CardTitle(count: nat, index: nat, m: SelectedMode): (t: string)
    ensures count > 1 <==> "Suggestion " <= t
    ensures count > 1 ==> Text.ParseDecimal(t[|"Suggestion "|..]) == index + 1
  {
    if count > 1 then
      Text.ParseDecimalRoundTrip(index + 1);
      var t := "Suggestion " + Text.Decimal(index + 1);
      assert t[|"Suggestion "|..] == Text.Decimal(index + 1);
      t
    else
      var t := if m == JobPosting then "Job Posting Draft"
        else if m == ApplyToJob then "Application Email Draft"
        else if m == RewriteMessage then "Rewritten Text"
        else if m == CasualMessage then "Casual Inquiry Option"
        else "Suggestion";
      assert |t| < |"Suggestion "| || t[0] != "Suggestion "[0];
      t
  }

  datatype Card = Card(title: string, text: string, buttonText: string)

  datatype View = View(title: string, singleColumn: bool, cards: seq<Card>)

  /** What the section renders: nothing for an empty list, otherwise a title,
      a layout and one card per suggestion in order. */
  function Render(suggestions: seq<string>, m: SelectedMode): (v: Option<View>)
    ensures v.None? <==> |suggestions| == 0
    ensures v.Some? ==>
      && |v.value.cards| == |suggestions|
      && (forall i :: 0 <= i < |suggestions| ==>
            v.value.cards[i].text == suggestions[i] && v.value.cards[i].buttonText == ButtonText(ModeName(m)))
      && (v.value.singleColumn <==> |suggestions| == 1 && IsSingleArtifactMode(m))
  {
    if |suggestions| == 0 then None
    else
      var n := |suggestions|;
      Some(View(
        SectionTitle(n, m),
        n == 1 && (m == JobPosting || m == ApplyToJob || m == RewriteMessage),
        seq(n, i requires 0 <= i < n => Card(CardTitle(n, i, m), suggestions[i], ButtonText(ModeName(m))))))
  }

  /** The click handler of card `i`: the suggestion it shows, unchanged. */
  function SelectCard(v: View, i: nat): (s: string)
    requires i < |v.cards|
  {
    v.cards[i].text
  }

  lemma SelectPassesSuggestion(suggestions: seq<string>, m: SelectedMode, i: nat)
    requires i < |suggestions|
    ensures Render(suggestions, m).Some?
    ensures SelectCard(Render(suggestions, m).value, i) == suggestions[i]
  {
  }

  /** With several suggestions the cards are "Suggestion 1", "Suggestion 2", …
      and no two cards share a title. */
  lemma CardTitlesNumbered(suggestions: seq<string>, m: SelectedMode, i: nat, j: nat)
    requires |suggestions| > 1 && i < |suggestions| && j < |suggestions| && i != j
    ensures Render(suggestions, m).value.cards[i].title == "Suggestion " + Text.Decimal(i + 1)
    ensures Render(suggestions, m).value.cards[i].title != Render(suggestions, m).value.cards[j].title
  {
    var v := Render(suggestions, m).value;
    assert v.cards[i].title == CardTitle(|suggestions|, i, m);
    assert v.cards[j].title == CardTitle(|suggestions|, j, m);
  }

  /** The generic headings are exactly the cases without a single composed
      artifact; a mode-specific single heading goes with the one-column
      layout. */
  lemma TitleMatchesLayout(suggestions: seq<string>, m: SelectedMode)
    requires |suggestions| > 0
    ensures var v := Render(suggestions, m).value;
      v.singleColumn <==> v.title !in {"AI Suggestions", "AI Drafted Casual Inquiries"}
  {
  }

  /** A single suggestion: the heading and the card title name the artifact
      in the job posting, application and rewrite modes; a single reply gets
      the generic heading and the card "Suggestion", a single casual inquiry
      the generic heading and the card "Casual Inquiry Option". */
  lemma SingleSuggestionTitles(suggestion: string, m: SelectedMode)
    ensures var v := Render([suggestion], m).value;
      && (!IsSingleArtifactMode(m) ==> v.title == "AI Suggestions")
      && (m == JobPosting ==> v.title == "AI Drafted Job Posting" && v.cards[0].title == "Job Posting Draft")
      && (m == ApplyToJob ==> v.title == "AI Drafted Application Email" && v.cards[0].title == "Application Email Draft")
      && (m == RewriteMessage ==> v.title == "AI Rewritten Text" && v.cards[0].title == "Rewritten Text")
      && (m == CasualMessage ==> v.cards[0].title == "Casual Inquiry Option")
      && (m == Reply ==> v.cards[0].title == "Suggestion")
  {
  }

  /** Several casual-inquiry suggestions get their own heading; every other
      mode with several suggestions gets the generic one. */
  lemma ManySuggestionsTitle(suggestions: seq<string>, m: SelectedMode)
    requires |suggestions| > 1
    ensures Render(suggestions, m).value.title ==
      if m == CasualMessage then "AI Drafted Casual Inquiries" else "AI Suggestions"
  {
  }
}
