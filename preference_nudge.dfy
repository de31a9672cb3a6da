/**
 The nudge card (src/components/PreferenceNudge.js): it offers to make a tag the learner
 keeps reacting with their default. "Yes, remember this" turns the preference on, "Not now"
 counts a dismissal; either way the card hides itself and hands the tag back to the page.
 */
module PreferenceNudge {

  import opened Wrappers
  import Tags
  import opened Settings

  /** `TAG_LABELS` of the card. */
  const Labels: map<string, string> := map[
    "tone:everyday" := "everyday language",
    "tone:academic" := "academic language",
    "depth:short" := "shorter explanations",
    "depth:scaffolded" := "step-by-step explanations",
    "lens:community" := "community connections",
    "lens:sports" := "sports examples",
    "lens:music" := "music examples",
    "aids:vocab" := "key term explanations",
    "aids:takeaways" := "key takeaways"]

  /** `TAG_EXPLANATIONS` of the card. */
  const Explanations: map<string, string> := map[
    "tone:everyday" := "Uses simple, conversational language instead of academic jargon",
    "tone:academic" := "Uses more formal, scholarly language and detailed explanations",
    "depth:short" := "Provides brief, concise summaries and explanations",
    "depth:scaffolded" := "Breaks down complex topics into step-by-step explanations",
    "lens:community" := "Connects topics to your local community and real-world impact",
    "lens:sports" := "Uses sports analogies and examples to explain concepts",
    "lens:music" := "Uses music examples and analogies to make concepts relatable",
    "aids:vocab" := "Explains key terms and vocabulary as they come up",
    "aids:takeaways" := "Highlights the most important points and key takeaways"]

  const GenericExplanation := "This preference will help customize your experience."

  /** What the card shows: icon, label text and explanation. */
  datatype Card = Card(icon: string, labelText: string, explanation: string)

  /** The card's content for a tag, with the fallbacks for a tag outside the tables. */
  function CardFor(tag: string): (c: Card)
    ensures c.labelText != "" || tag == ""
    ensures c.icon != "" && c.explanation != ""
  {
    Card(Tags.IconFor(tag), Tags.LookupOr(Labels, tag, tag), Tags.LookupOr(Explanations, tag, GenericExplanation))
  }

  /** A tag outside the tables is labelled by itself, with the generic explanation and the gear. */
  lemma UnknownTagFallback(tag: string)
    requires tag !in Labels && tag !in Explanations && tag !in Tags.Icons
    ensures CardFor(tag) == Card(Tags.GearIcon, tag, GenericExplanation)
  {
  }

  /** Each of the nine tags has its own label, explanation and icon from the tables. */
  lemma KnownTagsUseTables(tag: string)
    requires tag in Tags.NudgeOrder
    ensures CardFor(tag) == Card(Tags.Icons[tag], Labels[tag], Explanations[tag])
  {
  }

  class NudgeCard {

    const tag: string
    var isVisible: bool

    constructor (tag: string)
      ensures this.tag == tag && isVisible
    {
      this.tag := tag;
      isVisible := true;
    }

    /** What the component renders: nothing while the answer streams or once the card is hidden. */
    function Rendered(isStreaming: bool): (r: Option<Card>)
      reads this
      ensures r.Some? <==> !isStreaming && isVisible
      ensures r.Some? ==> r.value == CardFor(tag)
    {
      if isStreaming || !isVisible then None else Some(CardFor(tag))
    }

    /** `handleApply`: hide, `setPreference(tag, true)`, then `onApply(tag)`; the result is
        the tag handed to `onApply`. */
    method HandleApply(store: SettingsStore, now: int) returns (applied: string)
      requires store.Valid()
      modifies this`isVisible, store`settings, store`writes
      ensures store.Valid()
      ensures !isVisible && applied == tag
      ensures store.settings == WithPreference(old(store.settings), tag, true, now)
      ensures HasPreference(store.settings, tag)
      ensures store.settings.nudges == old(store.settings.nudges)
      ensures store.settings.signals == old(store.settings.signals)
      ensures |store.writes| == |old(store.writes)| + 1
    {
      isVisible := false;
      store.SetPreference(tag, true, now);
      SetPreferenceEffect(old(store.settings), tag, true, now, tag);
      applied := tag;
    }

    /** `handleDismiss`: hide, `dismissNudge(tag)`, then `onDismiss(tag)`; the result is the
        tag handed to `onDismiss`. */
    method HandleDismiss(store: SettingsStore) returns (dismissed: string)
      requires store.Valid()
      modifies this`isVisible, store`settings, store`writes
      ensures store.Valid()
      ensures !isVisible && dismissed == tag
      ensures store.settings == WithDismissal(old(store.settings), tag)
      ensures NudgeCount(store.settings.nudges, tag) == NudgeCount(old(store.settings.nudges), tag) + 1
      ensures store.settings.preferences == old(store.settings.preferences)
      ensures |store.writes| == |old(store.writes)| + 1
    {
      isVisible := false;
      store.DismissNudge(tag);
      dismissed := tag;
    }
  }

}
