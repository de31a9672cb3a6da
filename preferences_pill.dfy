/**
 The preferences pill of the header (src/components/PreferencesPill.js): a one-line summary
 of the active preferences, and a panel that turns one of them, or all of them, off.
 */
module PreferencesPill {

  import opened Wrappers
  import opened Strings
  import Seqs
  import Tags
  import opened Settings

  /** `TAG_LABELS` of the pill. */
  const Labels: map<string, string> := map[
    "tone:everyday" := "Everyday tone",
    "tone:academic" := "Academic tone",
    "depth:short" := "Short notes",
    "depth:scaffolded" := "Step-by-step",
    "lens:community" := "Community focus",
    "lens:sports" := "Sports examples",
    "lens:music" := "Music examples",
    "aids:vocab" := "Key terms",
    "aids:takeaways" := "Takeaways"]

  /** `TAG_EXPLANATIONS` of the pill. */
  const Explanations: map<string, string> := map[
    "tone:everyday" := "Uses simple, conversational language instead of academic jargon",
    "tone:academic" := "Uses more formal, scholarly language and detailed explanations",
    "depth:short" := "Provides concise, to-the-point summaries and answers",
    "depth:scaffolded" := "Breaks down complex topics into step-by-step explanations",
    "lens:community" := "Connects topics to your local community and real-world impact",
    "lens:sports" := "Uses sports analogies and examples to explain concepts",
    "lens:music" := "Uses music examples and metaphors to make topics relatable",
    "aids:vocab" := "Automatically explains important terms and definitions",
    "aids:takeaways" := "Highlights the most important points and key insights"]

  const GenericExplanation := "This preference helps customize your experience."

  /** The separator of the summary, " • ". */
  const Bullet := " \U{2022} "

  /** `TAG_LABELS[tag] || tag`. */
  function LabelFor(tag: string): (r: string)
    ensures tag !in Labels ==> r == tag
  {
    Tags.LookupOr(Labels, tag, tag)
  }

  /** One row of the open panel: icon, label text and explanation of an active tag. */
  datatype Row = Row(tag: string, icon: string, labelText: string, explanation: string)

  function RowFor(tag: string): (r: Row)
    ensures r.tag == tag
    ensures tag !in Labels && tag !in Explanations && tag !in Tags.Icons ==>
              r == Row(tag, Tags.GearIcon, tag, GenericExplanation)
  {
    Row(tag, Tags.IconFor(tag), LabelFor(tag), Tags.LookupOr(Explanations, tag, GenericExplanation))
  }

  function LabelsOf(tags: seq<string>): (r: seq<string>)
    ensures |r| == |tags|
    ensures forall i :: 0 <= i < |tags| ==> r[i] == LabelFor(tags[i])
  {
    seq(|tags|, i requires 0 <= i < |tags| => LabelFor(tags[i]))
  }

  /** The text of the pill's button, or `None` when the pill renders nothing: the labels of
      the first two active tags joined by " • ", then "..." when there are more. */
  function Summary(active: seq<string>): (r: Option<string>)
    ensures r.None? <==> active == []
    ensures |active| == 1 ==> r == Some(LabelFor(active[0]))
    ensures |active| == 2 ==> r == Some(LabelFor(active[0]) + Bullet + LabelFor(active[1]))
    ensures |active| > 2 ==> r == Some(LabelFor(active[0]) + Bullet + LabelFor(active[1]) + "...")
  {
    if active == [] then None
    else
      var shown := LabelsOf(Seqs.Take(active, 2));
      assert |active| == 1 ==> Join(shown, Bullet) == shown[0];
      assert |active| >= 2 ==> Join(shown, Bullet) == shown[0] + Bullet + Join(shown[1..], Bullet);
      assert |active| >= 2 ==> Join(shown[1..], Bullet) == shown[1];
      var more := if |active| > 2 then "..." else "";
      assert |active| <= 2 ==> Join(shown, Bullet) + more == Join(shown, Bullet);
      Some(Join(shown, Bullet) + more)
  }

  /** `handleToggle(tag)`: exactly that tag leaves the active list, the rest keep their order. */
  method HandleToggle(store: SettingsStore, tag: string, now: int)
    requires store.Valid()
    modifies store`settings, store`writes
    ensures store.Valid()
    ensures store.settings == WithPreference(old(store.settings), tag, false, now)
    ensures store.ActivePreferences() == Seqs.Filter(old(store.ActivePreferences()), t => t != tag)
  {
    store.SetPreference(tag, false, now);
    ActiveAfterRemove(old(store.settings.preferences), tag);
  }

  /** One step of clearing: deleting the next tag extends the cleared part by that tag. */
  lemma ClearStep(ps: seq<PrefEntry>, before: seq<PrefEntry>, tag: string, done: seq<string>, active: seq<string>)
    requires forall t :: t in ActiveTags(ps) <==> t in active && t !in done
    requires forall u :: u !in done ==> Lookup(ps, u) == Lookup(before, u)
    ensures forall t :: t in ActiveTags(Remove(ps, tag)) <==> t in active && t !in done + [tag]
    ensures forall u :: u !in done + [tag] ==> Lookup(Remove(ps, tag), u) == Lookup(before, u)
  {
    ActiveAfterRemove(ps, tag);
    forall u | u !in done + [tag] ensures Lookup(Remove(ps, tag), u) == Lookup(before, u) {
      RemoveLookup(ps, tag, u);
    }
  }

  /** `handleClearAll()`: `setPreference(tag, false)` for every tag that was active when the
      pill rendered. Afterwards nothing is active, and every other key is untouched. */
  method HandleClearAll(store: SettingsStore, now: int)
    requires store.Valid()
    modifies store`settings, store`writes
    ensures store.Valid()
    ensures store.ActivePreferences() == []
    ensures forall u :: u !in old(store.ActivePreferences()) ==>
              Lookup(store.settings.preferences, u) == Lookup(old(store.settings.preferences), u)
    ensures store.settings == old(store.settings).(preferences := store.settings.preferences)
    ensures |store.writes| == |old(store.writes)| + |old(store.ActivePreferences())|
  {
    var active := store.ActivePreferences();
    ghost var before := store.settings;
    var i := 0;
    while i < |active|
      invariant 0 <= i <= |active|
      invariant store.Valid()
      invariant store.settings == before.(preferences := store.settings.preferences)
      invariant forall t :: t in ActiveTags(store.settings.preferences) <==> t in active && t !in active[..i]
      invariant forall u :: u !in active[..i] ==>
                  Lookup(store.settings.preferences, u) == Lookup(before.preferences, u)
      invariant |store.writes| == |old(store.writes)| + i
    {
      ClearStep(store.settings.preferences, before.preferences, active[i], active[..i], active);
      assert active[..i + 1] == active[..i] + [active[i]];
      store.SetPreference(active[i], false, now);
      i := i + 1;
    }
    assert active[..i] == active;
    Seqs.NoMembersEmpty(store.ActivePreferences());
  }

}
