/**
 The nine preference tags a learner can react with, in the order the home page checks them
 for nudges (src/app/page.js), and the icon each tag is shown with. PreferenceNudge and
 PreferencesPill each carry the same icon table; it is defined once here.
 */
module Tags {

  /** `nudgesToCheck`. */
  const NudgeOrder: seq<string> := [
    "tone:everyday", "tone:academic", "depth:short", "depth:scaffolded",
    "lens:community", "lens:sports", "lens:music", "aids:vocab", "aids:takeaways"]

  /** `TAG_ICONS`. */
  const Icons: map<string, string> := map[
    "tone:everyday" := "\U{1F5E3}\U{FE0F}",
    "tone:academic" := "\U{1F9EA}",
    "depth:short" := "\U{2B50}",
    "depth:scaffolded" := "\U{1F9E9}",
    "lens:community" := "\U{1F3AF}",
    "lens:sports" := "\U{26BD}",
    "lens:music" := "\U{1F3B5}",
    "aids:vocab" := "\U{1F4DA}",
    "aids:takeaways" := "\U{1F4A1}"]

  /** The gear shown for a tag outside the table. */
  const GearIcon := "\U{2699}\U{FE0F}"

  /** `table[tag] || fallback` for a string table whose entries are all non-empty. */
  function LookupOr(table: map<string, string>, tag: string, fallback: string): (r: string)
    ensures tag in table && table[tag] != "" ==> r == table[tag]
    ensures tag !in table ==> r == fallback
  {
    if tag in table && table[tag] != "" then table[tag] else fallback
  }

  /** `TAG_ICONS[tag] || "⚙️"`. */
  function IconFor(tag: string): (r: string)
    ensures r != ""
    ensures tag !in Icons ==> r == GearIcon
  {
    LookupOr(Icons, tag, GearIcon)
  }

}
