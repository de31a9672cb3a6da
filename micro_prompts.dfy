/**
 The micro-prompt bubble beside a result (src/components/MicroPrompts.js): it offers one
 follow-up per visit, never repeating a prompt of the current mode until all of them were
 used, forgets the used prompts when the mode changes, and reports the learner's choice to
 the page. `Math.random()` is modelled by an arbitrary `pick`, reduced modulo the number of
 candidates as `Math.floor(Math.random() * n)` stays below `n`.
 */
module MicroPrompts {

  import opened Wrappers
  import opened Strings
  import Seqs

  datatype Prompt = Prompt(id: string, text: string, action: string, skip: string, response: string)

  /** `PROMPT_LIBRARY`, keyed by lower-case mode. */
  const Library: map<string, seq<Prompt>> := map[
    "summarize" := [
      Prompt("summarize-shorter", "Want this shorter and more to the point?", "Make it shorter", "No thanks", "Making it more concise..."),
      Prompt("summarize-connect", "Want me to connect this to your interests?", "Connect it", "No thanks", "Connecting to your interests..."),
      Prompt("summarize-example", "Need a real-world example to understand this better?", "Add example", "No thanks", "Adding a real-world example...")],
    "ask" := [
      Prompt("ask-example", "Want me to give you a concrete example?", "Show example", "No thanks", "Finding a good example..."),
      Prompt("ask-simplify", "Need me to break this down into simpler terms?", "Simplify", "No thanks", "Simplifying the explanation..."),
      Prompt("ask-connect", "Want me to connect this to your community?", "Connect it", "No thanks", "Connecting to your community...")],
    "outline" := [
      Prompt("outline-questions", "Want me to turn this into study questions?", "Make questions", "No thanks", "Creating study questions..."),
      Prompt("outline-steps", "Need this broken down into step-by-step actions?", "Break it down", "No thanks", "Breaking it into steps..."),
      Prompt("outline-connect", "Want me to connect this to your interests?", "Connect it", "No thanks", "Connecting to your interests...")],
    "citations" := [
      Prompt("citations-verify", "Want me to suggest ways to verify these sources?", "Verify sources", "No thanks", "Finding verification methods..."),
      Prompt("citations-simplify", "Need help understanding how to use these citations?", "Explain usage", "No thanks", "Explaining citation usage..."),
      Prompt("citations-format", "Want these in a different format?", "Change format", "No thanks", "Changing citation format...")]]

  /** `mode && PROMPT_LIBRARY[mode.toLowerCase()]`. */
  function PromptsFor(mode: string): (r: Option<seq<Prompt>>)
    ensures r.Some? <==> mode != "" && Lower(mode) in Library
    ensures r.Some? ==> r.value == Library[Lower(mode)]
  {
    if mode != "" && Lower(mode) in Library then Some(Library[Lower(mode)]) else None
  }

  /** `prompts.filter(p => !used.has(p.id))`. */
  function Available(prompts: seq<Prompt>, used: set<string>): (r: seq<Prompt>)
    ensures forall p :: p in r <==> p in prompts && p.id !in used
  {
    Seqs.Filter(prompts, (p: Prompt) => p.id !in used)
  }

  /** One run of the selection effect on a non-empty prompt list: an unused prompt while one
      is left; otherwise the used set is emptied (`reset`) and any prompt may be chosen. */
  function Choose(prompts: seq<Prompt>, used: set<string>, pick: nat): (r: (Prompt, bool))
    requires prompts != []
    ensures r.0 in prompts
    ensures r.1 <==> forall p :: p in prompts ==> p.id in used
    ensures !r.1 ==> r.0.id !in used
  {
    var available := Available(prompts, used);
    if |available| == 0 then
      assert available == [];
      (prompts[pick % |prompts|], true)
    else
      assert available[pick % |available|] in available;
      (available[pick % |available|], false)
  }

  /** What the bubble shows. */
  datatype View = Working | Offer(text: string, action: string, skip: string) | Responding(text: string)

  class MicroPromptPanel {

    var mode: string
    /** `usedPrompts`: the ids offered and acted on or skipped since the last reset. */
    var used: set<string>
    var current: Option<Prompt>
    var showResponse: bool
    var responseText: string
    var isAnimatingOut: bool

    constructor (mode: string)
      ensures this.mode == mode && used == {} && current.None?
      ensures !showResponse && responseText == "" && !isAnimatingOut
    {
      this.mode := mode;
      used := {};
      current := None;
      showResponse := false;
      responseText := "";
      isAnimatingOut := false;
    }

    /** The effect on a change of `mode`: forget the used prompts and any response. */
    method ModeChanged(newMode: string)
      modifies this
      ensures mode == newMode && used == {} && current == old(current)
      ensures !showResponse && responseText == "" && !isAnimatingOut
    {
      mode := newMode;
      used := {};
      showResponse := false;
      responseText := "";
      isAnimatingOut := false;
    }

    /** One run of the selection effect for the `isVisible` prop. */
    method SelectPrompt(isVisible: bool, pick: nat)
      modifies this`used, this`current, this`showResponse, this`responseText, this`isAnimatingOut
      ensures isVisible && PromptsFor(mode).Some? ==>
                current.Some? && current.value in PromptsFor(mode).value
                && (if forall p :: p in PromptsFor(mode).value ==> p.id in old(used)
                    then used == {}
                    else current.value.id !in used && used == old(used))
                && showResponse == old(showResponse) && responseText == old(responseText)
                && isAnimatingOut == old(isAnimatingOut)
      ensures !(isVisible && PromptsFor(mode).Some?) ==>
                current.None? && !showResponse && responseText == "" && !isAnimatingOut && used == old(used)
    {
      var prompts := PromptsFor(mode);
      if isVisible && prompts.Some? {
        assert prompts.value != [];
        var chosen := Choose(prompts.value, used, pick);
        if chosen.1 {
          used := {};
        }
        current := Some(chosen.0);
      } else {
        current := None;
        showResponse := false;
        responseText := "";
        isAnimatingOut := false;
      }
    }

    /** `handleAction`, its two timers run to the end: the response text is shown first
        (`shown`), then `onPromptAction(id, action)` is called (`reported`), the prompt is
        marked used and the bubble is cleared. Without a current prompt nothing happens. */
    method HandleAction() returns (shown: Option<string>, reported: Option<(string, string)>)
      modifies this`used, this`current, this`showResponse, this`responseText, this`isAnimatingOut
      ensures old(current).None? ==> shown.None? && reported.None? && used == old(used) && current.None?
                                     && showResponse == old(showResponse) && responseText == old(responseText)
                                     && isAnimatingOut == old(isAnimatingOut)
      ensures old(current).Some? ==>
                && shown == Some(old(current).value.response)
                && reported == Some((old(current).value.id, old(current).value.action))
                && used == old(used) + {old(current).value.id}
                && current.None? && !showResponse && responseText == "" && !isAnimatingOut
    {
      shown, reported := None, None;
      if current.Some? {
        var p := current.value;
        responseText := p.response;
        showResponse := true;
        shown := Some(responseText);
        isAnimatingOut := true;
        reported := Some((p.id, p.action));
        used := used + {p.id};
        current := None;
        showResponse := false;
        responseText := "";
        isAnimatingOut := false;
      }
    }

    /** `handleSkip`: report and mark the current prompt, if any, then clear the bubble. */
    method HandleSkip() returns (skipped: Option<string>)
      modifies this`used, this`current, this`showResponse, this`responseText, this`isAnimatingOut
      ensures old(current).Some? ==> skipped == Some(old(current).value.id) && used == old(used) + {skipped.value}
      ensures old(current).None? ==> skipped.None? && used == old(used)
      ensures current.None? && !showResponse && responseText == "" && !isAnimatingOut
    {
      skipped := None;
      if current.Some? {
        skipped := Some(current.value.id);
        used := used + {current.value.id};
      }
      current := None;
      showResponse := false;
      responseText := "";
      isAnimatingOut := false;
    }

    /** What the component renders: nothing unless it is loading or a prompt is visible. */
    function Rendered(isVisible: bool, loading: bool): (r: Option<View>)
      reads this
      ensures r.None? <==> !loading && (!isVisible || current.None?)
      ensures loading ==> r == Some(Working)
      ensures r.Some? && !loading && !showResponse ==>
                r == Some(Offer(current.value.text, current.value.action, current.value.skip))
    {
      if !isVisible && !loading then None
      else if current.None? && !loading then None
      else if loading then Some(Working)
      else if !showResponse then Some(Offer(current.value.text, current.value.action, current.value.skip))
      else Some(Responding(responseText))
    }
  }

  /** The ids of a prompt list. */
  function Ids(prompts: seq<Prompt>): (r: set<string>)
    ensures forall p :: p in prompts ==> p.id in r
  {
    set p | p in prompts :: p.id
  }

  /** No prompt is offered twice before every prompt of the mode was: while some id is
      unused the choice adds a new id to the used ones, and the used set is only emptied
      once it covers every id. So a mode with n distinct ids cycles through all n. */
  lemma ChooseCycles(prompts: seq<Prompt>, used: set<string>, pick: nat)
    requires prompts != []
    ensures Choose(prompts, used, pick).1 <==> Ids(prompts) <= used
    ensures !Choose(prompts, used, pick).1 ==>
              |Ids(prompts) * (used + {Choose(prompts, used, pick).0.id})| == |Ids(prompts) * used| + 1
  {
    var (p, reset) := Choose(prompts, used, pick);
    if !reset {
      assert Ids(prompts) * (used + {p.id}) == (Ids(prompts) * used) + {p.id};
    }
  }

  /** Every mode of the page has three prompts, whatever the case of its name. */
  lemma EveryModeHasPrompts(mode: string)
    requires mode in ["Summarize", "Ask", "Outline", "Citations"]
    ensures PromptsFor(mode).Some? && |PromptsFor(mode).value| == 3
  {
    assert Lower("Summarize") == "summarize";
    assert Lower("Ask") == "ask";
    assert Lower("Outline") == "outline";
    assert Lower("Citations") == "citations";
  }

}
