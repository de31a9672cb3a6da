/**
 The settings store of the workbook (src/context/SettingsContext.js): the learner's settings
 record, the reaction signals it collects, the preferences the learner turned on, and the
 per-tag dismissal counters that decide whether a preference nudge is offered.
 Timestamps are opaque integers supplied by the caller; persistence is recorded as a log of
 writes, each naming the store (database or browser storage) the source would write to.
 */
module Settings {

  import opened Wrappers
  import opened Strings
  import Seqs

  /** One reaction: the tag the learner picked, where it was picked, and when. */
  datatype Signal = Signal(tag: string, context: string, timestamp: int)

  /** The value stored under a tag of `preferences`: `{ default, since }`. */
  datatype Preference = Preference(isDefault: bool, since: int)

  /** One key of the `preferences` object, in the object's key order. */
  datatype PrefEntry = PrefEntry(tag: string, pref: Preference)

  datatype Settings = Settings(
    language: string,
    interests: seq<string>,
    community: string,
    outputStyle: string,
    textSize: string,
    defaultReadingLevel: string,
    microPromptsEnabled: bool,
    curiosity: string,
    hasOnboarded: bool,
    signals: seq<Signal>,
    preferences: seq<PrefEntry>,
    nudges: map<string, nat>,
    lastSession: Option<int>)

  /** `defaultSettings`. */
  const DefaultSettings := Settings(
    "English", [], "General", "paragraphs", "medium", "simple", true, "", false, [], [], map[], None)

  /** The number of dismissals after which a nudge is never offered again. */
  const NudgeCap: nat := 2

  /** The number of signals a tag needs before its nudge is offered. */
  const SignalThreshold: nat := 2

  // ---------------------------------------------------------------------------
  // The preferences object as an ordered list of keys

  /** The tags present as keys. */
  function TagSet(ps: seq<PrefEntry>): set<string>
  {
    set i | 0 <= i < |ps| :: ps[i].tag
  }

  lemma TagSetCons(e: PrefEntry, rest: seq<PrefEntry>)
    ensures TagSet([e] + rest) == {e.tag} + TagSet(rest)
  {
    var r := [e] + rest;
    forall t | t in TagSet(r) ensures t in {e.tag} + TagSet(rest) {
      var i :| 0 <= i < |r| && r[i].tag == t;
      if i > 0 { assert r[i] == rest[i - 1]; }
    }
    forall t | t in TagSet(rest) ensures t in TagSet(r) {
      var i :| 0 <= i < |rest| && rest[i].tag == t;
      assert r[i + 1] == rest[i];
    }
    assert r[0] == e;
  }

  /** No tag is a key twice, as in every JavaScript object. */
  predicate UniqueTags(ps: seq<PrefEntry>)
  {
    forall i, j :: 0 <= i < j < |ps| ==> ps[i].tag != ps[j].tag
  }

  /** `preferences[tag]`. */
  function Lookup(ps: seq<PrefEntry>, tag: string): (r: Option<Preference>)
    ensures r.None? <==> tag !in TagSet(ps)
    ensures r.Some? ==> exists i :: 0 <= i < |ps| && ps[i] == PrefEntry(tag, r.value)
  {
    if ps == [] then None
    else if ps[0].tag == tag then Some(ps[0].pref)
    else
      assert TagSet(ps) == {ps[0].tag} + TagSet(ps[1..]);
      var r := Lookup(ps[1..], tag);
      assert r.Some? ==> exists i :: 0 <= i < |ps[1..]| && ps[1..][i] == PrefEntry(tag, r.value);
      r
  }

  /** `preferences[tag] = p` on a copy: an existing key keeps its place, a new key goes last. */
  function Upsert(ps: seq<PrefEntry>, tag: string, p: Preference): (r: seq<PrefEntry>)
    ensures |r| == if tag in TagSet(ps) then |ps| else |ps| + 1
  {
    TagSetCons(if ps == [] then PrefEntry(tag, p) else ps[0], if ps == [] then [] else ps[1..]);
    if ps == [] then [PrefEntry(tag, p)]
    else
      assert ps == [ps[0]] + ps[1..];
      if ps[0].tag == tag then [PrefEntry(tag, p)] + ps[1..]
      else [ps[0]] + Upsert(ps[1..], tag, p)
  }

  /** After an upsert the tag holds the new value and every other tag its old one. */
  lemma {:induction false} UpsertLookup(ps: seq<PrefEntry>, tag: string, p: Preference, u: string)
    ensures Lookup(Upsert(ps, tag, p), u) == if u == tag then Some(p) else Lookup(ps, u)
  {
    if ps != [] && ps[0].tag != tag {
      var r := Upsert(ps, tag, p);
      assert r[0] == ps[0] && r[1..] == Upsert(ps[1..], tag, p);
      UpsertLookup(ps[1..], tag, p, u);
    }
  }

  /** An upsert adds the tag to the keys, and keeps the keys unique. */
  lemma {:induction false} UpsertKeys(ps: seq<PrefEntry>, tag: string, p: Preference)
    ensures TagSet(Upsert(ps, tag, p)) == TagSet(ps) + {tag}
    ensures UniqueTags(ps) ==> UniqueTags(Upsert(ps, tag, p))
  {
    if ps == [] {
      TagSetCons(PrefEntry(tag, p), []);
    } else {
      var r := Upsert(ps, tag, p);
      TagSetCons(ps[0], ps[1..]);
      assert ps == [ps[0]] + ps[1..];
      if ps[0].tag == tag {
        TagSetCons(PrefEntry(tag, p), ps[1..]);
        if UniqueTags(ps) {
          UniqueTail(ps);
          ConsUnique(PrefEntry(tag, p), ps[1..]);
        }
      } else {
        var rest := Upsert(ps[1..], tag, p);
        UpsertKeys(ps[1..], tag, p);
        TagSetCons(ps[0], rest);
        if UniqueTags(ps) {
          UniqueTail(ps);
          ConsUnique(ps[0], rest);
        }
      }
    }
  }

  /** The tail of a list with unique keys has unique keys, none of them the head's. */
  lemma UniqueTail(ps: seq<PrefEntry>)
    requires ps != [] && UniqueTags(ps)
    ensures UniqueTags(ps[1..]) && ps[0].tag !in TagSet(ps[1..])
  {
  }

  /** A new key in front of unique keys keeps them unique. */
  lemma ConsUnique(e: PrefEntry, rest: seq<PrefEntry>)
    requires UniqueTags(rest) && e.tag !in TagSet(rest)
    ensures UniqueTags([e] + rest)
  {
    var r := [e] + rest;
    forall i, j | 0 <= i < j < |r| ensures r[i].tag != r[j].tag {
      assert r[j] == rest[j - 1];
      if i > 0 { assert r[i] == rest[i - 1]; }
    }
  }

  /** `delete preferences[tag]` on a copy: the other keys keep their order. */
  function Remove(ps: seq<PrefEntry>, tag: string): (r: seq<PrefEntry>)
    ensures |r| <= |ps|
  {
    if ps == [] then []
    else if ps[0].tag == tag then Remove(ps[1..], tag)
    else [ps[0]] + Remove(ps[1..], tag)
  }

  /** After a delete the tag is absent and every other tag keeps its value. */
  lemma {:induction false} RemoveLookup(ps: seq<PrefEntry>, tag: string, u: string)
    ensures Lookup(Remove(ps, tag), u) == if u == tag then None else Lookup(ps, u)
  {
    if ps != [] {
      RemoveLookup(ps[1..], tag, u);
      if ps[0].tag != tag {
        var r := Remove(ps, tag);
        assert r[0] == ps[0] && r[1..] == Remove(ps[1..], tag);
      }
    }
  }

  /** A delete removes the tag from the keys, keeps them unique, and is a no-op for a missing tag. */
  lemma {:induction false} RemoveKeys(ps: seq<PrefEntry>, tag: string)
    ensures TagSet(Remove(ps, tag)) == TagSet(ps) - {tag}
    ensures UniqueTags(ps) ==> UniqueTags(Remove(ps, tag))
    ensures tag !in TagSet(ps) ==> Remove(ps, tag) == ps
  {
    if ps != [] {
      var rest := Remove(ps[1..], tag);
      RemoveKeys(ps[1..], tag);
      TagSetCons(ps[0], ps[1..]);
      assert ps == [ps[0]] + ps[1..];
      if UniqueTags(ps) {
        UniqueTail(ps);
      }
      if ps[0].tag != tag {
        TagSetCons(ps[0], rest);
        if UniqueTags(ps) {
          ConsUnique(ps[0], rest);
        }
      }
    }
  }

  /** The tag is a key whose entry has `default === true`. */
  predicate IsActive(ps: seq<PrefEntry>, tag: string)
  {
    exists i :: 0 <= i < |ps| && ps[i].tag == tag && ps[i].pref.isDefault
  }

  /** `Object.entries(preferences).filter(([, p]) => p.default === true).map(([tag]) => tag)`. */
  function ActiveTags(ps: seq<PrefEntry>): (r: seq<string>)
    ensures forall t :: t in r <==> IsActive(ps, t)
    ensures UniqueTags(ps) ==> Seqs.Distinct(r)
    ensures |r| <= |ps|
  {
    if ps == [] then []
    else
      var rest := ActiveTags(ps[1..]);
      assert forall t :: IsActive(ps, t) <==> (ps[0].tag == t && ps[0].pref.isDefault) || IsActive(ps[1..], t) by {
        forall t | IsActive(ps, t) ensures (ps[0].tag == t && ps[0].pref.isDefault) || IsActive(ps[1..], t) {
          var i :| 0 <= i < |ps| && ps[i].tag == t && ps[i].pref.isDefault;
          if i > 0 { assert ps[1..][i - 1] == ps[i]; }
        }
        forall t | IsActive(ps[1..], t) ensures IsActive(ps, t) {
          var i :| 0 <= i < |ps[1..]| && ps[1..][i].tag == t && ps[1..][i].pref.isDefault;
          assert ps[i + 1] == ps[1..][i];
        }
      }
      if ps[0].pref.isDefault then
        assert forall i :: 0 <= i < |ps[1..]| ==> ps[1..][i] == ps[i + 1];
        assert UniqueTags(ps) ==> !IsActive(ps[1..], ps[0].tag);
        [ps[0].tag] + rest
      else rest
  }

  /** With one key per tag, a tag is active exactly when its entry says `default: true`. */
  lemma ActiveIff(ps: seq<PrefEntry>, tag: string)
    requires UniqueTags(ps)
    ensures tag in ActiveTags(ps) <==> Lookup(ps, tag).Some? && Lookup(ps, tag).value.isDefault
  {
    if tag in ActiveTags(ps) {
      var i :| 0 <= i < |ps| && ps[i].tag == tag && ps[i].pref.isDefault;
      var j :| 0 <= j < |ps| && ps[j] == PrefEntry(tag, Lookup(ps, tag).value);
      assert i == j;
    }
  }

  /** Deleting a tag removes exactly that tag from the active list and keeps the rest in order. */
  lemma {:induction false} ActiveAfterRemove(ps: seq<PrefEntry>, tag: string)
    ensures ActiveTags(Remove(ps, tag)) == Seqs.Filter(ActiveTags(ps), t => t != tag)
  {
    if ps != [] {
      ActiveAfterRemove(ps[1..], tag);
      var rest := Remove(ps[1..], tag);
      if ps[0].tag != tag {
        var r := [ps[0]] + rest;
        assert r[1..] == rest;
        if ps[0].pref.isDefault {
          var a := [ps[0].tag] + ActiveTags(ps[1..]);
          assert a[0] == ps[0].tag && a[1..] == ActiveTags(ps[1..]);
        }
      } else if ps[0].pref.isDefault {
        var a := [ps[0].tag] + ActiveTags(ps[1..]);
        assert a[0] == ps[0].tag && a[1..] == ActiveTags(ps[1..]);
      }
    }
  }

  /** Setting the same tag twice is setting it once, with the later value. */
  lemma {:induction false} UpsertTwice(ps: seq<PrefEntry>, tag: string, p: Preference, q: Preference)
    ensures Upsert(Upsert(ps, tag, p), tag, q) == Upsert(ps, tag, q)
  {
    if ps != [] && ps[0].tag != tag {
      UpsertTwice(ps[1..], tag, p, q);
      var once := Upsert(ps, tag, p);
      assert once[0] == ps[0] && once[1..] == Upsert(ps[1..], tag, p);
    }
  }

  // ---------------------------------------------------------------------------
  // Counters

  /** `nudges[tag] || 0`. */
  function NudgeCount(nudges: map<string, nat>, tag: string): nat
  {
    if tag in nudges then nudges[tag] else 0
  }

  /** `signals.filter(s => s.tag === tag).length`. */
  function SignalCount(signals: seq<Signal>, tag: string): (n: nat)
    ensures n <= |signals|
  {
    if signals == [] then 0
    else (if signals[0].tag == tag then 1 else 0) + SignalCount(signals[1..], tag)
  }

  /** Appending a signal counts once for its own tag and not for any other. */
  lemma {:induction false} SignalCountAppend(signals: seq<Signal>, x: Signal, tag: string)
    ensures SignalCount(signals + [x], tag) == SignalCount(signals, tag) + (if x.tag == tag then 1 else 0)
  {
    if signals == [] {
      assert signals + [x] == [x];
    } else {
      assert (signals + [x])[1..] == signals[1..] + [x];
      SignalCountAppend(signals[1..], x, tag);
    }
  }

  // ---------------------------------------------------------------------------
  // The `prev => next` transformers

  /** The argument of `updateSettings(partial)` in its object form: the keys it sets. */
  datatype Patch = Patch(
    language: Option<string>,
    interests: Option<seq<string>>,
    community: Option<string>,
    outputStyle: Option<string>,
    textSize: Option<string>,
    defaultReadingLevel: Option<string>,
    microPromptsEnabled: Option<bool>,
    curiosity: Option<string>,
    hasOnboarded: Option<bool>,
    signals: Option<seq<Signal>>,
    preferences: Option<seq<PrefEntry>>,
    nudges: Option<map<string, nat>>,
    lastSession: Option<Option<int>>)

  /** A patch that sets nothing. */
  const EmptyPatch := Patch(None, None, None, None, None, None, None, None, None, None, None, None, None)

  function Pick<T>(o: Option<T>, otherwise: T): T
  {
    if o.Some? then o.value else otherwise
  }

  /** `{ ...prev, ...partial }`: every key the patch sets is taken from it, every other from `prev`. */
  function Merge(prev: Settings, patch: Patch): (r: Settings)
    ensures patch == EmptyPatch ==> r == prev
    ensures patch.language.Some? ==> r.language == patch.language.value
    ensures patch.language.None? ==> r.language == prev.language
    ensures patch.defaultReadingLevel.Some? ==> r.defaultReadingLevel == patch.defaultReadingLevel.value
    ensures patch.defaultReadingLevel.None? ==> r.defaultReadingLevel == prev.defaultReadingLevel
    ensures patch.hasOnboarded.Some? ==> r.hasOnboarded == patch.hasOnboarded.value
    ensures patch.hasOnboarded.None? ==> r.hasOnboarded == prev.hasOnboarded
    ensures patch.preferences.Some? ==> r.preferences == patch.preferences.value
    ensures patch.preferences.None? ==> r.preferences == prev.preferences
    ensures patch.signals.None? && patch.preferences.None? && patch.nudges.None? ==>
              r.signals == prev.signals && r.preferences == prev.preferences && r.nudges == prev.nudges
  {
    Settings(
      Pick(patch.language, prev.language),
      Pick(patch.interests, prev.interests),
      Pick(patch.community, prev.community),
      Pick(patch.outputStyle, prev.outputStyle),
      Pick(patch.textSize, prev.textSize),
      Pick(patch.defaultReadingLevel, prev.defaultReadingLevel),
      Pick(patch.microPromptsEnabled, prev.microPromptsEnabled),
      Pick(patch.curiosity, prev.curiosity),
      Pick(patch.hasOnboarded, prev.hasOnboarded),
      Pick(patch.signals, prev.signals),
      Pick(patch.preferences, prev.preferences),
      Pick(patch.nudges, prev.nudges),
      Pick(patch.lastSession, prev.lastSession))
  }

  /** The transformer of `addSignal(tag, context)` at time `now`. */
  function WithSignal(prev: Settings, tag: string, context: string, now: int): (r: Settings)
    ensures r.signals == prev.signals + [Signal(tag, context, now)]
    ensures r.lastSession == Some(now)
    ensures r == prev.(signals := r.signals, lastSession := r.lastSession)
  {
    prev.(signals := prev.signals + [Signal(tag, context, now)], lastSession := Some(now))
  }

  /** `addSignal` adds one signal to its own tag's count and none to any other tag's. */
  lemma AddSignalEffect(prev: Settings, tag: string, context: string, now: int, u: string)
    ensures SignalCount(WithSignal(prev, tag, context, now).signals, u)
            == SignalCount(prev.signals, u) + (if u == tag then 1 else 0)
  {
    SignalCountAppend(prev.signals, Signal(tag, context, now), u);
  }

  /** The transformer of `setPreference(tag, isDefault)` at time `now`. */
  function WithPreference(prev: Settings, tag: string, isDefault: bool, now: int): (r: Settings)
    ensures r == prev.(preferences := r.preferences)
  {
    if isDefault then prev.(preferences := Upsert(prev.preferences, tag, Preference(true, now)))
    else prev.(preferences := Remove(prev.preferences, tag))
  }

  /** `setPreference(tag, true)` turns the tag on and `setPreference(tag, false)` deletes it;
      no other key changes, and keys stay unique. */
  lemma SetPreferenceEffect(prev: Settings, tag: string, isDefault: bool, now: int, u: string)
    ensures var r := WithPreference(prev, tag, isDefault, now);
            && (isDefault ==> Lookup(r.preferences, tag) == Some(Preference(true, now)))
            && (!isDefault ==> Lookup(r.preferences, tag) == None)
            && (u != tag ==> Lookup(r.preferences, u) == Lookup(prev.preferences, u))
            && (UniqueTags(prev.preferences) ==> UniqueTags(r.preferences))
  {
    if isDefault {
      UpsertLookup(prev.preferences, tag, Preference(true, now), tag);
      UpsertLookup(prev.preferences, tag, Preference(true, now), u);
      UpsertKeys(prev.preferences, tag, Preference(true, now));
    } else {
      RemoveLookup(prev.preferences, tag, tag);
      RemoveLookup(prev.preferences, tag, u);
      RemoveKeys(prev.preferences, tag);
    }
  }

  /** Turning a tag on twice leaves the same keys as turning it on once. */
  lemma SetPreferenceTwiceSameKeys(prev: Settings, tag: string, t1: int, t2: int)
    ensures TagSet(WithPreference(WithPreference(prev, tag, true, t1), tag, true, t2).preferences)
            == TagSet(WithPreference(prev, tag, true, t1).preferences)
            == TagSet(prev.preferences) + {tag}
  {
    UpsertKeys(prev.preferences, tag, Preference(true, t1));
    UpsertKeys(Upsert(prev.preferences, tag, Preference(true, t1)), tag, Preference(true, t2));
  }

  /** Deleting a tag is a no-op when it is absent and idempotent; afterwards it is not active. */
  lemma UnsetPreference(prev: Settings, tag: string, now: int, later: int)
    ensures tag !in TagSet(prev.preferences) ==> WithPreference(prev, tag, false, now) == prev
    ensures var once := WithPreference(prev, tag, false, now);
            WithPreference(once, tag, false, later) == once && tag !in ActiveTags(once.preferences)
  {
    RemoveKeys(prev.preferences, tag);
    RemoveKeys(Remove(prev.preferences, tag), tag);
    var once := Remove(prev.preferences, tag);
    assert forall i :: 0 <= i < |once| ==> once[i].tag in TagSet(once);
  }

  /** The transformer of `dismissNudge(tag)`. */
  function WithDismissal(prev: Settings, tag: string): (r: Settings)
    ensures r == prev.(nudges := r.nudges)
    ensures NudgeCount(r.nudges, tag) == NudgeCount(prev.nudges, tag) + 1
    ensures forall u :: u != tag ==> NudgeCount(r.nudges, u) == NudgeCount(prev.nudges, u)
  {
    prev.(nudges := prev.nudges[tag := NudgeCount(prev.nudges, tag) + 1])
  }

  // ---------------------------------------------------------------------------
  // Queries

  /** The entry of the `contradictions` table for `tag`; a tag outside the table reads as `undefined`. */
  predicate Contradicts(s: Settings, tag: string)
    ensures Contradicts(s, tag) ==>
              tag == "tone:everyday" || tag == "tone:academic" || tag == "depth:short" || tag == "depth:scaffolded"
  {
    var table := map[
      "tone:everyday" := s.defaultReadingLevel == "simple",
      "tone:academic" := s.defaultReadingLevel == "standard",
      "depth:short" := s.outputStyle == "bullets",
      "depth:scaffolded" := s.outputStyle == "paragraphs"];
    tag in table && table[tag]
  }

  /** `preferences[tag]?.default`. */
  predicate HasPreference(s: Settings, tag: string)
  {
    Lookup(s.preferences, tag).Some? && Lookup(s.preferences, tag).value.isDefault
  }

  /** `shouldShowNudge(tag)`. */
  predicate ShouldShowNudge(s: Settings, tag: string)
    ensures ShouldShowNudge(s, tag) ==>
              && !HasPreference(s, tag) && NudgeCount(s.nudges, tag) < NudgeCap
              && SignalCount(s.signals, tag) >= SignalThreshold && !Contradicts(s, tag)
  {
    if HasPreference(s, tag) || NudgeCount(s.nudges, tag) >= NudgeCap then false
    else if SignalCount(s.signals, tag) < SignalThreshold then false
    else if Contradicts(s, tag) then false
    else true
  }

  /** The contradiction rule suppresses exactly four tag/setting combinations and no other tag. */
  lemma ContradictionCases(s: Settings, tag: string)
    ensures Contradicts(s, tag) <==>
              || (tag == "tone:everyday" && s.defaultReadingLevel == "simple")
              || (tag == "tone:academic" && s.defaultReadingLevel == "standard")
              || (tag == "depth:short" && s.outputStyle == "bullets")
              || (tag == "depth:scaffolded" && s.outputStyle == "paragraphs")
  {
    assert "tone:everyday"[5] != "tone:academic"[5];
    assert "depth:short"[7] != "depth:scaffolded"[7];
    assert |"tone:everyday"| != |"depth:short"| && |"tone:everyday"| != |"depth:scaffolded"|;
  }

  /** An active preference or two dismissals rule the nudge out, whatever the signals. */
  lemma SuppressedByPreferenceOrCap(s: Settings, tag: string)
    requires HasPreference(s, tag) || NudgeCount(s.nudges, tag) >= NudgeCap
    ensures !ShouldShowNudge(s, tag)
  {
  }

  /** Without a preference, a dismissal cap or a contradiction, the nudge needs two signals:
      it is off with fewer and on with two or more. */
  lemma SignalThresholdBoundary(s: Settings, tag: string)
    requires !HasPreference(s, tag) && NudgeCount(s.nudges, tag) < NudgeCap && !Contradicts(s, tag)
    ensures SignalCount(s.signals, tag) <= 1 ==> !ShouldShowNudge(s, tag)
    ensures SignalCount(s.signals, tag) >= 2 ==> ShouldShowNudge(s, tag)
  {
  }

  // ---------------------------------------------------------------------------
  // Sequences of the three learner-driven operations

  /** `addSignal`, `setPreference` and `dismissNudge`, the operations reached from the learner's clicks. */
  datatype Action =
    | AddSignal(tag: string, context: string, now: int)
    | SetPreference(tag: string, isDefault: bool, now: int)
    | DismissNudge(tag: string)

  function Apply(s: Settings, a: Action): Settings
  {
    match a
    case AddSignal(tag, context, now) => WithSignal(s, tag, context, now)
    case SetPreference(tag, isDefault, now) => WithPreference(s, tag, isDefault, now)
    case DismissNudge(tag) => WithDismissal(s, tag)
  }

  function Run(s: Settings, actions: seq<Action>): Settings
    decreases |actions|
  {
    if actions == [] then s else Run(Apply(s, actions[0]), actions[1..])
  }

  /** No learner-driven operation lowers a dismissal counter. */
  lemma {:induction false} CountersNeverDecrease(s: Settings, actions: seq<Action>, tag: string)
    ensures NudgeCount(Run(s, actions).nudges, tag) >= NudgeCount(s.nudges, tag)
    decreases |actions|
  {
    if actions != [] {
      var next := Apply(s, actions[0]);
      assert NudgeCount(next.nudges, tag) >= NudgeCount(s.nudges, tag);
      CountersNeverDecrease(next, actions[1..], tag);
    }
  }

  /** Once a nudge has been dismissed twice it is never offered again. */
  lemma CapIsPermanent(s: Settings, actions: seq<Action>, tag: string)
    requires NudgeCount(s.nudges, tag) >= NudgeCap
    ensures !ShouldShowNudge(Run(s, actions), tag)
  {
    CountersNeverDecrease(s, actions, tag);
  }

  /** Signals only accumulate: each operation leaves the earlier signals in place. */
  lemma {:induction false} SignalsOnlyGrow(s: Settings, actions: seq<Action>)
    ensures s.signals <= Run(s, actions).signals
    decreases |actions|
  {
    if actions != [] {
      SignalsOnlyGrow(Apply(s, actions[0]), actions[1..]);
    }
  }

  /** From the defaults, two "Music examples" reactions bring up the music nudge; two
      dismissals put it away for good. */
  lemma MusicNudgeScenario(c1: string, c2: string, t1: int, t2: int)
    ensures var s := Run(DefaultSettings, [AddSignal("lens:music", c1, t1), AddSignal("lens:music", c2, t2)]);
            ShouldShowNudge(s, "lens:music")
    ensures var s := Run(DefaultSettings, [AddSignal("lens:music", c1, t1), AddSignal("lens:music", c2, t2),
                                           DismissNudge("lens:music"), DismissNudge("lens:music")]);
            !ShouldShowNudge(s, "lens:music")
  {
    var tag := "lens:music";
    var s1 := WithSignal(DefaultSettings, tag, c1, t1);
    var s2 := WithSignal(s1, tag, c2, t2);
    SignalCountAppend([], Signal(tag, c1, t1), tag);
    SignalCountAppend(s1.signals, Signal(tag, c2, t2), tag);
    assert SignalCount(s2.signals, tag) == 2;
    ContradictionCases(s2, tag);
    var acts := [AddSignal(tag, c1, t1), AddSignal(tag, c2, t2)];
    assert Run(DefaultSettings, acts) == Run(s1, acts[1..]) == Run(s2, []) == s2;
    var s4 := WithDismissal(WithDismissal(s2, tag), tag);
    var more := acts + [DismissNudge(tag), DismissNudge(tag)];
    assert Run(DefaultSettings, more) == Run(s1, more[1..]);
    assert Run(s1, more[1..]) == Run(s2, more[2..]);
    assert Run(s2, more[2..]) == Run(WithDismissal(s2, tag), more[3..]);
    assert Run(WithDismissal(s2, tag), more[3..]) == s4;
    assert NudgeCount(s4.nudges, tag) == 2;
  }

  // ---------------------------------------------------------------------------
  // The provider

  datatype SessionStatus = Loading | Unauthenticated | Authenticated

  /** Where `saveSettings` writes: the database for a signed-in user, browser storage otherwise. */
  datatype StoreTarget = Database | BrowserStorage

  datatype SavedWrite = SavedWrite(target: StoreTarget, settings: Settings)

  /** The outcome of `GET /api/user/preferences`. */
  datatype RemoteLoad = RemoteOk(settings: Settings) | RemoteNotOk | RemoteThrew

  /** What the context hands to its consumers. */
  datatype ContextView = ContextView(settings: Settings, isAuthenticated: bool, isLoading: bool)

  /** `saveSettings`'s choice of store. */
  function TargetFor(userId: Option<string>): (t: StoreTarget)
    ensures t == Database <==> OrElse(userId, "") != ""
  {
    if OrElse(userId, "") != "" then Database else BrowserStorage
  }

  /** The settings after `loadSettings`: the database copy for a signed-in user when the
      request succeeds, else the stored copy when there is one; a request that throws, or
      nothing stored, leaves the current settings. */
  function LoadedSettings(current: Settings, userId: Option<string>, remote: RemoteLoad,
                          stored: Option<Settings>): (r: Settings)
    ensures OrElse(userId, "") != "" && remote.RemoteOk? ==> r == remote.settings
    ensures OrElse(userId, "") != "" && remote.RemoteThrew? ==> r == current
    ensures (OrElse(userId, "") == "" || remote.RemoteNotOk?) ==> r == Pick(stored, current)
  {
    if OrElse(userId, "") != "" then
      match remote
      case RemoteOk(db) => db
      case RemoteNotOk => Pick(stored, current)
      case RemoteThrew => current
    else Pick(stored, current)
  }

  /** The `contextValue` selection as written: while the session loads, and for a signed-out
      visitor, consumers see the defaults; a signed-in user sees the settings held. The
      `isLoading` handed out follows the session only, not the loading of the settings. */
  function ExposedViewAsWritten(status: SessionStatus, userId: Option<string>, settings: Settings): (v: ContextView)
    ensures status != Authenticated ==> v.settings == DefaultSettings
    ensures status == Unauthenticated ==> !v.isAuthenticated
    ensures v.isLoading <==> status == Loading
    ensures status == Authenticated ==> v.settings == settings
    ensures status != Unauthenticated ==> (v.isAuthenticated <==> OrElse(userId, "") != "")
  {
    match status
    case Loading => ContextView(DefaultSettings, OrElse(userId, "") != "", true)
    case Unauthenticated => ContextView(DefaultSettings, false, false)
    case Authenticated => ContextView(settings, OrElse(userId, "") != "", false)
  }

  /** The `contextValue` selection with `isLoading` also covering the loading of a signed-in
      user's settings, as the consumers' guards expect. */
  function ExposedView(status: SessionStatus, userId: Option<string>, settings: Settings, settingsLoading: bool): (v: ContextView)
    ensures status != Authenticated ==> v.settings == DefaultSettings
    ensures status == Unauthenticated ==> !v.isAuthenticated && !v.isLoading
    ensures status == Loading ==> v.isLoading
    ensures status == Authenticated ==> v.settings == settings && (v.isLoading <==> settingsLoading)
    ensures status != Unauthenticated ==> (v.isAuthenticated <==> OrElse(userId, "") != "")
  {
    match status
    case Loading => ContextView(DefaultSettings, OrElse(userId, "") != "", true)
    case Unauthenticated => ContextView(DefaultSettings, false, false)
    case Authenticated => ContextView(settings, OrElse(userId, "") != "", settingsLoading)
  }

  class SettingsStore {

    var settings: Settings
    var status: SessionStatus
    var userId: Option<string>
    var isLoading: bool
    /** Every call of `saveSettings`, oldest first. */
    var writes: seq<SavedWrite>

    /** The settings held keep one key per preference tag, as a JavaScript object does. */
    predicate Valid()
      reads this
    {
      UniqueTags(settings.preferences)
    }

    constructor (status: SessionStatus, userId: Option<string>)
      ensures Valid()
      ensures this.settings == DefaultSettings && this.status == status && this.userId == userId
      ensures isLoading && writes == []
    {
      this.settings := DefaultSettings;
      this.status := status;
      this.userId := userId;
      this.isLoading := true;
      this.writes := [];
    }

    /** `getActivePreferences()`. */
    function ActivePreferences(): (r: seq<string>)
      reads this
      requires Valid()
      ensures forall t :: t in r <==> IsActive(settings.preferences, t)
      ensures Seqs.Distinct(r)
    {
      ActiveTags(settings.preferences)
    }

    /** `shouldShowNudge(tag)`, judged on the settings held rather than on the view handed
        out, so for a signed-in user on the same settings the consumers see. */
    predicate ShouldShow(tag: string)
      reads this
      ensures status == Authenticated ==> (ShouldShow(tag) <==> ShouldShowNudge(View().settings, tag))
      ensures ShouldShow(tag) ==> SignalCount(settings.signals, tag) >= SignalThreshold
    {
      ShouldShowNudge(settings, tag)
    }

    /** `contextValue` as the provider builds it: the defaults until a user is signed in,
        then the settings held; `isLoading` follows the session status alone, so it is
        false for a signed-in user even while that user's settings are still loading. */
    function View(): (v: ContextView)
      reads this
      ensures status != Authenticated ==> v.settings == DefaultSettings
      ensures status == Authenticated ==> v.settings == settings && !v.isLoading
      ensures status == Loading ==> v.isLoading
      ensures status == Unauthenticated ==> !v.isLoading && !v.isAuthenticated
      ensures status != Unauthenticated ==> (v.isAuthenticated <==> OrElse(userId, "") != "")
    {
      ExposedViewAsWritten(status, userId, settings)
    }

    /** `updateSettings(partial)` with an object: merge, then save the new record. */
    method UpdateSettings(patch: Patch)
      requires Valid()
      requires patch.preferences.Some? ==> UniqueTags(patch.preferences.value)
      modifies this`settings, this`writes
      ensures Valid()
      ensures settings == Merge(old(settings), patch)
      ensures writes == old(writes) + [SavedWrite(TargetFor(userId), settings)]
    {
      settings := Merge(settings, patch);
      writes := writes + [SavedWrite(TargetFor(userId), settings)];
    }

    /** `resetSettings()`. */
    method ResetSettings()
      requires Valid()
      modifies this`settings, this`writes
      ensures Valid()
      ensures settings == DefaultSettings
      ensures writes == old(writes) + [SavedWrite(TargetFor(userId), DefaultSettings)]
    {
      settings := DefaultSettings;
      writes := writes + [SavedWrite(TargetFor(userId), settings)];
    }

    /** `addSignal(tag, context)` at time `now`. */
    method AddSignal(tag: string, context: string, now: int)
      requires Valid()
      modifies this`settings, this`writes
      ensures Valid()
      ensures settings == WithSignal(old(settings), tag, context, now)
      ensures writes == old(writes) + [SavedWrite(TargetFor(userId), settings)]
    {
      settings := WithSignal(settings, tag, context, now);
      writes := writes + [SavedWrite(TargetFor(userId), settings)];
    }

    /** `setPreference(tag, isDefault)` at time `now`. */
    method SetPreference(tag: string, isDefault: bool, now: int)
      requires Valid()
      modifies this`settings, this`writes
      ensures Valid()
      ensures settings == WithPreference(old(settings), tag, isDefault, now)
      ensures writes == old(writes) + [SavedWrite(TargetFor(userId), settings)]
    {
      SetPreferenceEffect(settings, tag, isDefault, now, tag);
      settings := WithPreference(settings, tag, isDefault, now);
      writes := writes + [SavedWrite(TargetFor(userId), settings)];
    }

    /** `dismissNudge(tag)`. */
    method DismissNudge(tag: string)
      requires Valid()
      modifies this`settings, this`writes
      ensures Valid()
      ensures settings == WithDismissal(old(settings), tag)
      ensures writes == old(writes) + [SavedWrite(TargetFor(userId), settings)]
    {
      settings := WithDismissal(settings, tag);
      writes := writes + [SavedWrite(TargetFor(userId), settings)];
    }

    /** A new session status arrives; once it is no longer loading, `loadSettings` runs with
        the given outcomes of the database request and of browser storage. */
    method SessionChanged(newStatus: SessionStatus, newUserId: Option<string>,
                          remote: RemoteLoad, stored: Option<Settings>)
      requires Valid()
      requires remote.RemoteOk? ==> UniqueTags(remote.settings.preferences)
      requires stored.Some? ==> UniqueTags(stored.value.preferences)
      modifies this`status, this`userId, this`settings, this`isLoading
      ensures Valid()
      ensures status == newStatus && userId == newUserId
      ensures newStatus == Loading ==> settings == old(settings) && isLoading == old(isLoading)
      ensures newStatus != Loading ==>
                settings == LoadedSettings(old(settings), newUserId, remote, stored) && !isLoading
    {
      status := newStatus;
      userId := newUserId;
      if newStatus != Loading {
        settings := LoadedSettings(settings, userId, remote, stored);
        isLoading := false;
      }
    }
  }

}
