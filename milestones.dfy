/** app/utils/milestone_utils.py: the milestone badges the journey summary
    shows for a journal. `detect_reflection_milestones` counts themes and
    tones and reports those seen often enough; `detect_milestones` names the
    stages a journal has reached. */
module Milestones {
  import opened Basics
  import opened Text
  import opened Journal
  import opened Counting

  // ---------------------------------------------------------------- detect_reflection_milestones

  /** A theme explored, or a tone carried, `count` times. */
  datatype Milestone =
    | Explored(theme: string, count: nat)
    | Carried(tone: string, count: nat)

  const EXPLORED_LEAD := "\U{1F331} You’ve explored **"
  const EXPLORED_TAIL := " reflections."
  const CARRIED_LEAD := "\U{1F3A8} Your reflections often carry a **"
  const CARRIED_TAIL := " times this month."

  /** The line the journey summary shows for a milestone. */
  function Message(m: Milestone): string {
    match m
    case Explored(theme, count) => EXPLORED_LEAD + theme + "** in " + NatToString(count) + EXPLORED_TAIL
    case Carried(tone, count) => CARRIED_LEAD + tone + "** tone—" + NatToString(count) + CARRIED_TAIL
  }

  /** `[message(m) for m in ms]`. */
  function Messages(ms: seq<Milestone>): (r: seq<string>)
    ensures |r| == |ms|
  {
    if ms == [] then [] else Messages(ms[..|ms| - 1]) + [Message(ms[|ms| - 1])]
  }

  /** The themes of a counter with at least `threshold` occurrences, in the
      counter's order. */
  function ThemeMilestones(c: Counter, threshold: int): seq<Milestone> {
    if c == [] then []
    else ThemeMilestones(c[..|c| - 1], threshold)
         + (if c[|c| - 1].1 >= threshold then [Explored(c[|c| - 1].0, c[|c| - 1].1)] else [])
  }

  /** A theme milestone is listed for each pair of the counter reaching the
      threshold, and none twice when the counter's keys do not repeat. */
  lemma {:induction false} ThemeMilestonesSpec(c: Counter, threshold: int)
    ensures forall m :: m in ThemeMilestones(c, threshold) <==> m.Explored? && (m.theme, m.count) in c && m.count >= threshold
    ensures Distinct(Keys(c)) ==> Distinct(ThemeMilestones(c, threshold))
  {
    if c != [] {
      var init := c[..|c| - 1];
      ThemeMilestonesSpec(init, threshold);
      assert c == init + [c[|c| - 1]];
      if Distinct(Keys(c)) {
        KeysOfPrefixDistinct(c);
        var ms := ThemeMilestones(init, threshold);
        forall m | m in ms ensures m.theme != c[|c| - 1].0 {
          var k :| 0 <= k < |init| && init[k] == (m.theme, m.count);
          assert Keys(c)[k] == m.theme && Keys(c)[|c| - 1] == c[|c| - 1].0;
        }
      }
    }
  }

  /** The tones of a counter with at least `threshold` occurrences, in the
      counter's order. */
  function ToneMilestones(c: Counter, threshold: int): seq<Milestone> {
    if c == [] then []
    else ToneMilestones(c[..|c| - 1], threshold)
         + (if c[|c| - 1].1 >= threshold then [Carried(c[|c| - 1].0, c[|c| - 1].1)] else [])
  }

  /** A tone milestone is listed for each pair of the counter reaching the
      threshold, and none twice when the counter's keys do not repeat. */
  lemma {:induction false} ToneMilestonesSpec(c: Counter, threshold: int)
    ensures forall m :: m in ToneMilestones(c, threshold) <==> m.Carried? && (m.tone, m.count) in c && m.count >= threshold
    ensures Distinct(Keys(c)) ==> Distinct(ToneMilestones(c, threshold))
  {
    if c != [] {
      var init := c[..|c| - 1];
      ToneMilestonesSpec(init, threshold);
      assert c == init + [c[|c| - 1]];
      if Distinct(Keys(c)) {
        KeysOfPrefixDistinct(c);
        var ms := ToneMilestones(init, threshold);
        forall m | m in ms ensures m.tone != c[|c| - 1].0 {
          var k :| 0 <= k < |init| && init[k] == (m.tone, m.count);
          assert Keys(c)[k] == m.tone && Keys(c)[|c| - 1] == c[|c| - 1].0;
        }
      }
    }
  }

  /** Dropping the last pair of a counter keeps its keys distinct. */
  lemma KeysOfPrefixDistinct(c: Counter)
    requires c != [] && Distinct(Keys(c))
    ensures Distinct(Keys(c[..|c| - 1]))
  {
    var init := c[..|c| - 1];
    var ks, pre := Keys(c), Keys(init);
    forall i, j | 0 <= i < j < |pre| ensures pre[i] != pre[j] {
      assert pre[i] == init[i].0 == c[i].0 == ks[i];
      assert pre[j] == init[j].0 == c[j].0 == ks[j];
    }
  }

  /** The milestones of a journal: the themes, then the tones, reaching
      their thresholds. Entries without a theme (or tone), or with an empty
      one, are not counted. */
  function ReflectionMilestones(journal: seq<Entry>, themeThreshold: int, toneThreshold: int): seq<Milestone> {
    ThemeMilestones(Tally(Truthy(journal, "theme")), themeThreshold)
    + ToneMilestones(Tally(Truthy(journal, "tone")), toneThreshold)
  }

  /** `detect_reflection_milestones(journal, theme_threshold, tone_threshold)`. */
  method DetectReflectionMilestones(journal: seq<Entry>, themeThreshold: int := 5, toneThreshold: int := 7)
    returns (milestones: seq<string>)
    ensures milestones == Messages(ReflectionMilestones(journal, themeThreshold, toneThreshold))
  {
    var themeCounts := Tally(Truthy(journal, "theme"));
    var toneCounts := Tally(Truthy(journal, "tone"));
    var themeLines := ThemeLines(themeCounts, themeThreshold);
    var toneLines := ToneLines(toneCounts, toneThreshold);
    milestones := themeLines + toneLines;
    MessagesAppend(ThemeMilestones(themeCounts, themeThreshold), ToneMilestones(toneCounts, toneThreshold));
  }

  /** The first loop of `detect_reflection_milestones`: a line for each
      theme of the counter reaching the threshold, in the counter's order. */
  method ThemeLines(themeCounts: Counter, themeThreshold: int) returns (lines: seq<string>)
    ensures lines == Messages(ThemeMilestones(themeCounts, themeThreshold))
  {
    lines := [];
    ghost var reached: seq<Milestone> := [];
    for i := 0 to |themeCounts|
      invariant reached == ThemeMilestones(themeCounts[..i], themeThreshold)
      invariant lines == Messages(reached)
    {
      ThemeMilestonesSnoc(themeCounts, i, themeThreshold);
      var (theme, count) := themeCounts[i];
      if count >= themeThreshold {
        MessagesSnoc(reached, Explored(theme, count));
        reached := reached + [Explored(theme, count)];
        lines := lines + [Message(Explored(theme, count))];
      }
    }
    assert themeCounts[..|themeCounts|] == themeCounts;
  }

  /** The second loop of `detect_reflection_milestones`: a line for each
      tone of the counter reaching the threshold, in the counter's order. */
  method ToneLines(toneCounts: Counter, toneThreshold: int) returns (lines: seq<string>)
    ensures lines == Messages(ToneMilestones(toneCounts, toneThreshold))
  {
    lines := [];
    ghost var reached: seq<Milestone> := [];
    for i := 0 to |toneCounts|
      invariant reached == ToneMilestones(toneCounts[..i], toneThreshold)
      invariant lines == Messages(reached)
    {
      ToneMilestonesSnoc(toneCounts, i, toneThreshold);
      var (tone, count) := toneCounts[i];
      if count >= toneThreshold {
        MessagesSnoc(reached, Carried(tone, count));
        reached := reached + [Carried(tone, count)];
        lines := lines + [Message(Carried(tone, count))];
      }
    }
    assert toneCounts[..|toneCounts|] == toneCounts;
  }

  /** The messages of two lists of milestones, one after the other. */
  lemma {:induction false} MessagesAppend(ms: seq<Milestone>, ns: seq<Milestone>)
    ensures Messages(ms + ns) == Messages(ms) + Messages(ns)
  {
    if ns != [] {
      var init, last := ns[..|ns| - 1], ns[|ns| - 1];
      assert ns == init + [last];
      assert ms + ns == (ms + init) + [last];
      MessagesAppend(ms, init);
      MessagesSnoc(ms + init, last);
      MessagesSnoc(init, last);
    } else {
      assert ms + ns == ms;
    }
  }

  /** One more counter pair adds its theme milestone when it reaches the
      threshold. */
  lemma ThemeMilestonesSnoc(c: Counter, i: nat, threshold: int)
    requires i < |c|
    ensures ThemeMilestones(c[..i + 1], threshold)
            == ThemeMilestones(c[..i], threshold) + (if c[i].1 >= threshold then [Explored(c[i].0, c[i].1)] else [])
  {
    assert c[..i + 1][..i] == c[..i];
  }

  /** One more counter pair adds its tone milestone when it reaches the
      threshold. */
  lemma ToneMilestonesSnoc(c: Counter, i: nat, threshold: int)
    requires i < |c|
    ensures ToneMilestones(c[..i + 1], threshold)
            == ToneMilestones(c[..i], threshold) + (if c[i].1 >= threshold then [Carried(c[i].0, c[i].1)] else [])
  {
    assert c[..i + 1][..i] == c[..i];
  }

  lemma MessagesSnoc(ms: seq<Milestone>, m: Milestone)
    ensures Messages(ms + [m]) == Messages(ms) + [Message(m)]
  {
    assert (ms + [m])[..|ms|] == ms;
  }

  /** A pair is stored in a well-formed counter exactly when it is a key
      with its count. */
  lemma PairInCounter(c: Counter, k: string, n: nat)
    requires WellFormed(c)
    ensures (k, n) in c <==> k in Keys(c) && n == CountOf(c, k)
  {
    if (k, n) in c {
      var i :| 0 <= i < |c| && c[i] == (k, n);
      CountAtPosition(c, i);
    }
    if k in Keys(c) {
      var i :| 0 <= i < |c| && Keys(c)[i] == k;
      CountAtPosition(c, i);
    }
  }

  /** A theme milestone is reported for exactly the labels reaching the
      threshold, with their number of occurrences. */
  lemma ExploredExactly(themes: seq<string>, threshold: int)
    ensures forall t: string, n: nat :: Explored(t, n) in ThemeMilestones(Tally(themes), threshold) <==>
              t in themes && n == multiset(themes)[t] && n >= threshold
  {
    TallySpec(themes);
    ThemeMilestonesSpec(Tally(themes), threshold);
    forall t: string, n: nat ensures Explored(t, n) in ThemeMilestones(Tally(themes), threshold) <==>
                                     t in themes && n == multiset(themes)[t] && n >= threshold
    {
      PairInCounter(Tally(themes), t, n);
    }
  }

  /** A tone milestone is reported for exactly the labels reaching the
      threshold, with their number of occurrences. */
  lemma CarriedExactly(tones: seq<string>, threshold: int)
    ensures forall t: string, n: nat :: Carried(t, n) in ToneMilestones(Tally(tones), threshold) <==>
              t in tones && n == multiset(tones)[t] && n >= threshold
  {
    TallySpec(tones);
    ToneMilestonesSpec(Tally(tones), threshold);
    forall t: string, n: nat ensures Carried(t, n) in ToneMilestones(Tally(tones), threshold) <==>
                                     t in tones && n == multiset(tones)[t] && n >= threshold
    {
      PairInCounter(Tally(tones), t, n);
    }
  }

  /** No milestone is reported twice: a counter lists each label once. */
  lemma MilestonesDistinct(journal: seq<Entry>, themeThreshold: int, toneThreshold: int)
    ensures Distinct(ReflectionMilestones(journal, themeThreshold, toneThreshold))
  {
    var themes, tones := Truthy(journal, "theme"), Truthy(journal, "tone");
    var a, b := ThemeMilestones(Tally(themes), themeThreshold), ToneMilestones(Tally(tones), toneThreshold);
    TallyKeysInFirstOccurrenceOrder(themes);
    TallyKeysInFirstOccurrenceOrder(tones);
    DedupSpec(themes);
    DedupSpec(tones);
    ThemeMilestonesSpec(Tally(themes), themeThreshold);
    ToneMilestonesSpec(Tally(tones), toneThreshold);
    DistinctConcat(a, b);
  }

  /** Theme milestones followed by tone milestones, each list without
      repeats, repeat nothing. */
  lemma DistinctConcat(a: seq<Milestone>, b: seq<Milestone>)
    requires Distinct(a) && Distinct(b)
    requires forall m :: m in a ==> m.Explored?
    requires forall m :: m in b ==> m.Carried?
    ensures Distinct(a + b)
  {
    var r := a + b;
    forall i, j | 0 <= i < j < |r| ensures r[i] != r[j] {
      if j < |a| {
        assert r[i] == a[i] && r[j] == a[j];
      } else if i >= |a| {
        assert r[i] == b[i - |a|] && r[j] == b[j - |a|];
      } else {
        assert r[i] == a[i] && r[i] in a && r[j] == b[j - |a|] && r[j] in b;
      }
    }
  }

  /** What `detect_reflection_milestones` reports: a theme milestone for
      exactly the non-empty themes occurring at least `themeThreshold` times,
      with that number, likewise for tones, themes before tones, and nothing
      at all for an empty journal. */
  lemma ReflectionMilestonesSpec(journal: seq<Entry>, themeThreshold: int, toneThreshold: int)
    ensures var r := ReflectionMilestones(journal, themeThreshold, toneThreshold);
            var themes, tones := Truthy(journal, "theme"), Truthy(journal, "tone");
            && (forall t: string, n: nat :: Explored(t, n) in r <==> t in themes && n == multiset(themes)[t] && n >= themeThreshold)
            && (forall t: string, n: nat :: Carried(t, n) in r <==> t in tones && n == multiset(tones)[t] && n >= toneThreshold)
            && (forall i, j :: 0 <= i < j < |r| ==> !(r[i].Carried? && r[j].Explored?))
            && Distinct(r)
            && (journal == [] ==> r == [])
  {
    var themes, tones := Truthy(journal, "theme"), Truthy(journal, "tone");
    var a, b := ThemeMilestones(Tally(themes), themeThreshold), ToneMilestones(Tally(tones), toneThreshold);
    var r := a + b;
    ThemeMilestonesSpec(Tally(themes), themeThreshold);
    ToneMilestonesSpec(Tally(tones), toneThreshold);
    ExploredExactly(themes, themeThreshold);
    CarriedExactly(tones, toneThreshold);
    MilestonesDistinct(journal, themeThreshold, toneThreshold);
    if journal == [] {
      assert Tally(themes) == [] && Tally(tones) == [];
    }
  }

  // ---------------------------------------------------------------- detect_milestones

  /** The stages `detect_milestones` can report, in the order it lists them. */
  datatype Stage = FirstReflection | ToneShift | ThemeCluster | ExportReady

  /** The name the source gives each stage. */
  function Name(s: Stage): string {
    match s
    case FirstReflection => "First Reflection"
    case ToneShift => "Tone Shift"
    case ThemeCluster => "Theme Cluster"
    case ExportReady => "Export Ready"
  }

  /** The place of each stage in the list. */
  function Rank(s: Stage): nat {
    match s
    case FirstReflection => 0
    case ToneShift => 1
    case ThemeCluster => 2
    case ExportReady => 3
  }

  /** Two entries with a tone carry different tones. */
  ghost predicate HasToneShift(journal: seq<Entry>) {
    exists i, j :: 0 <= i < |journal| && 0 <= j < |journal|
      && "tone" in journal[i] && "tone" in journal[j] && journal[i]["tone"] != journal[j]["tone"]
  }

  /** Some theme is carried by three entries or more. */
  ghost predicate HasThemeCluster(journal: seq<Entry>) {
    exists t :: t in Present(journal, "theme") && multiset(Present(journal, "theme"))[t] >= 3
  }

  /** The first reflection, then each later stage whose flag is set. */
  function Reached(toneShift: bool, themeCluster: bool, exportReady: bool): (r: seq<Stage>)
    ensures |r| > 0 && r[0] == FirstReflection
    ensures ToneShift in r <==> toneShift
    ensures ThemeCluster in r <==> themeCluster
    ensures ExportReady in r <==> exportReady
    ensures forall i, j :: 0 <= i < j < |r| ==> Rank(r[i]) < Rank(r[j])
  {
    [FirstReflection]
    + (if toneShift then [ToneShift] else [])
    + (if themeCluster then [ThemeCluster] else [])
    + (if exportReady then [ExportReady] else [])
  }

  /** The stages a journal has reached: none for an empty journal; otherwise
      the first reflection, a tone shift exactly when two entries carry
      different tones, a theme cluster exactly when a theme recurs three
      times, export readiness exactly from ten entries on, each at most once
      and in the fixed order. */
  function Stages(journal: seq<Entry>): (r: seq<Stage>)
    ensures journal == [] <==> r == []
    ensures journal != [] ==> r[0] == FirstReflection
    ensures journal != [] ==> (ToneShift in r <==> HasToneShift(journal))
    ensures journal != [] ==> (ThemeCluster in r <==> HasThemeCluster(journal))
    ensures ExportReady in r <==> |journal| >= 10
    ensures forall i, j :: 0 <= i < j < |r| ==> Rank(r[i]) < Rank(r[j])
  {
    if journal == [] then []
    else
      var tones := Present(journal, "tone");
      var themes := Present(journal, "theme");
      ToneShiftBySet(journal);
      Reached(|set t | t in tones| > 1, exists t | t in themes :: multiset(themes)[t] >= 3, |journal| >= 10)
  }

  /** The names of a list of stages, in order; a name is listed exactly
      when its stage is. */
  function Names(stages: seq<Stage>): (r: seq<string>)
    ensures |r| == |stages|
    ensures forall i :: 0 <= i < |r| ==> r[i] == Name(stages[i])
    ensures forall s :: Name(s) in r <==> s in stages
  {
    NameInjective();
    if stages == [] then []
    else [Name(stages[0])] + Names(stages[1..])
  }

  /** `detect_milestones(journal_entries)`: nothing for an empty journal;
      otherwise "First Reflection" first, then "Tone Shift", "Theme
      Cluster" and "Export Ready" exactly when their conditions hold, in
      that order and each once. */
  function DetectMilestones(journal: seq<Entry>): (r: seq<string>)
    ensures journal == [] <==> r == []
    ensures journal != [] ==> r[0] == "First Reflection"
    ensures journal != [] ==> ("Tone Shift" in r <==> HasToneShift(journal))
    ensures journal != [] ==> ("Theme Cluster" in r <==> HasThemeCluster(journal))
    ensures "Export Ready" in r <==> |journal| >= 10
    ensures |r| == |Stages(journal)| && forall i :: 0 <= i < |r| ==> r[i] == Name(Stages(journal)[i])
  {
    var stages := Stages(journal);
    assert Name(ToneShift) == "Tone Shift" && Name(ThemeCluster) == "Theme Cluster" && Name(ExportReady) == "Export Ready";
    Names(stages)
  }

  /** Different stages have different names. */
  lemma NameInjective()
    ensures forall a, b :: Name(a) == Name(b) ==> a == b
  {
  }

  /** `len(set(tones)) > 1` says that two entries carry different tones. */
  lemma ToneShiftBySet(journal: seq<Entry>)
    ensures |set t | t in Present(journal, "tone")| > 1 <==> HasToneShift(journal)
  {
    var tones := Present(journal, "tone");
    var toneSet := set t | t in tones;
    if |toneSet| > 1 {
      TwoElementsInSet(toneSet);
      var a, b :| a in toneSet && b in toneSet && a != b;
      var e1 :| e1 in journal && "tone" in e1 && e1["tone"] == a;
      var e2 :| e2 in journal && "tone" in e2 && e2["tone"] == b;
      var i :| 0 <= i < |journal| && journal[i] == e1;
      var j :| 0 <= j < |journal| && journal[j] == e2;
      assert "tone" in journal[i] && "tone" in journal[j] && journal[i]["tone"] != journal[j]["tone"];
    }
    if HasToneShift(journal) {
      var i, j :| 0 <= i < |journal| && 0 <= j < |journal|
        && "tone" in journal[i] && "tone" in journal[j] && journal[i]["tone"] != journal[j]["tone"];
      assert journal[i] in journal && journal[j] in journal;
      SetWithTwo(toneSet, journal[i]["tone"], journal[j]["tone"]);
    }
  }
}
