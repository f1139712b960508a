/** utils/reflection_summary_engine.py: `ReflectionSummaryEngine` counts the
    tones, themes and moods of a list of journal entries when it is built,
    and then reports the most common of each, a summary paragraph, an advice
    line and the span of dates the entries cover.

    Parsing a timestamp (`datetime.fromisoformat`) is the parameter
    `instant`, which orders timestamps, and rendering its date
    (`strftime("%Y-%m-%d")`) is the parameter `day`. */
module SummaryEngine {
  import opened Basics
  import opened Text
  import opened Journal
  import opened Counting
  import opened Icons

  const UNSPECIFIED := "Unspecified"

  // ---------------------------------------------------------------- most common label

  /** `r` is what `Counter(labels).most_common(1)[0][0] if ... else
      "Unspecified"` yields: "Unspecified" for no labels, otherwise a label
      occurring at least as often as any other and, among those, the one
      seen first. */
  ghost predicate IsTopLabel(r: string, labels: seq<string>) {
    && (labels == [] ==> r == UNSPECIFIED)
    && (labels != [] ==>
          && r in labels
          && (forall t :: multiset(labels)[t] <= multiset(labels)[r])
          && (forall j :: 0 <= j < |labels| && r !in labels[..j + 1] ==>
                multiset(labels)[labels[j]] < multiset(labels)[r]))
  }

  /** The most common label of a list, "Unspecified" for none. */
  function TopLabel(labels: seq<string>): (r: string)
    ensures IsTopLabel(r, labels)
  {
    if labels != [] then MostCommonOfTally(labels); MostCommonOr(Tally(labels), "")
    else assert Tally(labels) == []; UNSPECIFIED
  }

  /** The most common label is the same however the counter is built: it
      is the label `MostCommonOr` picks from `Counter(labels)`. */
  lemma TopLabelOfCounter(labels: seq<string>)
    ensures TopLabel(labels) == MostCommonOr(Tally(labels), UNSPECIFIED)
  {
    if labels == [] {
      assert Tally(labels) == [];
    } else {
      TallySpec(labels);
      assert labels[0] in Keys(Tally(labels));
    }
  }

  // ---------------------------------------------------------------- generate_summary

  function Bold(s: string): string { "**" + s + "**" }
  function Italic(s: string): string { "*" + s + "*" }

  /** The fixed pieces of the `generate_summary` paragraph, in order. */
  const TONE_LEAD := " Your reflections often carry a "
  const THEME_LEAD := " tone, with themes like "
  const MOOD_LEAD := " appearing most frequently. "
  const MOOD_TEXT := " You've expressed a mood of "
  const JOURNEY_LEAD := ", suggesting a season of emotional depth.\n\n\U{1F9ED} You might consider exploring a guided journey on "
  const TONE_AGAIN := ", or reflecting on how your tone of "
  const CLOSING := " has shaped your recent entries."

  /** The paragraph of `generate_summary` for the given top labels: it opens
      with the tone's icon and names each label in bold, then the theme and
      the tone again in italics. */
  function SummaryText(tone: string, theme: string, mood: string): (r: string)
    ensures Contains(r, Bold(tone)) && Contains(r, Bold(theme)) && Contains(r, Bold(mood))
    ensures Contains(r, Italic(theme)) && Contains(r, Italic(tone))
    ensures var icon := IconOr(ToneIcon(tone), UNKNOWN_ICON); |icon| <= |r| && r[..|icon|] == icon
  {
    Paragraph(tone, theme, mood, IconOr(ToneIcon(tone), UNKNOWN_ICON), IconOr(ThemeIcon(theme), UNKNOWN_ICON),
              IconOr(MoodIcon(mood), UNKNOWN_ICON))
  }

  /** The close of the paragraph: the theme, then the tone, in italics. */
  function Closing(tone: string, theme: string): (r: string)
    ensures Contains(r, Italic(theme)) && Contains(r, Italic(tone))
  {
    var rest := TONE_AGAIN + (Italic(tone) + CLOSING);
    ContainsPrefix(Italic(tone), CLOSING);
    ContainsPrepend(TONE_AGAIN, Italic(tone) + CLOSING, Italic(tone));
    ContainsPrefix(Italic(theme), rest);
    ContainsPrepend(Italic(theme), rest, Italic(tone));
    Italic(theme) + rest
  }

  /** The middle of the paragraph, from the mood on. */
  function MoodAndClosing(tone: string, theme: string, mood: string, moodIcon: string): (r: string)
    ensures Contains(r, Italic(theme)) && Contains(r, Italic(tone)) && Contains(r, Bold(mood))
  {
    var closing := Closing(tone, theme);
    var rest := JOURNEY_LEAD + closing;
    ContainsPrepend(JOURNEY_LEAD, closing, Italic(tone));
    ContainsPrepend(JOURNEY_LEAD, closing, Italic(theme));
    var withMood := Bold(mood) + rest;
    ContainsPrefix(Bold(mood), rest);
    ContainsPrepend(Bold(mood), rest, Italic(tone));
    ContainsPrepend(Bold(mood), rest, Italic(theme));
    var lead := MOOD_LEAD + moodIcon + MOOD_TEXT;
    ContainsPrepend(lead, withMood, Italic(tone));
    ContainsPrepend(lead, withMood, Italic(theme));
    ContainsPrepend(lead, withMood, Bold(mood));
    lead + withMood
  }

  /** The paragraph from the theme on. */
  function ThemeOnwards(tone: string, theme: string, mood: string, moodIcon: string): (r: string)
    ensures Contains(r, Italic(theme)) && Contains(r, Italic(tone)) && Contains(r, Bold(mood))
    ensures Contains(r, Bold(theme))
  {
    var rest := MoodAndClosing(tone, theme, mood, moodIcon);
    ContainsPrefix(Bold(theme), rest);
    ContainsPrepend(Bold(theme), rest, Italic(tone));
    ContainsPrepend(Bold(theme), rest, Italic(theme));
    ContainsPrepend(Bold(theme), rest, Bold(mood));
    Bold(theme) + rest
  }

  /** The paragraph with the three icons already looked up. */
  function Paragraph(tone: string, theme: string, mood: string, toneIcon: string, themeIcon: string, moodIcon: string)
    : (r: string)
    ensures Contains(r, Bold(tone)) && Contains(r, Bold(theme)) && Contains(r, Bold(mood))
    ensures Contains(r, Italic(theme)) && Contains(r, Italic(tone))
    ensures |toneIcon| <= |r| && r[..|toneIcon|] == toneIcon
  {
    var fromTheme := ThemeOnwards(tone, theme, mood, moodIcon);
    var themeLead := THEME_LEAD + themeIcon + " ";
    ContainsPrepend(themeLead, fromTheme, Italic(tone));
    ContainsPrepend(themeLead, fromTheme, Italic(theme));
    ContainsPrepend(themeLead, fromTheme, Bold(mood));
    ContainsPrepend(themeLead, fromTheme, Bold(theme));
    var t3 := themeLead + fromTheme;
    ContainsPrefix(Bold(tone), t3);
    ContainsPrepend(Bold(tone), t3, Italic(tone));
    ContainsPrepend(Bold(tone), t3, Italic(theme));
    ContainsPrepend(Bold(tone), t3, Bold(mood));
    ContainsPrepend(Bold(tone), t3, Bold(theme));
    var t2 := Bold(tone) + t3;
    var toneLead := toneIcon + TONE_LEAD;
    ContainsPrepend(toneLead, t2, Italic(tone));
    ContainsPrepend(toneLead, t2, Italic(theme));
    ContainsPrepend(toneLead, t2, Bold(mood));
    ContainsPrepend(toneLead, t2, Bold(theme));
    ContainsPrepend(toneLead, t2, Bold(tone));
    assert (toneLead + t2)[..|toneIcon|] == toneIcon;
    toneLead + t2
  }

  // ---------------------------------------------------------------- generate_advice

  const ADVICE_FALLBACK := "Embrace the journey of self-discovery with an open heart."

  /** `advice_map.get(tone, fallback)`. */
  function Advice(tone: string): string {
    match tone
    case "Gentle" => "Consider embracing moments of stillness and self-compassion."
    case "Empowering" => "Channel your inner strength to overcome challenges."
    case "Resilient" => "Reflect on past triumphs to fuel your current journey."
    case "Spiritual" => "Deepen your connection with your spiritual practices."
    case "Growth" => "Set small, achievable goals to foster continuous growth."
    case "Healing" => "Allow yourself the time and space needed for healing."
    case "Courage" => "Face your fears with bravery and an open heart."
    case "Forgiveness" => "Release grudges to find peace within yourself."
    case "Gratitude" => "Cultivate a daily practice of gratitude to enhance joy."
    case "Release" => "Let go of what no longer serves you to make room for new blessings."
    case "Rest" => "Prioritize rest and rejuvenation in your daily routine."
    case "Reflection" => "Take time to reflect on your journey and lessons learned."
    case "Connection" => "Nurture relationships that uplift and support you."
    case "Purpose" => "Align your actions with your deeper sense of purpose."
    case "Balance" => "Strive for harmony between different aspects of your life."
    case _ => ADVICE_FALLBACK
  }

  /** The advice is looked up by tone; of the tones the chat composer
      assigns, Philosophical and Neutral (and an entry without a tone) fall
      back to the generic line. */
  lemma AdviceForComposerTones()
    ensures Advice("Philosophical") == ADVICE_FALLBACK
    ensures Advice("Neutral") == ADVICE_FALLBACK
    ensures Advice(UNSPECIFIED) == ADVICE_FALLBACK
    ensures Advice("Gentle") != ADVICE_FALLBACK && Advice("Empowering") != ADVICE_FALLBACK
  {
  }

  // ---------------------------------------------------------------- get_timeline

  /** Position of `min(stamps, key=instant)`: the first earliest. */
  function Earliest(stamps: seq<string>, instant: string -> int): (i: nat)
    requires stamps != []
    ensures i < |stamps|
    ensures forall j :: 0 <= j < |stamps| ==> instant(stamps[i]) <= instant(stamps[j])
    ensures forall j :: 0 <= j < i ==> instant(stamps[j]) > instant(stamps[i])
  {
    if |stamps| == 1 then 0
    else
      var k := Earliest(stamps[1..], instant) + 1;
      if instant(stamps[0]) <= instant(stamps[k]) then 0 else k
  }

  /** Position of `max(stamps, key=instant)`: the first latest. */
  function Latest(stamps: seq<string>, instant: string -> int): (i: nat)
    requires stamps != []
    ensures i < |stamps|
    ensures forall j :: 0 <= j < |stamps| ==> instant(stamps[j]) <= instant(stamps[i])
    ensures forall j :: 0 <= j < i ==> instant(stamps[j]) < instant(stamps[i])
  {
    if |stamps| == 1 then 0
    else
      var k := Latest(stamps[1..], instant) + 1;
      if instant(stamps[0]) >= instant(stamps[k]) then 0 else k
  }

  const NO_ENTRIES := "No entries yet."
  const ENTRIES_FROM := "Entries from "
  const TO := " to "

  /** `stamps[i]` is the first earliest and `stamps[j]` the first latest
      timestamp, the ones `min` and `max` return on ties. */
  ghost predicate IsSpan(stamps: seq<string>, instant: string -> int, i: int, j: int) {
    && 0 <= i < |stamps| && 0 <= j < |stamps|
    && (forall k :: 0 <= k < |stamps| ==> instant(stamps[i]) <= instant(stamps[k]) <= instant(stamps[j]))
    && (forall k :: 0 <= k < i ==> instant(stamps[k]) > instant(stamps[i]))
    && (forall k :: 0 <= k < j ==> instant(stamps[k]) < instant(stamps[j]))
  }

  /** The first earliest and the first latest timestamp are unique, so the
      span names one pair of days. */
  lemma SpanUnique(stamps: seq<string>, instant: string -> int, i: int, j: int, i': int, j': int)
    requires IsSpan(stamps, instant, i, j) && IsSpan(stamps, instant, i', j')
    ensures i == i' && j == j'
  {
    assert instant(stamps[i]) <= instant(stamps[i']) && instant(stamps[i']) <= instant(stamps[i]);
    assert instant(stamps[j]) <= instant(stamps[j']) && instant(stamps[j']) <= instant(stamps[j]);
  }

  /** `get_timeline()` over the collected timestamps: the dates of the
      earliest and the latest one, or a notice when there are none. */
  function Timeline(stamps: seq<string>, instant: string -> int, day: string -> string): (r: string)
    ensures stamps == [] ==> r == NO_ENTRIES
    ensures stamps != [] ==>
              exists i, j :: IsSpan(stamps, instant, i, j) && r == ENTRIES_FROM + day(stamps[i]) + TO + day(stamps[j])
  {
    if stamps == [] then NO_ENTRIES
    else
      var i, j := Earliest(stamps, instant), Latest(stamps, instant);
      assert IsSpan(stamps, instant, i, j);
      ENTRIES_FROM + day(stamps[i]) + TO + day(stamps[j])
  }

  /** The earliest date never comes after the latest. */
  lemma SpanOrdered(stamps: seq<string>, instant: string -> int, i: int, j: int)
    requires IsSpan(stamps, instant, i, j)
    ensures instant(stamps[i]) <= instant(stamps[j])
  {
    assert instant(stamps[i]) <= instant(stamps[i]) <= instant(stamps[j]);
  }

  // ---------------------------------------------------------------- the engine

  /** One entry more counted: the counter built so far gains that entry's
      label. */
  lemma CountStep(c: Counter, entries: seq<Entry>, i: nat, key: string)
    requires i < |entries|
    ensures AddAll(c, FieldOr(entries[..i + 1], key, UNSPECIFIED))
            == Add(AddAll(c, FieldOr(entries[..i], key, UNSPECIFIED)), Get(entries[i], key, UNSPECIFIED))
  {
    FieldOrSnoc(entries, i, key, UNSPECIFIED);
    AddAllSnoc(c, FieldOr(entries[..i], key, UNSPECIFIED), Get(entries[i], key, UNSPECIFIED));
  }

  /** One entry more seen: its timestamp is collected when it has one. */
  lemma StampStep(stamps: seq<string>, entries: seq<Entry>, i: nat)
    requires i < |entries|
    ensures stamps + Truthy(entries[..i + 1], "timestamp")
            == stamps + Truthy(entries[..i], "timestamp")
               + (if HasValue(entries[i], "timestamp") then [entries[i]["timestamp"]] else [])
  {
    TruthySnoc(entries, i, "timestamp");
  }

  /** Counting one field of every entry counts each entry once, and an
      entry without the field under "Unspecified". */
  lemma CounterCoversEntries(entries: seq<Entry>, key: string)
    ensures Total(Tally(FieldOr(entries, key, UNSPECIFIED))) == |entries|
    ensures (exists e :: e in entries && key !in e) ==> CountOf(Tally(FieldOr(entries, key, UNSPECIFIED)), UNSPECIFIED) > 0
  {
    var labels := FieldOr(entries, key, UNSPECIFIED);
    TallySpec(labels);
    FieldOrSpec(entries, key, UNSPECIFIED);
    if e :| e in entries && key !in e {
      var i :| 0 <= i < |entries| && entries[i] == e;
      assert labels[i] == UNSPECIFIED;
      assert UNSPECIFIED in multiset(labels);
    }
  }

  class ReflectionSummaryEngine {
    const entries: seq<Entry>
    var toneCounts: Counter
    var themeCounts: Counter
    var moodCounts: Counter
    var timestamps: seq<string>

    /** `entry.get("tone", "Unspecified")` for every entry. */
    function Tones(): seq<string> reads this { FieldOr(entries, "tone", UNSPECIFIED) }
    function Themes(): seq<string> reads this { FieldOr(entries, "theme", UNSPECIFIED) }
    function Moods(): seq<string> reads this { FieldOr(entries, "mood", UNSPECIFIED) }

    /** The counters and timestamps hold what one pass over the entries
        collects. */
    ghost predicate Valid()
      reads this
    {
      && toneCounts == Tally(Tones())
      && themeCounts == Tally(Themes())
      && moodCounts == Tally(Moods())
      && timestamps == Truthy(entries, "timestamp")
    }

    constructor (entries: seq<Entry>)
      ensures this.entries == entries
      ensures Valid()
    {
      this.entries := entries;
      toneCounts := [];
      themeCounts := [];
      moodCounts := [];
      timestamps := [];
      new;
      Aggregate();
    }

    /** `_aggregate()`: counts each entry's tone, theme and mood (absent ones
        as "Unspecified") and collects its timestamp when it has one. */
    method Aggregate()
      modifies this
      ensures toneCounts == AddAll(old(toneCounts), Tones())
      ensures themeCounts == AddAll(old(themeCounts), Themes())
      ensures moodCounts == AddAll(old(moodCounts), Moods())
      ensures timestamps == old(timestamps) + Truthy(entries, "timestamp")
    {
      for i := 0 to |entries|
        invariant toneCounts == AddAll(old(toneCounts), FieldOr(entries[..i], "tone", UNSPECIFIED))
        invariant themeCounts == AddAll(old(themeCounts), FieldOr(entries[..i], "theme", UNSPECIFIED))
        invariant moodCounts == AddAll(old(moodCounts), FieldOr(entries[..i], "mood", UNSPECIFIED))
        invariant timestamps == old(timestamps) + Truthy(entries[..i], "timestamp")
      {
        var entry := entries[i];
        CountStep(old(toneCounts), entries, i, "tone");
        CountStep(old(themeCounts), entries, i, "theme");
        CountStep(old(moodCounts), entries, i, "mood");
        toneCounts := Add(toneCounts, Get(entry, "tone", UNSPECIFIED));
        themeCounts := Add(themeCounts, Get(entry, "theme", UNSPECIFIED));
        moodCounts := Add(moodCounts, Get(entry, "mood", UNSPECIFIED));
        StampStep(old(timestamps), entries, i);
        if HasValue(entry, "timestamp") {
          timestamps := timestamps + [entry["timestamp"]];
        }
      }
      assert entries[..|entries|] == entries;
    }

    /** Every entry is counted once in each counter, an entry without the
        field under "Unspecified". */
    lemma CountsCoverEntries()
      requires Valid()
      ensures Total(toneCounts) == |entries| && Total(themeCounts) == |entries| && Total(moodCounts) == |entries|
      ensures (exists e :: e in entries && "tone" !in e) ==> CountOf(toneCounts, UNSPECIFIED) > 0
      ensures (exists e :: e in entries && "theme" !in e) ==> CountOf(themeCounts, UNSPECIFIED) > 0
      ensures (exists e :: e in entries && "mood" !in e) ==> CountOf(moodCounts, UNSPECIFIED) > 0
    {
      CounterCoversEntries(entries, "tone");
      CounterCoversEntries(entries, "theme");
      CounterCoversEntries(entries, "mood");
    }

    /** `get_top_tone()`. */
    function GetTopTone(): (r: string)
      reads this
      requires Valid()
      ensures IsTopLabel(r, Tones())
    {
      TopLabelOfCounter(Tones());
      MostCommonOr(toneCounts, UNSPECIFIED)
    }

    /** `get_top_theme()`. */
    function GetTopTheme(): (r: string)
      reads this
      requires Valid()
      ensures IsTopLabel(r, Themes())
    {
      TopLabelOfCounter(Themes());
      MostCommonOr(themeCounts, UNSPECIFIED)
    }

    /** `get_top_mood()`. */
    function GetTopMood(): (r: string)
      reads this
      requires Valid()
      ensures IsTopLabel(r, Moods())
    {
      TopLabelOfCounter(Moods());
      MostCommonOr(moodCounts, UNSPECIFIED)
    }

    /** `generate_summary()`. */
    function GenerateSummary(): (r: string)
      reads this
      requires Valid()
      ensures r == SummaryText(TopLabel(Tones()), TopLabel(Themes()), TopLabel(Moods()))
    {
      TopLabelOfCounter(Tones());
      TopLabelOfCounter(Themes());
      TopLabelOfCounter(Moods());
      SummaryText(GetTopTone(), GetTopTheme(), GetTopMood())
    }

    /** `generate_advice()`: the top theme is computed but plays no part. */
    function GenerateAdvice(): (r: string)
      reads this
      requires Valid()
      ensures r == Advice(TopLabel(Tones()))
    {
      TopLabelOfCounter(Tones());
      Advice(GetTopTone())
    }

    /** `get_timeline()`. */
    function GetTimeline(instant: string -> int, day: string -> string): (r: string)
      reads this
      requires Valid()
      ensures (forall e :: e in entries ==> !HasValue(e, "timestamp")) ==> r == NO_ENTRIES
      ensures (exists e :: e in entries && HasValue(e, "timestamp")) ==>
                exists i, j :: IsSpan(timestamps, instant, i, j)
                  && r == ENTRIES_FROM + day(timestamps[i]) + TO + day(timestamps[j])
    {
      assert timestamps != [] ==> timestamps[0] in timestamps;
      assert forall e :: e in entries && HasValue(e, "timestamp") ==> e["timestamp"] in timestamps;
      Timeline(timestamps, instant, day)
    }
  }
}
