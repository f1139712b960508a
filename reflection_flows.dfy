/** app/utils/reflection_flows.py: the prompt sequences of the four
    reflection modes, the mode chosen by the hour of the day, and the
    step-by-step guided reflection flow that buffers one answer per prompt
    and saves them as one journal entry at the end. */
module ReflectionFlows {
  import opened Basics
  import opened Text
  import opened Journal
  import opened ResponseEngine

  // ---------------------------------------------------------------- the sequence tables

  const GUIDED_FORGIVENESS: seq<string> := [
    "Is there someone you’re ready to forgive today?",
    "What emotions arise when you think about that person or situation?",
    "How might forgiveness free you emotionally?"]
  const GUIDED_RESILIENCE: seq<string> := [
    "What challenge are you facing right now?",
    "What inner strength are you drawing on?",
    "How can you support yourself through this moment?"]
  const GUIDED_HEALING: seq<string> := [
    "What part of you feels tender today?",
    "Is there something you’re ready to release?",
    "What does emotional healing look like for you right now?"]
  const GUIDED_IDENTITY: seq<string> := [
    "What part of your identity feels most alive today?",
    "Are there roles or labels you’re questioning?",
    "How do you define yourself beyond external expectations?"]

  /** The keys of `guided_sequences`, in insertion order. */
  const GUIDED_THEMES: seq<string> := ["Forgiveness", "Resilience", "Healing", "Identity"]

  /** `guided_sequences.get(theme)`. */
  function GuidedSequence(theme: string): Option<seq<string>> {
    match theme
    case "Forgiveness" => Some(GUIDED_FORGIVENESS)
    case "Resilience" => Some(GUIDED_RESILIENCE)
    case "Healing" => Some(GUIDED_HEALING)
    case "Identity" => Some(GUIDED_IDENTITY)
    case _ => None
  }

  const DAILY_SPIRITUALITY: seq<string> := [
    "What truth feels alive in you this morning?",
    "Is there a ritual or prayer you’d like to begin your day with?",
    "How does this connect to your deeper sense of purpose?"]
  const DAILY_GROWTH: seq<string> := [
    "What intention would you like to carry today?",
    "Is there a small step you feel ready to take?",
    "What might support you in staying committed to that step?"]
  const DAILY_RESILIENCE: seq<string> := [
    "What strength are you drawing on today?",
    "How will you care for yourself if challenges arise?",
    "What does resilience look like in your daily rhythm?"]
  const DAILY_HEALING: seq<string> := [
    "What does emotional healing look like for you today?",
    "Is there something you’re ready to release?",
    "What gentle action could support your healing today?"]

  /** The keys of `daily_sequences`, in insertion order. */
  const DAILY_THEMES: seq<string> := ["Spirituality", "Growth", "Resilience", "Healing"]

  /** `daily_sequences.get(theme)`. */
  function DailySequence(theme: string): Option<seq<string>> {
    match theme
    case "Spirituality" => Some(DAILY_SPIRITUALITY)
    case "Growth" => Some(DAILY_GROWTH)
    case "Resilience" => Some(DAILY_RESILIENCE)
    case "Healing" => Some(DAILY_HEALING)
    case _ => None
  }

  const EVENING_GRATITUDE: seq<string> := [
    "What are three things you’re grateful for today?",
    "Was there a moment that brought you unexpected joy?",
    "How might you carry this gratitude into tomorrow?"]
  const EVENING_RELEASE: seq<string> := [
    "Is there anything you’d like to let go of from today?",
    "What emotions surfaced that you didn’t fully process?",
    "How can you offer yourself closure tonight?"]
  const EVENING_REST: seq<string> := [
    "What does rest mean to you right now?",
    "Is there a ritual that helps you transition into sleep?",
    "What intention would you like to set for your dreams?"]
  const EVENING_REFLECTION: seq<string> := [
    "What did today teach you?",
    "Were there any moments that felt especially meaningful?",
    "How has this day shaped your emotional landscape?"]

  /** The keys of `evening_sequences`, in insertion order. */
  const EVENING_THEMES: seq<string> := ["Gratitude", "Release", "Rest", "Reflection"]

  /** `evening_sequences.get(theme)`. */
  function EveningSequence(theme: string): Option<seq<string>> {
    match theme
    case "Gratitude" => Some(EVENING_GRATITUDE)
    case "Release" => Some(EVENING_RELEASE)
    case "Rest" => Some(EVENING_REST)
    case "Reflection" => Some(EVENING_REFLECTION)
    case _ => None
  }

  const WEEKLY_GROWTH: seq<string> := [
    "What personal growth did you notice this week?",
    "Was there a challenge that helped you evolve?",
    "What intention will guide your growth next week?"]
  const WEEKLY_CONNECTION: seq<string> := [
    "Who did you feel most connected to this week?",
    "Was there a moment of emotional resonance with someone?",
    "How might you deepen those connections moving forward?"]
  const WEEKLY_PURPOSE: seq<string> := [
    "Did your actions this week align with your deeper purpose?",
    "What felt meaningful or fulfilling?",
    "Is there a purpose you’d like to recommit to next week?"]
  const WEEKLY_BALANCE: seq<string> := [
    "How well did you balance work, rest, and reflection?",
    "Was there a moment you felt truly centered?",
    "What adjustments could help you feel more balanced next week?"]

  /** The keys of `weekly_sequences`, in insertion order. */
  const WEEKLY_THEMES: seq<string> := ["Growth", "Connection", "Purpose", "Balance"]

  /** `weekly_sequences.get(theme)`. */
  function WeeklySequence(theme: string): Option<seq<string>> {
    match theme
    case "Growth" => Some(WEEKLY_GROWTH)
    case "Connection" => Some(WEEKLY_CONNECTION)
    case "Purpose" => Some(WEEKLY_PURPOSE)
    case "Balance" => Some(WEEKLY_BALANCE)
    case _ => None
  }

  // ---------------------------------------------------------------- modes

  const DAILY := "daily"
  const GUIDED := "guided"
  const EVENING := "evening"
  const WEEKLY := "weekly"

  /** `get_reflection_mode_by_time()` for the hour `datetime.now().hour`:
      mornings are daily, afternoons guided, evenings evening, and the
      night weekly. */
  function ModeByTime(hour: int): (mode: string)
    ensures mode == DAILY <==> 5 <= hour < 12
    ensures mode == GUIDED <==> 12 <= hour < 18
    ensures mode == EVENING <==> 18 <= hour < 22
    ensures mode == WEEKLY <==> hour < 5 || 22 <= hour
  {
    if 5 <= hour < 12 then DAILY
    else if 12 <= hour < 18 then GUIDED
    else if 18 <= hour < 22 then EVENING
    else WEEKLY
  }

  /** `mode_sequences.get(mode, {}).get(theme)`. */
  function ModeSequence(mode: string, theme: string): Option<seq<string>> {
    match mode
    case "guided" => GuidedSequence(theme)
    case "daily" => DailySequence(theme)
    case "evening" => EveningSequence(theme)
    case "weekly" => WeeklySequence(theme)
    case _ => None
  }

  /** `mode_sequences.get(mode).keys()`, in insertion order. */
  function ModeThemes(mode: string): Option<seq<string>> {
    match mode
    case "guided" => Some(GUIDED_THEMES)
    case "daily" => Some(DAILY_THEMES)
    case "evening" => Some(EVENING_THEMES)
    case "weekly" => Some(WEEKLY_THEMES)
    case _ => None
  }

  /** The key lists are the keys of the tables: a (mode, theme) pair has a
      sequence exactly when the mode is known and the theme is one of its
      keys, every stored sequence holds three prompts, and no key repeats. */
  lemma ModeThemesAreTableKeys(mode: string, theme: string)
    ensures ModeSequence(mode, theme).Some? <==> ModeThemes(mode).Some? && theme in ModeThemes(mode).value
    ensures ModeSequence(mode, theme).Some? ==> |ModeSequence(mode, theme).value| == 3
    ensures ModeThemes(mode).Some? ==> Distinct(ModeThemes(mode).value)
  {
  }

  /** `get_prompt_sequence(theme, mode)`: the stored sequence of a known
      (mode, theme) pair, otherwise the one generic prompt; never empty. */
  function GetPromptSequence(theme: string, mode: string := "guided"): (prompts: seq<string>)
    ensures |prompts| > 0
    ensures ModeSequence(mode, theme).Some? ==> prompts == ModeSequence(mode, theme).value && |prompts| == 3
    ensures ModeSequence(mode, theme).None? ==> prompts == [GENERIC_PROMPT]
  {
    ModeThemesAreTableKeys(mode, theme);
    match ModeSequence(mode, theme)
    case Some(ps) => ps
    case None => [GENERIC_PROMPT]
  }

  // ---------------------------------------------------------------- run_guided_reflection_flow

  /** What the flow stores in the session under its prefix: the step counter
      and the buffer of answers, each absent until the flow first runs. */
  class GuidedFlow {
    var step: Option<nat>
    var reflections: Option<seq<string>>

    /** The two keys are set together, and one answer is buffered per
        completed step. */
    ghost predicate Valid()
      reads this
    {
      && (step.Some? <==> reflections.Some?)
      && (step.Some? ==> |reflections.value| == step.value)
    }

    /** A session in which the flow has not run yet. */
    constructor ()
      ensures step == None && reflections == None
      ensures Valid()
    {
      step := None;
      reflections := None;
    }

    /** One run of `run_guided_reflection_flow(theme, tone, prompts, source,
        reflection_type)`. The keys are initialised to 0 and [] when absent.
        While steps remain, the current prompt is shown, and a submitted
        answer that is not blank is buffered as typed and advances the step.
        Once every prompt is answered, the answers joined by blank lines are
        saved to the journal as one entry with mood "Unspecified", and the
        step and buffer are reset. */
    method Run(theme: string, tone: string, prompts: seq<string>, submitted: bool, answer: string,
               journal: JournalList, timestamp: string,
               source: string := "Chat", reflectionType: string := "Guided Journey")
      returns (shown: Option<string>)
      modifies this, journal
      ensures var s := if old(step).Some? then old(step).value else 0;
              var rs := if old(reflections).Some? then old(reflections).value else [];
              && step.Some? && reflections.Some?
              && (s < |prompts| ==>
                    && shown == Some(prompts[s])
                    && journal.entries == old(journal.entries)
                    && (if submitted && Strip(answer) != ""
                        then step.value == s + 1 && reflections.value == rs + [answer]
                        else step.value == s && reflections.value == rs))
              && (s >= |prompts| ==>
                    && shown == None
                    && step.value == 0 && reflections.value == []
                    && journal.entries == old(journal.entries)
                         + [ChatEntry(Join("\n\n", rs), tone, theme, "Unspecified", "Unspecified",
                                      source, reflectionType, timestamp)])
      ensures old(Valid()) ==> Valid()
    {
      if step.None? {
        step := Some(0);
      }
      if reflections.None? {
        reflections := Some([]);
      }
      var current := step.value;
      if current < |prompts| {
        shown := Some(prompts[current]);
        if submitted && Strip(answer) != "" {
          reflections := Some(reflections.value + [answer]);
          step := Some(current + 1);
        }
      } else {
        shown := None;
        var fullText := Join("\n\n", reflections.value);
        var _ := SaveReflection(tone, theme, fullText, journal, timestamp, source, reflectionType, "Unspecified");
        step := Some(0);
        reflections := Some([]);
      }
    }
  }
}
