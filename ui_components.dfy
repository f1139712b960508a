/** The prompt helpers of app/ui/ui_components.py: the weekly chain prompt
    that prefers the stored weekly sequence, and the daily prompt. Its
    `clean_tone` and `clean_theme` are `Text.CleanLabel` and its
    `get_weekly_themes` is `Weekly.GetWeeklyThemes`. */
module UiComponents {
  import opened Basics
  import opened Text
  import opened ResponseEngine
  import opened ReflectionFlows
  import opened Weekly

  /** `generate_weekly_chain_prompt(theme)` of app/ui/ui_components.py: the
      stored weekly sequence of a known theme, otherwise the template. */
  function GenerateWeeklyChainPrompt(theme: string): (prompts: seq<string>)
    ensures |prompts| == 3
    ensures WeeklySequence(theme).Some? ==> prompts == WeeklySequence(theme).value
    ensures WeeklySequence(theme).None? ==> forall p :: p in prompts ==> Contains(p, Lower(theme))
  {
    ModeThemesAreTableKeys(WEEKLY, theme);
    match WeeklySequence(theme)
    case Some(ps) => ps
    case None => ChainTemplate(theme)
  }

  const DAILY_PROMPTS_SPIRITUALITY: seq<string> := [
    "What truth feels alive in you this morning?",
    "Is there a ritual or prayer you’d like to begin your day with?"]
  const DAILY_PROMPTS_GROWTH: seq<string> := [
    "What intention would you like to carry today?",
    "Is there a small step you feel ready to take?"]
  const DAILY_PROMPTS_RESILIENCE: seq<string> := [
    "What strength are you drawing on today?",
    "How will you care for yourself if challenges arise?"]
  const DAILY_PROMPTS_HEALING: seq<string> := [
    "What does emotional healing look like for you today?",
    "Is there something you’re ready to release?"]

  /** `prompts.get(theme)` of `generate_daily_prompt`. */
  function DailyPrompts(theme: string): Option<seq<string>> {
    match theme
    case "Spirituality" => Some(DAILY_PROMPTS_SPIRITUALITY)
    case "Growth" => Some(DAILY_PROMPTS_GROWTH)
    case "Resilience" => Some(DAILY_PROMPTS_RESILIENCE)
    case "Healing" => Some(DAILY_PROMPTS_HEALING)
    case _ => None
  }

  /** The daily prompts of a theme are the first two prompts of its daily
      sequence, and exactly the themes with a daily sequence have them. */
  lemma DailyPromptsOpenDailySequences(theme: string)
    ensures DailyPrompts(theme).Some? <==> DailySequence(theme).Some?
    ensures DailyPrompts(theme).Some? ==> DailyPrompts(theme).value == DailySequence(theme).value[..2]
  {
  }

  /** `generate_daily_prompt(theme, tone)` with `random.choice` drawing by
      `pick`: one of the theme's daily prompts, or the generic prompt for
      any other theme. The tone plays no part. */
  function GenerateDailyPrompt(theme: string, tone: string, pick: nat): (prompt: string)
    ensures DailyPrompts(theme).Some? ==> prompt in DailyPrompts(theme).value
    ensures DailyPrompts(theme).None? ==> prompt == GENERIC_PROMPT
  {
    Choice(if DailyPrompts(theme).Some? then DailyPrompts(theme).value else [GENERIC_PROMPT], pick)
  }

  /** The tone plays no part in the daily prompt. */
  lemma DailyPromptIgnoresTone(theme: string, tone1: string, tone2: string, pick: nat)
    ensures GenerateDailyPrompt(theme, tone1, pick) == GenerateDailyPrompt(theme, tone2, pick)
  {
  }

  /** Every daily prompt of a theme can come up. */
  lemma DailyPromptReachesEvery(theme: string, tone: string, prompt: string)
    requires DailyPrompts(theme).Some? && prompt in DailyPrompts(theme).value
    ensures exists pick: nat :: GenerateDailyPrompt(theme, tone, pick) == prompt
  {
    var pick: nat :| Choice(DailyPrompts(theme).value, pick) == prompt by {
      ChoiceReachesEvery(DailyPrompts(theme).value, prompt);
    }
    assert GenerateDailyPrompt(theme, tone, pick) == prompt;
  }
}
