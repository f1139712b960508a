# Spiritual reflection app: the deterministic core in Dafny

This project models the logic underneath the Streamlit screens of the spiritual
reflection app. The modelled parts are:

- **Response composer** (`ui/response_engine.py`). It covers:
  - the affirmation lookup;
  - the in-place journal append of `save_reflection`;
  - the reflection builder, which draws sentences and keeps the first occurrence of each non-empty one;
  - the keyword-then-sentiment tone detector and the seven-way theme cascade;
  - the reply composer with its follow-up and guided prompts.
- **Summary engine** (`utils/reflection_summary_engine.py`). One pass over the journal fills three counters and a timestamp list. From them it gives the top labels, a summary paragraph, advice, and the span of the entries.
- **Milestones** (`app/utils/milestone_utils.py`). These are the threshold milestones per theme and tone, and the four journal stages.
- **Reflection flows** (`app/utils/reflection_flows.py`). These are:
  - the four prompt-sequence tables;
  - the mode chosen by the hour;
  - the prompt-sequence lookup;
  - the step counter and answer buffer of the guided flow, which saves one joined entry at the end and resets.
- **Themes** (`app/utils/themes.py`). These are the sorted themes of a mode, and their icon labels. The theme is recovered from a label by splitting at the first space.
- **Label and journal-tab helpers**:
  - `clean_tone` and `clean_theme`;
  - the non-mutating `save_reflection` of the journal tabs;
  - weekly theme ranking;
  - the weekly chain prompts and the daily prompt.

  Some helpers appear with the same text in more than one file:
  - `clean_tone` and `clean_theme` are in app/ui/tabs/reflection_journal.py, ui/tabs/reflection_journal.py and app/ui/ui_components.py;
  - `save_reflection` is in both journal tabs;
  - `get_weekly_themes` is in app/ui/tabs/generated_reflection.py and app/ui/ui_components.py.

  Each is modelled once. Its rows below cite each of its copies through a member that states something about it.

How the model represents the program:

- **Entries.** A journal entry is a map from field names to text. A field the entry lacks is absent from the map. A field is "truthy" when it is present and not empty.
- **Counters.** A `Counter` is a list of (label, count) pairs in the order keys were first inserted. `most_common(1)` is the first label with the largest count.
- **Randomness.** Every `random.choice` draws by an index argument (`pick`, or a `draw` function for repeated draws). Lemmas show that every element can be drawn.
- **Sentiment.** The VADER compound score is a `real` parameter.
- **Time.** The current hour, the current timestamp text, the instant a timestamp denotes and its calendar day are parameters.
- **Objects.** The session's journal list is a class (`JournalList`), because `save_reflection` appends to it in place. The summary engine is a class whose counters `_aggregate` fills in a loop. The guided flow's session keys are the fields of a class (`GuidedFlow`), and `Run` updates them.
- **Icons.** The icon tables are copied from app/ui/incons.py. That is the module the statement `from ui.incons import ...` in the themes module and the summary engine resolves to when the app runs from app/.

## Model

| member | source | states |
|---|---|---|
| ResponseEngine.GenerateAffirmation | ui/response_engine.py:2-11 | the default line "You are present, and that is enough." is returned exactly when the tone is not Gentle, Empowering or Philosophical |
| ResponseEngine.AffirmationByToneOnly | ui/response_engine.py:2-11 | the affirmation depends only on the tone; each of Gentle, Empowering and Philosophical gets a line no other tone gets |
| ResponseEngine.SaveReflection | ui/response_engine.py:17-38 | exactly one entry is appended in place to the end of the given list, and that same list is returned; the earlier entries are unchanged, and the new entry has exactly the eight fields, set to the arguments |
| Journal.JournalList.Append | ui/response_engine.py:37 | `append` adds the entry at the end and changes nothing else |
| Journal.JournalList.constructor | ui/response_engine.py:17-27 | the list object holds the given entries |
| ResponseEngine.ToneVariants | ui/response_engine.py:49-70 | the tone's own variant list for a keyed tone and `[""]` for an unknown tone, so never empty |
| ResponseEngine.ThemeVariants | ui/response_engine.py:73-95 | the theme's own addon list for a keyed theme and `[""]` for an unknown theme, so never empty |
| ResponseEngine.Drawn | ui/response_engine.py:108-111 | `multiplier` rounds draw 2·multiplier segments, each from the tone or the theme list |
| ResponseEngine.FirstDrawIsTone | ui/response_engine.py:109-111 | each round draws from the tone list first, so the first segment is a tone variant |
| ResponseEngine.KeepFirstNonEmpty | ui/response_engine.py:114-117 | the loop keeps each non-empty segment the first time it occurs, in order (`Dedup` of the non-empty ones) |
| ResponseEngine.GenerateReflection | ui/response_engine.py:47-119 | the method's two loops produce the segments `ReflectionSegments` specifies, and the reflection is those segments joined by single spaces |
| ResponseEngine.ReflectionSegmentsSpec | ui/response_engine.py:97-119 | the segments are non-empty, pairwise distinct and each drawn from the tone or theme variants; there are at most 2×multiplier of them (multiplier 1/2/3 for Short/Medium/Long, otherwise 1), and at least one for a known tone |
| ResponseEngine.KnownToneSentencesNonEmpty | ui/response_engine.py:49-70 | no variant of a known tone is empty |
| ResponseEngine.NonEmptySnoc | ui/response_engine.py:115-116 | filtering one more segment keeps it exactly when it is not empty |
| ResponseEngine.FirstHit | ui/response_engine.py:160-171 | the index returned is that of the first rule whose keywords occur, or the number of rules when none does |
| ResponseEngine.DetectTone | ui/response_engine.py:154-179 | Gentle, Empowering and Philosophical keywords are checked in that order on the lower-cased text. With no keyword, the tone is Gentle iff compound < -0.3, Empowering iff compound > 0.3, and Neutral otherwise. The result is always one of the four tones |
| ResponseEngine.KeywordOverridesSentiment | ui/response_engine.py:160-171 | once any tone keyword occurs, the sentiment score makes no difference; text containing "lost" is Gentle whatever else it contains |
| ResponseEngine.InferTheme | ui/response_engine.py:181-207 | the theme is the first rule, in the order Forgiveness, Growth, Resilience, Courage, Spirituality, Healing, Identity, whose keywords occur in the lower-cased text; it is "Unspecified" exactly when none does |
| ResponseEngine.RecoverMeansResilience | ui/response_engine.py:184-207 | text with "recover" and no Forgiveness or Growth keyword is Resilience, never Healing |
| ResponseEngine.TemplatesFor | ui/response_engine.py:131-152 | each tone has three reply templates, and an unknown tone uses Neutral's |
| ResponseEngine.ComposeResponse | ui/response_engine.py:210-228 | the reply's tone and theme are `detect_tone` and `infer_theme` of the text. In Guided mode the reply is the guided prompt. Otherwise it is a template of the tone, followed by a blank line and the follow-up only when there is one |
| ResponseEngine.GenerateFollowUp | ui/response_engine.py:231-299 | a tone follow-up is drawn for Gentle, Empowering and Philosophical whatever the theme. Otherwise a theme follow-up is drawn for Forgiveness, Resilience, Spirituality, Healing and Identity. There is none for any other pair |
| ResponseEngine.GenerateGuidedPrompt | ui/response_engine.py:301-328 | the prompt is drawn from the theme's list when it has one, and is "What would you like to reflect on today?" otherwise |
| ResponseEngine.GuidedPromptIgnoresTone | ui/response_engine.py:301-328 | the tone plays no part, and Growth, Courage and Unspecified get the generic prompt |
| SummaryEngine.ReflectionSummaryEngine.constructor | utils/reflection_summary_engine.py:8-15 | the engine keeps the entries it is given (never modified), and after `_aggregate` the counters and timestamps are those of one pass over them |
| SummaryEngine.ReflectionSummaryEngine.Aggregate | utils/reflection_summary_engine.py:17-24 | the loop adds each entry's tone, theme and mood (absent ones as "Unspecified") to the three counters, and appends its timestamp, in entry order, when it is truthy |
| SummaryEngine.CountStep | utils/reflection_summary_engine.py:18-21 | counting one more entry adds its label to the counter |
| SummaryEngine.StampStep | utils/reflection_summary_engine.py:22-24 | one more entry appends its timestamp exactly when it is truthy |
| SummaryEngine.CounterCoversEntries | utils/reflection_summary_engine.py:18-21 | a counter built over the entries sums to their number, and counts an entry lacking the field under "Unspecified" |
| SummaryEngine.ReflectionSummaryEngine.CountsCoverEntries | utils/reflection_summary_engine.py:10-21 | each of the three counters sums to `len(entries)`, and an entry without the field shows up under "Unspecified" |
| SummaryEngine.TopLabel | utils/reflection_summary_engine.py:26-33 | the top label is "Unspecified" for no labels; otherwise it is a label counted at least as often as every other, and on ties the first one seen |
| SummaryEngine.TopLabelOfCounter | utils/reflection_summary_engine.py:27 | that label is the one `most_common(1)` gives for the counter |
| SummaryEngine.ReflectionSummaryEngine.GetTopTone | utils/reflection_summary_engine.py:26-27 | the top tone is the most common tone (the first seen among equals), "Unspecified" for an empty journal |
| SummaryEngine.ReflectionSummaryEngine.GetTopTheme | utils/reflection_summary_engine.py:29-30 | likewise for themes |
| SummaryEngine.ReflectionSummaryEngine.GetTopMood | utils/reflection_summary_engine.py:32-33 | likewise for moods |
| SummaryEngine.SummaryText | utils/reflection_summary_engine.py:40-50 | the paragraph starts with the tone's icon, names tone, theme and mood in bold, and theme and tone in italics |
| SummaryEngine.Paragraph | utils/reflection_summary_engine.py:44-50 | the same, with the icons already looked up |
| SummaryEngine.Closing | utils/reflection_summary_engine.py:48-49 | the last sentence names the theme and the tone in italics |
| SummaryEngine.MoodAndClosing | utils/reflection_summary_engine.py:47-49 | from the mood on, the paragraph names the mood in bold and the theme and tone in italics |
| SummaryEngine.ThemeOnwards | utils/reflection_summary_engine.py:46-49 | from the theme on, it also names the theme in bold |
| SummaryEngine.ReflectionSummaryEngine.GenerateSummary | utils/reflection_summary_engine.py:35-50 | the summary is determined by the three top labels alone |
| SummaryEngine.AdviceForComposerTones | utils/reflection_summary_engine.py:56-74 | Philosophical, Neutral and Unspecified get the fallback "Embrace the journey of self-discovery with an open heart."; Gentle and Empowering get advice of their own |
| SummaryEngine.ReflectionSummaryEngine.GenerateAdvice | utils/reflection_summary_engine.py:52-74 | the advice depends only on the top tone; the top theme is computed but unused |
| SummaryEngine.Earliest | utils/reflection_summary_engine.py:79-80 | `min(dates)`: the first timestamp no later than any other |
| SummaryEngine.Latest | utils/reflection_summary_engine.py:79-81 | `max(dates)`: the first timestamp no earlier than any other |
| SummaryEngine.Timeline | utils/reflection_summary_engine.py:75-83 | "No entries yet." for no timestamps; otherwise "Entries from" the day of the first earliest to the day of the first latest timestamp, the ones `min` and `max` pick on ties |
| SummaryEngine.SpanUnique | utils/reflection_summary_engine.py:80-81 | the first earliest and the first latest timestamp are unique, so the timeline text is determined by the timestamps |
| SummaryEngine.SpanOrdered | utils/reflection_summary_engine.py:80-81 | the start of the span is never later than its end |
| SummaryEngine.ReflectionSummaryEngine.GetTimeline | utils/reflection_summary_engine.py:75-83 | "No entries yet." exactly when no entry has a truthy timestamp; otherwise the span of the collected timestamps |
| Counting.TallySpec | utils/reflection_summary_engine.py:10-21 | a `Counter` built from labels counts each label as often as it occurs, holds exactly those labels, and sums to their number |
| Counting.TallyKeysInFirstOccurrenceOrder | app/utils/milestone_utils.py:11-12 | the counter's keys are the labels in order of first occurrence, which is the order `items()` visits them |
| Counting.MostCommonOfTally | utils/reflection_summary_engine.py:27 | `most_common(1)` gives a label of largest count, and no label seen before it has that count |
| Milestones.ThemeMilestonesSpec | app/utils/milestone_utils.py:16-18 | a theme milestone is listed exactly for each counted theme whose count reaches the threshold, and none twice when the counter's keys do not repeat |
| Milestones.ToneMilestonesSpec | app/utils/milestone_utils.py:20-22 | a tone milestone is listed exactly for each counted tone whose count reaches the threshold, and none twice when the counter's keys do not repeat |
| Milestones.ThemeLines | app/utils/milestone_utils.py:16-18 | the loop over the theme counter yields the message of each theme milestone, in counter order |
| Milestones.ToneLines | app/utils/milestone_utils.py:20-22 | the loop over the tone counter yields the message of each tone milestone, in counter order |
| Milestones.DetectReflectionMilestones | app/utils/milestone_utils.py:3-24 | the two loops produce the message of every milestone `ReflectionMilestones` lists, in order |
| Milestones.MilestonesDistinct | app/utils/milestone_utils.py:11-22 | no milestone is reported twice, since each counter lists a label once |
| Milestones.ReflectionMilestonesSpec | app/utils/milestone_utils.py:8-24 | there is exactly one milestone per non-empty theme occurring at least `theme_threshold` times, carrying that count, and likewise for tones. Themes come before tones. Missing or empty fields are not counted, and an empty journal has none |
| Milestones.PairInCounter | app/utils/milestone_utils.py:16 | `items()` yields a (label, count) pair exactly for the labels counted, with their counts |
| Milestones.MessagesSnoc | app/utils/milestone_utils.py:18-22 | appending a milestone appends its message |
| Milestones.Stages | app/utils/milestone_utils.py:27-53 | the stages are none for an empty journal; otherwise "First Reflection" first. "Tone Shift" is there iff two entries with a tone carry different tones, "Theme Cluster" iff some theme occurs three times, and "Export Ready" iff there are at least ten entries. Each appears at most once, in the fixed order |
| Milestones.Reached | app/utils/milestone_utils.py:33-51 | the list starts with the first reflection and holds each later stage exactly when its flag is set, in order |
| Milestones.ToneShiftBySet | app/utils/milestone_utils.py:38-40 | `len(set(tones)) > 1` holds exactly when two entries with a tone carry different tones |
| Milestones.Names | app/utils/milestone_utils.py:35-51 | the names of the stages, position by position; a stage's name is listed exactly when the stage is |
| Milestones.DetectMilestones | app/utils/milestone_utils.py:27-53 | nothing for an empty journal; otherwise "First Reflection" first, "Tone Shift", "Theme Cluster" and "Export Ready" exactly when their conditions hold, each name at the position of its stage, so in the fixed order |
| ReflectionFlows.ModeByTime | app/utils/reflection_flows.py:102-111 | hours 5–11 are "daily", 12–17 "guided", 18–21 "evening", and every other hour "weekly" |
| ReflectionFlows.ModeThemesAreTableKeys | app/utils/reflection_flows.py:6-99 | a (mode, theme) pair has a stored sequence exactly when the theme is a key of the mode's table. Every stored sequence holds three prompts, and no key repeats |
| ReflectionFlows.GetPromptSequence | app/utils/reflection_flows.py:116-124 | the stored sequence is returned for a known (mode, theme) pair and ["What would you like to reflect on today?"] otherwise; the result is never empty |
| ReflectionFlows.GuidedFlow.constructor | app/utils/reflection_flows.py:139-146 | a fresh session has neither the step key nor the reflections key |
| ReflectionFlows.GuidedFlow.Run | app/utils/reflection_flows.py:128-186 | absent keys start at 0 and []. While steps remain: the current prompt is shown, a non-blank answer is appended as typed and the step advances by one, and a blank or unsubmitted answer changes nothing. Once the steps are done: the answers joined by blank lines are saved as one entry with mood "Unspecified" and the given tone, theme, source and type, and step and buffer reset. The number of buffered answers stays equal to the step |
| Themes.ThemesByMode | app/utils/themes.py:5-16 | the themes of a known mode are its table's keys in ascending order without repeats; an unknown mode gives ["Unspecified"] |
| Themes.AfterSpaceFreePrefix | app/utils/themes.py:20 | splitting at the first space gives back what follows a space-free prefix and a space |
| Themes.LabelRoundTrip | app/utils/themes.py:20 | `label.split(" ", 1)[-1]` recovers the theme of every label, because no theme icon contains a space |
| Themes.Labels | app/utils/themes.py:20 | one label per theme, in order, each the icon (or nothing), a space and the theme |
| Themes.ThemesWithIcons | app/utils/themes.py:18-20 | the labels keep the length and order of the mode's themes, and each gives its theme back |
| Icons.ThemeIconsHaveNoSpace | app/ui/incons.py:19-35 | no theme icon contains a space |
| Text.Strip | app/ui/tabs/reflection_journal.py:18 | `strip()` returns a slice of its input with no whitespace at either end |
| Text.StripIdempotent | app/ui/tabs/reflection_journal.py:28 | stripping twice is stripping once |
| Text.KeepWordsAndSpaces | app/ui/tabs/reflection_journal.py:18 | `re.sub(r"[^\w\s]", "", s)` keeps every word and whitespace character, as often as it occurs, and nothing else |
| Text.KeepWordsAndSpacesAppend | app/ui/tabs/reflection_journal.py:18 | the filter keeps the surviving characters in their order: filtering a concatenation filters each part |
| Text.CleanLabelDropsIcon | app/ui/tabs/reflection_journal.py:37-38 | a label shown behind an icon and a space is cleaned back to the plain label |
| Themes.LabelCleansToTheme | app/ui/tabs/reflection_journal.py:47 | a theme shown with its icon from the theme table is cleaned back to the theme |
| Text.CleanLabel | app/ui/tabs/reflection_journal.py:17-21 | `clean_tone` and `clean_theme` return only word and whitespace characters, with no whitespace at either end |
| Text.CleanLabelIdempotent | ui/tabs/reflection_journal.py:19-23 | cleaning a cleaned label changes nothing |
| Text.CleanLabelKeepsLetters | app/ui/ui_components.py:35-41 | a label of letters only is returned unchanged |
| JournalTab.SaveReflection | app/ui/tabs/reflection_journal.py:23-33 | the result is the given journal plus one new last entry, and the input is left as it was. The entry has exactly the seven fields: the stripped text, and the other arguments with defaults mood "Unspecified", source "Reflection" and type "Freeform" |
| JournalTab.SavedTextIsStripped | ui/tabs/reflection_journal.py:25-35 | the stored text has no whitespace at either end, and saving it again stores it unchanged |
| Weekly.Recent | app/ui/tabs/generated_reflection.py:24 | the recent entries are exactly those whose timestamp is at or after the cutoff, each as often as the journal holds it |
| Weekly.RecentThemesSpec | app/ui/tabs/generated_reflection.py:24-25 | a theme is counted exactly when a recent entry carries it and it is not empty |
| Weekly.RankByCount | app/ui/ui_components.py:477 | `sorted(set(themes), key=themes.count, reverse=True)` lists each theme once, never a less frequent one before a more frequent one |
| Weekly.GetWeeklyThemes | app/ui/tabs/generated_reflection.py:22-26 | fails when an entry has no timestamp. Otherwise it lists exactly the non-empty themes of entries at or after the cutoff, without duplicates, by non-increasing recent count, and nothing when there are none |
| Weekly.ChainTemplate | app/ui/tabs/generated_reflection.py:29-34 | three prompts, each containing the lower-cased theme |
| UiComponents.GenerateWeeklyChainPrompt | app/ui/ui_components.py:479-487 | the stored weekly sequence for a theme of the weekly table; otherwise three prompts, each containing the lower-cased theme |
| UiComponents.DailyPromptsOpenDailySequences | app/ui/ui_components.py:790-807 | the daily prompts of a theme are the first two of its daily sequence, for exactly the themes that have one |
| UiComponents.GenerateDailyPrompt | app/ui/ui_components.py:790-809 | one of the theme's daily prompts, or "What would you like to reflect on today?" for any other theme; the tone plays no part |
| UiComponents.DailyPromptIgnoresTone | app/ui/ui_components.py:790-809 | the tone argument plays no part in the daily prompt |
| UiComponents.DailyPromptReachesEvery | app/ui/ui_components.py:809 | every daily prompt of a theme can be drawn |
| Basics.ChoiceReachesEvery | ui/response_engine.py:282 | `random.choice` can return every element of the list |

## Left out

- Streamlit is not modelled: the rendering, forms, `st.rerun`, `time.sleep` and session plumbing outside the guided flow's two keys. The flow's form submission is a `submitted` flag plus the typed `answer`.
- `ReflectionFlows.GuidedFlow.Run` takes the session journal as an existing `JournalList`. The case where `journal_entries` is missing from the session, so that the entry goes into a fresh list, is not modelled. `form_key_prefix`, `state_key_prefix` and `mode` only name widgets and keys (`mode` is unused); one `GuidedFlow` object stands for one prefix.
- VADER sentiment analysis is not modelled, because it is a foreign library; the compound score is a parameter.
- `random.choice` is not modelled as randomness; it becomes an index argument. `datetime.now()`, `isoformat`/`strftime` formatting, `fromisoformat` and `pd.to_datetime` parsing are parameters too: the timestamp text, the instant it denotes, its day, the hour and the cutoff. Their parse errors are not modelled.
- `SummaryEngine.Timeline` and `SummaryEngine.ReflectionSummaryEngine.GetTimeline`: a timestamp that `fromisoformat` rejects raises in the source, but the model has no error path, since the instant of a timestamp is a total function.
- `SummaryEngine.Advice` carries no contract of its own. It is the fifteen-entry table with its fallback, and `AdviceForComposerTones` states its properties.
- `to_dataframe`, the plotly charts, gTTS audio, `play_ambient_music` and `playAmbient` are not modelled: they are I/O and charting.
- Only ASCII is handled:
  - `str.lower()` lowers ASCII letters only;
  - `\w` is ASCII letters, digits and underscore;
  - `\s` and `strip()` use Python's whitespace set.

  Unicode case folding and Unicode word characters are not modelled.
- Entry values are assumed to be strings. An entry whose tone or theme is some other Python value is not modelled.
- Set iteration order is not modelled. `get_weekly_themes` sorts `set(themes)`, whose order depends on string hashing, so the order of equally frequent themes is unspecified. The model uses order of first occurrence, and `Weekly.GetWeeklyThemes` does not promise any particular order among ties.
