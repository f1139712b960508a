/** ui/response_engine.py: the affirmation lookup, the in-place
    `save_reflection`, the reflection builder `generate_reflection` and the
    `ResponseComposer` that classifies a chat message into a tone and a theme
    and picks a templated reply.

    The composer's sentiment analyser is outside the model: the compound
    score it would compute for the message is the parameter `compound`.
    Every `random.choice` draw is a parameter (see `Basics.Choice`). */
module ResponseEngine {
  import opened Basics
  import opened Text
  import opened Journal

  const GENTLE := "Gentle"
  const EMPOWERING := "Empowering"
  const PHILOSOPHICAL := "Philosophical"
  const NEUTRAL := "Neutral"
  const UNSPECIFIED := "Unspecified"

  /** The four labels the composer classifies tone into. */
  const TONES: seq<string> := [GENTLE, EMPOWERING, PHILOSOPHICAL, NEUTRAL]

  /** The prompt offered when no list of prompts is known for a choice. */
  const GENERIC_PROMPT := "What would you like to reflect on today?"

  // ---------------------------------------------------------------- generate_affirmation

  const PRESENT_AFFIRMATION := "You are present, and that is enough."

  /** `generate_affirmation(text, tone, theme)`. */
  function GenerateAffirmation(text: string, tone: string, theme: string): (r: string)
    ensures r == PRESENT_AFFIRMATION <==> tone !in [GENTLE, EMPOWERING, PHILOSOPHICAL]
  {
    if tone == GENTLE then "You are allowed to feel deeply and heal slowly."
    else if tone == EMPOWERING then "You have the strength to rise and reshape your path."
    else if tone == PHILOSOPHICAL then "This moment holds meaning—let it unfold with grace."
    else PRESENT_AFFIRMATION
  }

  /** The affirmation is chosen by the tone alone, and each of Gentle,
      Empowering and Philosophical has a line no other tone gets. */
  lemma AffirmationByToneOnly(text1: string, theme1: string, text2: string, theme2: string,
                              tone1: string, tone2: string)
    ensures tone1 == tone2 ==> GenerateAffirmation(text1, tone1, theme1) == GenerateAffirmation(text2, tone2, theme2)
    ensures tone1 in [GENTLE, EMPOWERING, PHILOSOPHICAL] && tone1 != tone2 ==>
              GenerateAffirmation(text1, tone1, theme1) != GenerateAffirmation(text2, tone2, theme2)
  {
  }

  // ---------------------------------------------------------------- save_reflection (in place)

  /** `save_reflection(...)`: appends the new entry to the caller's list and
      returns that same list. The current time is the parameter `timestamp`. */
  method SaveReflection(tone: string, theme: string, text: string, journal: JournalList, timestamp: string,
                        source: string := "Chat", reflectionType: string := "Conversational Insight",
                        mood: string := "Unspecified", length: string := "Unspecified")
    returns (same: JournalList)
    modifies journal
    ensures same == journal
    ensures journal.entries == old(journal.entries)
                               + [ChatEntry(text, tone, theme, mood, length, source, reflectionType, timestamp)]
    ensures var e := journal.entries[|journal.entries| - 1];
            && e.Keys == {"text", "tone", "theme", "mood", "length", "source", "reflection_type", "timestamp"}
            && e["text"] == text && e["tone"] == tone && e["theme"] == theme && e["mood"] == mood
            && e["length"] == length && e["source"] == source && e["reflection_type"] == reflectionType
            && e["timestamp"] == timestamp
  {
    var entry := ChatEntry(text, tone, theme, mood, length, source, reflectionType, timestamp);
    journal.Append(entry);
    same := journal;
  }

  // ---------------------------------------------------------------- generate_reflection

  const GENTLE_VARIANTS: seq<string> := [
    "You are allowed to feel deeply and heal slowly.",
    "Gentleness is a strength, not a weakness.",
    "Your emotions are valid, and your pace is sacred."]
  const EMPOWERING_VARIANTS: seq<string> := [
    "You have the strength to rise and reshape your path.",
    "Your courage is the foundation of your transformation.",
    "You are capable of rewriting your story."]
  const PHILOSOPHICAL_VARIANTS: seq<string> := [
    "This moment holds meaning—let it unfold with grace.",
    "Existence is layered—each breath a quiet revelation.",
    "Time is a mirror; growth reflects inward and outward."]
  const NEUTRAL_VARIANTS: seq<string> := [
    "You are present, and that is enough.",
    "This moment simply is—no need to change it.",
    "Stillness is a valid state of being."]

  /** `base` of `generate_reflection`. */
  function ToneVariantsOf(tone: string): Option<seq<string>> {
    match tone
    case "Gentle" => Some(GENTLE_VARIANTS)
    case "Empowering" => Some(EMPOWERING_VARIANTS)
    case "Philosophical" => Some(PHILOSOPHICAL_VARIANTS)
    case "Neutral" => Some(NEUTRAL_VARIANTS)
    case _ => None
  }

  const GROWTH_ADDONS: seq<string> := [
    "Each step forward is part of your evolution.",
    "Growth is quiet, steady, and deeply personal.",
    "You are becoming more of who you truly are."]
  const FORGIVENESS_ADDONS: seq<string> := [
    "Letting go is a gift you give yourself.",
    "Forgiveness is a bridge to inner peace.",
    "Release is not weakness—it’s wisdom."]
  const RESILIENCE_ADDONS: seq<string> := [
    "You’ve weathered storms—your roots run deep.",
    "Resilience is built in the quiet moments.",
    "You are still standing, and that is powerful."]
  const COURAGE_ADDONS: seq<string> := [
    "Bravery is choosing to show up, even when it’s hard.",
    "Courage is not loud—it’s persistent.",
    "You face the unknown with open eyes."]
  const UNSPECIFIED_ADDONS: seq<string> := [""]

  /** `theme_addon` of `generate_reflection`. */
  function ThemeVariantsOf(theme: string): Option<seq<string>> {
    match theme
    case "Growth" => Some(GROWTH_ADDONS)
    case "Forgiveness" => Some(FORGIVENESS_ADDONS)
    case "Resilience" => Some(RESILIENCE_ADDONS)
    case "Courage" => Some(COURAGE_ADDONS)
    case "Unspecified" => Some(UNSPECIFIED_ADDONS)
    case _ => None
  }

  /** `base.get(tone, [""])`. */
  function ToneVariants(tone: string): (vs: seq<string>)
    ensures |vs| > 0
    ensures ToneVariantsOf(tone).Some? ==> vs == ToneVariantsOf(tone).value
    ensures ToneVariantsOf(tone).None? ==> vs == [""]
  {
    match ToneVariantsOf(tone)
    case Some(vs) => vs
    case None => [""]
  }

  /** `theme_addon.get(theme, [""])`. */
  function ThemeVariants(theme: string): (vs: seq<string>)
    ensures |vs| > 0
    ensures ThemeVariantsOf(theme).Some? ==> vs == ThemeVariantsOf(theme).value
    ensures ThemeVariantsOf(theme).None? ==> vs == [""]
  {
    match ThemeVariantsOf(theme)
    case Some(vs) => vs
    case None => [""]
  }

  /** `length_map.get(length, 1)`: Short 1, Medium 2, Long 3, otherwise 1. */
  function Multiplier(length: string): nat {
    match length
    case "Short" => 1
    case "Medium" => 2
    case "Long" => 3
    case _ => 1
  }

  /** The segments drawn in the first `rounds` rounds: each round draws a tone
      variant, then a theme variant; draw number `i` picks index `draw(i)`. */
  function Drawn(toneVariants: seq<string>, themeVariants: seq<string>, rounds: nat, draw: nat -> nat): (s: seq<string>)
    requires |toneVariants| > 0 && |themeVariants| > 0
    ensures |s| == 2 * rounds
    ensures forall x :: x in s ==> x in toneVariants || x in themeVariants
  {
    if rounds == 0 then []
    else
      Drawn(toneVariants, themeVariants, rounds - 1, draw)
      + [Choice(toneVariants, draw(2 * (rounds - 1))), Choice(themeVariants, draw(2 * (rounds - 1) + 1))]
  }

  /** The non-empty strings of `xs`, in order. */
  function NonEmpty(xs: seq<string>): (r: seq<string>)
    ensures |r| <= |xs|
    ensures forall x :: x in r <==> x in xs && x != ""
  {
    if xs == [] then []
    else
      var init := xs[..|xs| - 1];
      assert xs == init + [xs[|xs| - 1]];
      NonEmpty(init) + (if xs[|xs| - 1] != "" then [xs[|xs| - 1]] else [])
  }

  /** `generate_reflection(tone, theme, length, backend)`: draws one tone and
      one theme variant per round, drops empty and repeated segments keeping
      first occurrences, and joins the rest with spaces. */
  method GenerateReflection(tone: string, theme: string, length: string, backend: string, draw: nat -> nat)
    returns (segments: seq<string>, reflection: string)
    ensures segments == ReflectionSegments(tone, theme, length, draw)
    ensures reflection == Join(" ", segments)
  {
    var toneVariants := ToneVariants(tone);
    var themeVariants := ThemeVariants(theme);
    var multiplier := Multiplier(length);

    var drawn: seq<string> := [];
    var round := 0;
    while round < multiplier
      invariant 0 <= round <= multiplier
      invariant drawn == Drawn(toneVariants, themeVariants, round, draw)
    {
      drawn := drawn + [Choice(toneVariants, draw(2 * round))];
      drawn := drawn + [Choice(themeVariants, draw(2 * round + 1))];
      round := round + 1;
    }

    segments := KeepFirstNonEmpty(drawn);
    reflection := Join(" ", segments);
  }

  /** The segments `generate_reflection` joins: the drawn segments that are
      not empty, each once, in the order first drawn. */
  function ReflectionSegments(tone: string, theme: string, length: string, draw: nat -> nat): seq<string> {
    Dedup(NonEmpty(Drawn(ToneVariants(tone), ThemeVariants(theme), Multiplier(length), draw)))
  }

  /** What a reflection is made of: distinct non-empty variants of the tone
      and of the theme, at most two per round, and for a known tone at least
      one sentence. */
  lemma ReflectionSegmentsSpec(tone: string, theme: string, length: string, draw: nat -> nat)
    ensures Distinct(ReflectionSegments(tone, theme, length, draw))
    ensures forall s :: s in ReflectionSegments(tone, theme, length, draw) ==>
              s != "" && (s in ToneVariants(tone) || s in ThemeVariants(theme))
    ensures |ReflectionSegments(tone, theme, length, draw)| <= 2 * Multiplier(length)
    ensures tone in TONES ==> |ReflectionSegments(tone, theme, length, draw)| >= 1
  {
    var drawn := Drawn(ToneVariants(tone), ThemeVariants(theme), Multiplier(length), draw);
    DedupSpec(NonEmpty(drawn));
    if tone in TONES {
      KnownToneSentencesNonEmpty(tone);
      FirstDrawIsTone(ToneVariants(tone), ThemeVariants(theme), Multiplier(length), draw);
      assert drawn[0] in NonEmpty(drawn);
    }
  }

  /** The second loop of `generate_reflection`: the non-empty segments,
      each kept at its first occurrence. */
  method KeepFirstNonEmpty(drawn: seq<string>) returns (unique: seq<string>)
    ensures unique == Dedup(NonEmpty(drawn))
  {
    unique := [];
    for i := 0 to |drawn|
      invariant unique == Dedup(NonEmpty(drawn[..i]))
    {
      var s := drawn[i];
      ghost var before := NonEmpty(drawn[..i]);
      NonEmptySnoc(drawn, i);
      if s != "" {
        assert NonEmpty(drawn[..i + 1]) == before + [s];
        DedupPrefix(before, s);
        if s !in unique {
          unique := unique + [s];
        }
      } else {
        assert NonEmpty(drawn[..i + 1]) == before;
      }
    }
    assert drawn[..|drawn|] == drawn;
  }

  /** Every sentence a known tone can draw is non-empty. */
  lemma KnownToneSentencesNonEmpty(tone: string)
    requires tone in TONES
    ensures forall v :: v in ToneVariants(tone) ==> v != ""
  {
  }

  lemma NonEmptySnoc(xs: seq<string>, i: nat)
    requires i < |xs|
    ensures NonEmpty(xs[..i + 1]) == NonEmpty(xs[..i]) + (if xs[i] != "" then [xs[i]] else [])
  {
    assert xs[..i + 1][..i] == xs[..i];
  }

  /** The first segment drawn is a tone variant. */
  lemma FirstDrawIsTone(toneVariants: seq<string>, themeVariants: seq<string>, rounds: nat, draw: nat -> nat)
    requires |toneVariants| > 0 && |themeVariants| > 0 && rounds > 0
    ensures Drawn(toneVariants, themeVariants, rounds, draw)[0] in toneVariants
  {
    if rounds > 1 {
      FirstDrawIsTone(toneVariants, themeVariants, rounds - 1, draw);
    }
  }

  // ---------------------------------------------------------------- ResponseComposer.detect_tone

  const GENTLE_WORDS: seq<string> := [
    "lost", "sad", "heavy", "tired", "lonely", "afraid", "uncertain", "depressed", "hopeless", "anxious",
    "overwhelmed", "stressed", "confused", "disappointed", "hurt", "frustrated", "spiritual", "reflective",
    "reflect", "reflecting", "reflection", "introspection", "introspective",
    "faith", "spirituality", "soul", "soulful", "soul-searching"]
  const EMPOWERING_WORDS: seq<string> := ["change", "breakthrough", "ready", "strong", "bold", "shift"]
  const PHILOSOPHICAL_WORDS: seq<string> := ["meaning", "purpose", "identity", "truth", "values"]

  /** The keyword override of `detect_tone`, checked in this order. */
  const TONE_RULES: Table<seq<string>> := [
    (GENTLE, GENTLE_WORDS), (EMPOWERING, EMPOWERING_WORDS), (PHILOSOPHICAL, PHILOSOPHICAL_WORDS)]

  /** The position of the first rule one of whose words occurs in `lowered`,
      `|rules|` when none does. */
  function FirstHit(rules: Table<seq<string>>, lowered: string): (k: nat)
    ensures k <= |rules|
    ensures forall j :: 0 <= j < k ==> !ContainsAny(lowered, rules[j].1)
    ensures k < |rules| ==> ContainsAny(lowered, rules[k].1)
  {
    if rules == [] then 0
    else if ContainsAny(lowered, rules[0].1) then 0
    else 1 + FirstHit(rules[1..], lowered)
  }

  /** No tone keyword occurs in the message. */
  predicate NoToneKeyword(text: string) {
    var lowered := Lower(text);
    !ContainsAny(lowered, GENTLE_WORDS) && !ContainsAny(lowered, EMPOWERING_WORDS)
    && !ContainsAny(lowered, PHILOSOPHICAL_WORDS)
  }

  /** `detect_tone(text)`, with the sentiment analyser's compound score for
      `text` given as `compound`. */
  function DetectTone(text: string, compound: real): (tone: string)
    ensures tone in TONES
    ensures ContainsAny(Lower(text), GENTLE_WORDS) ==> tone == GENTLE
    ensures !ContainsAny(Lower(text), GENTLE_WORDS) && ContainsAny(Lower(text), EMPOWERING_WORDS) ==>
              tone == EMPOWERING
    ensures (!ContainsAny(Lower(text), GENTLE_WORDS) && !ContainsAny(Lower(text), EMPOWERING_WORDS)
             && ContainsAny(Lower(text), PHILOSOPHICAL_WORDS)) ==> tone == PHILOSOPHICAL
    ensures NoToneKeyword(text) ==>
              && (tone == GENTLE <==> compound < -0.3)
              && (tone == EMPOWERING <==> compound > 0.3)
              && (tone == NEUTRAL <==> -0.3 <= compound <= 0.3)
  {
    var k := FirstHit(TONE_RULES, Lower(text));
    assert TONE_RULES[0].1 == GENTLE_WORDS && TONE_RULES[1].1 == EMPOWERING_WORDS
           && TONE_RULES[2].1 == PHILOSOPHICAL_WORDS;
    if k < |TONE_RULES| then TONE_RULES[k].0
    else if compound < -0.3 then GENTLE
    else if compound > 0.3 then EMPOWERING
    else NEUTRAL
  }

  /** A keyword decides the tone whatever the sentiment score: a message
      with "lost" is Gentle even when it also says "change". */
  lemma KeywordOverridesSentiment(text: string, compound1: real, compound2: real)
    requires !NoToneKeyword(text)
    ensures DetectTone(text, compound1) == DetectTone(text, compound2)
    ensures Contains(Lower(text), "lost") ==> DetectTone(text, compound1) == GENTLE
  {
    if Contains(Lower(text), "lost") {
      assert GENTLE_WORDS[0] == "lost";
      ContainsWord(Lower(text), "lost", GENTLE_WORDS);
    }
  }

  // ---------------------------------------------------------------- ResponseComposer.infer_theme

  const FORGIVENESS_WORDS: seq<string> := ["forgive", "regret", "sorry", "apologize"]
  const GROWTH_WORDS: seq<string> := ["grow", "evolve", "transform", "change"]
  const RESILIENCE_WORDS: seq<string> := ["strong", "bounce back", "bounced back", "cope", "coping", "recover", "resilient"]
  const COURAGE_WORDS: seq<string> := ["fear", "brave", "face", "confront"]
  const SPIRITUALITY_WORDS: seq<string> := ["pray", "meditate", "reflect", "faith", "spiritual", "divine", "grace", "sacred"]
  const HEALING_WORDS: seq<string> := ["heal", "healing", "recover", "release", "let go", "grieve"]
  const IDENTITY_WORDS: seq<string> := ["purpose", "meaning", "who i am", "identity", "truth", "values"]

  /** The themes of `infer_theme` with their keywords, in priority order. */
  const THEME_RULES: Table<seq<string>> := [
    ("Forgiveness", FORGIVENESS_WORDS),
    ("Growth", GROWTH_WORDS),
    ("Resilience", RESILIENCE_WORDS),
    ("Courage", COURAGE_WORDS),
    ("Spirituality", SPIRITUALITY_WORDS),
    ("Healing", HEALING_WORDS),
    ("Identity", IDENTITY_WORDS)
  ]

  /** `infer_theme(text)`: the theme of the first rule with a keyword in the
      lower-cased text, "Unspecified" when there is none. */
  function InferTheme(text: string): (theme: string)
    ensures theme == UNSPECIFIED <==> forall j :: 0 <= j < |THEME_RULES| ==> !ContainsAny(Lower(text), THEME_RULES[j].1)
    ensures forall k :: 0 <= k < |THEME_RULES| ==>
              (theme == THEME_RULES[k].0 <==>
                 ContainsAny(Lower(text), THEME_RULES[k].1)
                 && forall j :: 0 <= j < k ==> !ContainsAny(Lower(text), THEME_RULES[j].1))
  {
    var k := FirstHit(THEME_RULES, Lower(text));
    if k < |THEME_RULES| then THEME_RULES[k].0 else UNSPECIFIED
  }

  /** "recover" is both a Resilience and a Healing keyword; Resilience is
      checked first, so such a message is never classified as Healing. */
  lemma RecoverMeansResilience(text: string)
    requires Contains(Lower(text), "recover")
    requires !ContainsAny(Lower(text), FORGIVENESS_WORDS) && !ContainsAny(Lower(text), GROWTH_WORDS)
    ensures InferTheme(text) == "Resilience"
  {
    assert THEME_RULES[0].1 == FORGIVENESS_WORDS && THEME_RULES[1].1 == GROWTH_WORDS;
    assert THEME_RULES[2] == ("Resilience", RESILIENCE_WORDS) && RESILIENCE_WORDS[5] == "recover";
    ContainsWord(Lower(text), "recover", RESILIENCE_WORDS);
  }

  // ---------------------------------------------------------------- ResponseComposer.compose_response

  const GENTLE_TEMPLATES: seq<string> := [
    "That sounds tender. Would you like to explore that feeling together?",
    "I'm here with you. What’s been weighing on your heart?",
    "It’s okay to feel this way. Let’s unpack it gently."]
  const EMPOWERING_TEMPLATES: seq<string> := [
    "You're sensing a shift. What’s one bold step you feel ready to take?",
    "That’s a powerful realization. What strength are you drawing on right now?",
    "You’ve come far. What’s the next move that excites you?"]
  const PHILOSOPHICAL_TEMPLATES: seq<string> := [
    "That’s a deep reflection. What does this moment reveal about your values?",
    "A beautiful question. What meaning do you find in this experience?",
    "Let’s sit with that thought—what truth is emerging for you?"]
  const NEUTRAL_TEMPLATES: seq<string> := [
    "Tell me more—what’s been on your mind?",
    "I’m listening. What’s been unfolding for you lately?",
    "Let’s explore this together. Where would you like to begin?"]

  /** `self.tone_templates`. */
  function ToneTemplates(tone: string): Option<seq<string>> {
    match tone
    case "Gentle" => Some(GENTLE_TEMPLATES)
    case "Empowering" => Some(EMPOWERING_TEMPLATES)
    case "Philosophical" => Some(PHILOSOPHICAL_TEMPLATES)
    case "Neutral" => Some(NEUTRAL_TEMPLATES)
    case _ => None
  }

  /** `self.tone_templates.get(tone, self.tone_templates["Neutral"])`. */
  function TemplatesFor(tone: string): (ts: seq<string>)
    ensures |ts| == 3
    ensures ToneTemplates(tone).Some? ==> ts == ToneTemplates(tone).value
    ensures ToneTemplates(tone).None? ==> ts == NEUTRAL_TEMPLATES
  {
    match ToneTemplates(tone)
    case Some(ts) => ts
    case None => ToneTemplates(NEUTRAL).value
  }

  /** The reply of `compose_response`: the text shown and the labels found. */
  datatype Reply = Reply(response: string, tone: string, theme: string)

  /** `"\n\n" + follow_up if follow_up else ""`. */
  function FollowUpSuffix(followUp: Option<string>): string {
    match followUp
    case Some(f) => if f != "" then "\n\n" + f else ""
    case None => ""
  }

  /** `compose_response(user_text, mode)`: `pick` is the draw of the first
      `random.choice` of the call and `followPick` that of the second. */
  function ComposeResponse(userText: string, compound: real, pick: nat, followPick: nat,
                           mode: string := "Conversational"): (r: Reply)
    ensures r.tone == DetectTone(userText, compound) && r.theme == InferTheme(userText)
    ensures mode == "Guided" ==> r.response == GenerateGuidedPrompt(r.theme, r.tone, pick)
    ensures mode != "Guided" ==>
              exists i :: 0 <= i < |TemplatesFor(r.tone)|
                && r.response == TemplatesFor(r.tone)[i] + FollowUpSuffix(GenerateFollowUp(r.tone, r.theme, followPick))
  {
    var tone := DetectTone(userText, compound);
    var theme := InferTheme(userText);
    if mode == "Guided" then
      Reply(GenerateGuidedPrompt(theme, tone, pick), tone, theme)
    else
      var base := Choice(TemplatesFor(tone), pick);
      Reply(base + FollowUpSuffix(GenerateFollowUp(tone, theme, followPick)), tone, theme)
  }

  // ---------------------------------------------------------------- ResponseComposer.generate_follow_up

  const GENTLE_FOLLOW_UPS: seq<string> := [
    "Would you like to sit with that feeling a bit longer?",
    "It’s okay to pause here. What’s coming up for you?",
    "Would you like to write about this feeling in your journal?"]
  const EMPOWERING_FOLLOW_UPS: seq<string> := [
    "Is there a step you feel ready to take?",
    "What’s one small move that feels doable today?",
    "Would you like to name the strength you’re drawing on?"]
  const PHILOSOPHICAL_FOLLOW_UPS: seq<string> := [
    "What meaning do you find in this moment?",
    "Does this reflection connect to a deeper truth for you?",
    "Would you like to explore the values behind this feeling?"]

  /** The tone prompts of `generate_follow_up`. */
  function ToneFollowUps(tone: string): Option<seq<string>> {
    match tone
    case "Gentle" => Some(GENTLE_FOLLOW_UPS)
    case "Empowering" => Some(EMPOWERING_FOLLOW_UPS)
    case "Philosophical" => Some(PHILOSOPHICAL_FOLLOW_UPS)
    case _ => None
  }

  const FORGIVENESS_FOLLOW_UPS: seq<string> := [
    "Is there someone—or yourself—you’re ready to forgive?",
    "Would you like to reflect on what release might feel like?",
    "Is there a moment you’d like to let go of?"]
  const RESILIENCE_FOLLOW_UPS: seq<string> := [
    "What’s helped you bounce back before?",
    "Is there a strength you’ve leaned on in the past?",
    "Would you like to reflect on how you’ve grown through adversity?"]
  const SPIRITUALITY_FOLLOW_UPS: seq<string> := [
    "Would you like to reflect on your spiritual practice today?",
    "Is there a prayer, meditation, or ritual that brings you peace?",
    "Would you like to write about your connection to something greater?"]
  const HEALING_FOLLOW_UPS: seq<string> := [
    "Would you like to reflect on what healing means to you?",
    "Is there something you’re ready to release or let go of?",
    "Would writing about this help you process it gently?"]
  const IDENTITY_FOLLOW_UPS: seq<string> := [
    "What truth is emerging for you in this moment?",
    "Would you like to explore who you’re becoming?",
    "Is there a value or belief you’re reconnecting with?"]

  /** The theme prompts of `generate_follow_up`. */
  function ThemeFollowUps(theme: string): Option<seq<string>> {
    match theme
    case "Forgiveness" => Some(FORGIVENESS_FOLLOW_UPS)
    case "Resilience" => Some(RESILIENCE_FOLLOW_UPS)
    case "Spirituality" => Some(SPIRITUALITY_FOLLOW_UPS)
    case "Healing" => Some(HEALING_FOLLOW_UPS)
    case "Identity" => Some(IDENTITY_FOLLOW_UPS)
    case _ => None
  }

  /** `generate_follow_up(tone, theme)`: a tone prompt when the tone has
      prompts, otherwise a theme prompt when the theme has prompts, otherwise
      none. */
  function GenerateFollowUp(tone: string, theme: string, pick: nat): (r: Option<string>)
    ensures r.None? <==> tone !in [GENTLE, EMPOWERING, PHILOSOPHICAL]
                         && theme !in ["Forgiveness", "Resilience", "Spirituality", "Healing", "Identity"]
    ensures ToneFollowUps(tone).Some? ==> r.Some? && r.value in ToneFollowUps(tone).value
    ensures ToneFollowUps(tone).None? && r.Some? ==> r.value in ThemeFollowUps(theme).value
  {
    match ToneFollowUps(tone)
    case Some(prompts) => Some(Choice(prompts, pick))
    case None =>
      match ThemeFollowUps(theme)
      case Some(prompts) => Some(Choice(prompts, pick))
      case None => None
  }

  // ---------------------------------------------------------------- ResponseComposer.generate_guided_prompt

  const FORGIVENESS_GUIDED_PROMPTS: seq<string> := [
    "Is there someone you’re ready to forgive?",
    "What would compassion toward yourself look like today?"]
  const RESILIENCE_GUIDED_PROMPTS: seq<string> := [
    "What’s helped you bounce back before?",
    "Is there a strength you’ve rediscovered recently?"]
  const SPIRITUALITY_GUIDED_PROMPTS: seq<string> := [
    "Would you like to reflect on your spiritual practice?",
    "Is there a prayer or ritual that brings you peace?"]
  const HEALING_GUIDED_PROMPTS: seq<string> := [
    "What does healing mean to you right now?",
    "Is there something you’re ready to release?"]
  const IDENTITY_GUIDED_PROMPTS: seq<string> := [
    "Who are you becoming?",
    "What truth feels alive in you today?"]

  /** The prompts of `generate_guided_prompt`. */
  function GuidedPrompts(theme: string): Option<seq<string>> {
    match theme
    case "Forgiveness" => Some(FORGIVENESS_GUIDED_PROMPTS)
    case "Resilience" => Some(RESILIENCE_GUIDED_PROMPTS)
    case "Spirituality" => Some(SPIRITUALITY_GUIDED_PROMPTS)
    case "Healing" => Some(HEALING_GUIDED_PROMPTS)
    case "Identity" => Some(IDENTITY_GUIDED_PROMPTS)
    case _ => None
  }

  /** `generate_guided_prompt(theme, tone)`: a prompt of the theme's list,
      the generic prompt for a theme without one; the tone plays no part. */
  function GenerateGuidedPrompt(theme: string, tone: string, pick: nat): (r: string)
    ensures GuidedPrompts(theme).Some? ==> r in GuidedPrompts(theme).value
    ensures GuidedPrompts(theme).None? ==> r == GENERIC_PROMPT
  {
    match GuidedPrompts(theme)
    case Some(prompts) => Choice(prompts, pick)
    case None => GENERIC_PROMPT
  }

  /** Growth, Courage and Unspecified, the themes `infer_theme` can return
      without a guided list, all get the generic prompt, whatever the tone. */
  lemma GuidedPromptIgnoresTone(theme: string, tone1: string, tone2: string, pick: nat)
    ensures GenerateGuidedPrompt(theme, tone1, pick) == GenerateGuidedPrompt(theme, tone2, pick)
    ensures theme in ["Growth", "Courage", UNSPECIFIED] ==> GenerateGuidedPrompt(theme, tone1, pick) == GENERIC_PROMPT
  {
  }
}
