/** The journal tabs (app/ui/tabs/reflection_journal.py and its older copy
    ui/tabs/reflection_journal.py, whose helpers have the same text): saving
    a reflection returns a new journal list and leaves the given one alone.
    Their `clean_tone` and `clean_theme` are `Text.CleanLabel`. */
module JournalTab {
  import opened Text
  import opened Journal

  /** `save_reflection(tone, theme, text, journal_entries, mood, source,
      reflection_type)` with the formatted current time `timestamp`: the
      given journal followed by one new entry whose text is stripped and
      whose other fields are the arguments. */
  function SaveReflection(tone: string, theme: string, text: string, journal: seq<Entry>, timestamp: string,
                          mood: string := "Unspecified", source: string := "Reflection",
                          reflectionType: string := "Freeform"): (r: seq<Entry>)
    ensures |r| == |journal| + 1
    ensures r[..|journal|] == journal
    ensures var e := r[|journal|];
            && e.Keys == {"timestamp", "tone", "theme", "text", "mood", "source", "reflection_type"}
            && e["text"] == Strip(text) && e["tone"] == tone && e["theme"] == theme && e["mood"] == mood
            && e["source"] == source && e["reflection_type"] == reflectionType && e["timestamp"] == timestamp
  {
    journal + [TabEntry(tone, theme, text, mood, source, reflectionType, timestamp)]
  }

  /** A saved text carries no surrounding whitespace, and saving it again
      as it was stored leaves it unchanged. */
  lemma SavedTextIsStripped(tone: string, theme: string, text: string, journal: seq<Entry>, timestamp: string)
    ensures var saved := SaveReflection(tone, theme, text, journal, timestamp)[|journal|]["text"];
            && (saved == [] || (!IsSpace(saved[0]) && !IsSpace(saved[|saved| - 1])))
            && SaveReflection(tone, theme, saved, journal, timestamp)[|journal|]["text"] == saved
  {
    StripIdempotent(text);
  }
}
