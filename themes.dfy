/** app/utils/themes.py: the themes offered for a reflection mode, sorted,
    and the same themes prefixed by their icons for display. Callers recover
    the theme from a displayed label with `label.split(" ", 1)[-1]`. */
module Themes {
  import opened Basics
  import opened Text
  import opened Sorting
  import opened Icons
  import opened ReflectionFlows

  /** `get_themes_by_mode(mode)`: the keys of the mode's table in ascending
      order without repeats, or the single theme "Unspecified" for an
      unknown mode. */
  function ThemesByMode(mode: string := "guided"): (themes: seq<string>)
    ensures ModeThemes(mode).Some? ==> StrictlySortedLex(themes) && multiset(themes) == multiset(ModeThemes(mode).value)
    ensures ModeThemes(mode).None? ==> themes == ["Unspecified"]
  {
    match ModeThemes(mode)
    case Some(keys) =>
      ModeThemesAreTableKeys(mode, "");
      SortLexStrict(keys);
      SortLex(keys)
    case None => ["Unspecified"]
  }

  /** `f"{theme_icon_map.get(t, '')} {t}"`. */
  function Label(theme: string): string {
    IconOr(ThemeIcon(theme), "") + " " + theme
  }

  /** `label.split(" ", 1)[-1]`: what follows the first space, or the whole
      label when it has none. */
  function AfterFirstSpace(text: string): string {
    if ' ' !in text then text
    else if text[0] == ' ' then text[1..]
    else AfterFirstSpace(text[1..])
  }

  /** Splitting at the first space recovers what follows a space-free
      prefix. */
  lemma {:induction false} AfterSpaceFreePrefix(prefix: string, rest: string)
    requires ' ' !in prefix
    ensures AfterFirstSpace(prefix + " " + rest) == rest
  {
    if prefix == [] {
      assert prefix + " " + rest == [' '] + rest;
    } else {
      assert (prefix + " " + rest)[1..] == prefix[1..] + " " + rest;
      AfterSpaceFreePrefix(prefix[1..], rest);
    }
  }

  /** Every label gives back its theme. */
  lemma LabelRoundTrip(theme: string)
    ensures AfterFirstSpace(Label(theme)) == theme
  {
    ThemeIconsHaveNoSpace();
    AfterSpaceFreePrefix(IconOr(ThemeIcon(theme), ""), theme);
  }

  /** The journal tab's `clean_theme` turns a label back into its theme:
      icons hold no word or space character. */
  lemma LabelCleansToTheme(theme: string)
    requires forall c :: c in theme ==> IsAsciiLetter(c)
    ensures CleanLabel(Label(theme)) == theme
  {
    var icon := IconOr(ThemeIcon(theme), "");
    assert forall c :: c in icon ==> !Kept(c);
    CleanLabelDropsIcon(icon, theme);
  }

  /** One label per theme, in the same order, each giving back its theme. */
  function Labels(themes: seq<string>): (labels: seq<string>)
    ensures |labels| == |themes|
    ensures forall i :: 0 <= i < |labels| ==> AfterFirstSpace(labels[i]) == themes[i]
    ensures forall i :: 0 <= i < |labels| ==> labels[i] == Label(themes[i])
  {
    if themes == [] then []
    else
      LabelRoundTrip(themes[0]);
      [Label(themes[0])] + Labels(themes[1..])
  }

  /** `get_themes_with_icons(mode)`: the labels of the mode's themes, from
      which the themes are recovered in order. */
  function ThemesWithIcons(mode: string := "guided"): (labels: seq<string>)
    ensures |labels| == |ThemesByMode(mode)|
    ensures forall i :: 0 <= i < |labels| ==> AfterFirstSpace(labels[i]) == ThemesByMode(mode)[i]
  {
    Labels(ThemesByMode(mode))
  }
}
