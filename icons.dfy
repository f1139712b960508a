/** The icon tables the core looks labels up in (`tone_icon_map`,
    `theme_icon_map`, `mood_icon_map` of app/ui/incons.py), copied as
    constants. Emoji are written by code point. */
module Icons {
  import opened Basics

  /** `tone_icon_map.get(name)`. */
  function ToneIcon(name: string): Option<string> {
    match name
    case "Gentle" => Some("\U{1F343}")
    case "Philosophical" => Some("\U{1F9E0}")
    case "Empowering" => Some("\U{26A1}")
    case "Neutral" => Some("\U{1F33F}")
    case "Reflective" => Some("\U{1FA9E}")
    case "Grateful" => Some("\U{1F64F}")
    case "Tender" => Some("\U{1F497}")
    case "Resilient" => Some("\U{1F6E1}\U{FE0F}")
    case "Spiritual" => Some("\U{2728}")
    case "Joyful" => Some("\U{1F60A}")
    case "Sad" => Some("\U{1F622}")
    case "Angry" => Some("\U{1F525}")
    case "Confused" => Some("\U{2753}")
    case "Unspecified" => Some("\U{2754}")
    case _ => None
  }

  /** `theme_icon_map.get(name)`. */
  function ThemeIcon(name: string): Option<string> {
    match name
    case "Courage" => Some("\U{1F981}")
    case "Forgiveness" => Some("\U{1F54A}\U{FE0F}")
    case "Resilience" => Some("\U{1F6E1}\U{FE0F}")
    case "Healing" => Some("\U{1F497}")
    case "Identity" => Some("\U{1F9EC}")
    case "Growth" => Some("\U{1F331}")
    case "Spirituality" => Some("\U{2728}")
    case "Gratitude" => Some("\U{1F64F}")
    case "Release" => Some("\U{1F32C}\U{FE0F}")
    case "Rest" => Some("\U{1F634}")
    case "Reflection" => Some("\U{1FA9E}")
    case "Connection" => Some("\U{1F91D}")
    case "Purpose" => Some("\U{1F3AF}")
    case "Balance" => Some("\U{2696}\U{FE0F}")
    case "Unspecified" => Some("\U{2754}")
    case _ => None
  }

  /** `mood_icon_map.get(name)`. */
  function MoodIcon(name: string): Option<string> {
    match name
    case "Grateful" => Some("\U{1F64F}")
    case "Peaceful" => Some("\U{1F54A}\U{FE0F}")
    case "Joyful" => Some("\U{1F60A}")
    case "Sad" => Some("\U{1F622}")
    case "Angry" => Some("\U{1F525}")
    case "Confused" => Some("\U{2753}")
    case "Hopeful" => Some("\U{1F305}")
    case "Reflective" => Some("\U{1FA9E}")
    case "Tender" => Some("\U{1F497}")
    case "Resilient" => Some("\U{1F6E1}\U{FE0F}")
    case "Anxious" => Some("\U{1F630}")
    case "Neutral" => Some("\U{1F33F}")
    case "Unspecified" => Some("\U{2754}")
    case "Default" => Some("\U{2754}")
    case _ => None
  }

  /** The icon shown for a label missing from a table. */
  const UNKNOWN_ICON := "\U{2754}"

  /** `table.get(name, default)` for the icon `table.get(name)` found. */
  function IconOr(icon: Option<string>, default: string): string {
    match icon
    case Some(i) => i
    case None => default
  }

  /** No theme icon contains a space, so a label "icon theme" splits at the
      space that follows the icon. */
  lemma ThemeIconsHaveNoSpace()
    ensures forall t :: ThemeIcon(t).Some? ==> ' ' !in ThemeIcon(t).value
  {
  }
}
