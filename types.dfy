/**
 * The site configuration record and its constant tables (types.ts).
 */
module Types {
  /** The live site configuration: four texts, the theme flag and the frame folder URL. */
  datatype AppConfig = AppConfig(
    communityName: string,
    tagline: string,
    introText: string,
    accentColor: string,
    isDarkMode: bool,
    sequenceUrl: string)

  /** An entry of the sequence picker. */
  datatype Sequence = Sequence(name: string, url: string)

  /** An entry of the accent-colour picker. */
  datatype ThemeColor = ThemeColor(name: string, value: string)

  const SEQUENCE_FOLDER: string := "https://acrimldaoexwwnibqcwu.supabase.co/storage/v1/object/public/Portfolio/webp-frames/"

  const SEQUENCES: seq<Sequence> := [
    Sequence("Cyber Motion (Default)", SEQUENCE_FOLDER),
    Sequence("Blue Data Flow", SEQUENCE_FOLDER)
  ]

  const DEFAULT_CONFIG: AppConfig := AppConfig(
    "Andynocode Community",
    "Shaping the Future of AI-Powered Creation",
    "A hub where beginners, hobbyists, and professionals learn how to use AI tools to create stunning animated web experiences, internal tools, and full web apps.",
    "#F97316",
    true,
    SEQUENCES[0].url)

  const THEME_COLORS: seq<ThemeColor> := [
    ThemeColor("Orange", "#F97316"),
    ThemeColor("Blue", "#3B82F6"),
    ThemeColor("Purple", "#A855F7"),
    ThemeColor("Emerald", "#10B981"),
    ThemeColor("Rose", "#F43F5E"),
    ThemeColor("Cyan", "#06B6D4")
  ]

  /** The default configuration plays the first sequence of the picker. */
  lemma DefaultSequenceIsFirst()
    ensures DEFAULT_CONFIG.sequenceUrl == SEQUENCES[0].url
  {
  }

  /** Both picker entries name the same folder, a URL ending in `/`. */
  lemma SequenceUrlsAreFolders(s: Sequence)
    requires s in SEQUENCES
    ensures SEQUENCES[0].url == SEQUENCES[1].url
    ensures |s.url| > 0 && s.url[|s.url| - 1] == '/'
  {
    assert s.url == SEQUENCE_FOLDER;
    assert |SEQUENCE_FOLDER| == 88;
    assert SEQUENCE_FOLDER[87] == '/';
  }


  /** The six accent colours have pairwise distinct names and pairwise distinct values. */
  lemma ThemeColorsDistinct()
    ensures |THEME_COLORS| == 6
    ensures forall i, j :: 0 <= i < j < |THEME_COLORS| ==> THEME_COLORS[i].name != THEME_COLORS[j].name
    ensures forall i, j :: 0 <= i < j < |THEME_COLORS| ==> THEME_COLORS[i].value != THEME_COLORS[j].value
  {
  }

  /** The default accent is the Orange swatch's value, and the default theme is dark. */
  lemma DefaultAccentIsOrange()
    ensures THEME_COLORS[0].name == "Orange"
    ensures DEFAULT_CONFIG.accentColor == THEME_COLORS[0].value
    ensures DEFAULT_CONFIG.isDarkMode
  {
  }
}
