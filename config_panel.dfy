/**
 * The site-configuration panel (components/ConfigPanel.tsx): the record
 * update behind every control, the control-to-field mappings, the
 * "selected" markers, and the open/closed state of the panel.
 */
module ConfigPanel {
  import opened Types

  /** `keyof AppConfig`. */
  datatype ConfigKey = CommunityName | Tagline | IntroText | AccentColor | IsDarkMode | SequenceUrl

  /** The value passed to `handleChange`: a string, or the boolean of `isDarkMode`. */
  datatype ConfigValue = Text(text: string) | Flag(flag: bool)

  /** `value` has the type of field `key`. */
  predicate Fits(key: ConfigKey, value: ConfigValue) {
    if key == IsDarkMode then value.Flag? else value.Text?
  }

  /** `config[key]`. */
  function Field(c: AppConfig, key: ConfigKey): (v: ConfigValue)
    ensures Fits(key, v)
  {
    match key
    case CommunityName => Text(c.communityName)
    case Tagline => Text(c.tagline)
    case IntroText => Text(c.introText)
    case AccentColor => Text(c.accentColor)
    case IsDarkMode => Flag(c.isDarkMode)
    case SequenceUrl => Text(c.sequenceUrl)
  }

  /**
   * `handleChange(key, value)` hands `{ ...config, [key]: value }` to the
   * owner of the configuration: field `key` becomes `value` and every other
   * field keeps its value.
   */
  function HandleChange(c: AppConfig, key: ConfigKey, value: ConfigValue): (r: AppConfig)
    requires Fits(key, value)
    ensures Field(r, key) == value
    ensures forall k :: k != key ==> Field(r, k) == Field(c, k)
  {
    match key
    case CommunityName => c.(communityName := value.text)
    case Tagline => c.(tagline := value.text)
    case IntroText => c.(introText := value.text)
    case AccentColor => c.(accentColor := value.text)
    case IsDarkMode => c.(isDarkMode := value.flag)
    case SequenceUrl => c.(sequenceUrl := value.text)
  }

  /** A configuration is determined by its six fields. */
  lemma FieldsDetermineConfig(a: AppConfig, b: AppConfig)
    requires forall k :: Field(a, k) == Field(b, k)
    ensures a == b
  {
    assert Field(a, CommunityName) == Field(b, CommunityName);
    assert Field(a, Tagline) == Field(b, Tagline);
    assert Field(a, IntroText) == Field(b, IntroText);
    assert Field(a, AccentColor) == Field(b, AccentColor);
    assert Field(a, IsDarkMode) == Field(b, IsDarkMode);
    assert Field(a, SequenceUrl) == Field(b, SequenceUrl);
  }

  /** Of two changes to the same field, the later one wins. */
  lemma HandleChangeLastWins(c: AppConfig, key: ConfigKey, v1: ConfigValue, v2: ConfigValue)
    requires Fits(key, v1) && Fits(key, v2)
    ensures HandleChange(HandleChange(c, key, v1), key, v2) == HandleChange(c, key, v2)
  {
    var a, b := HandleChange(HandleChange(c, key, v1), key, v2), HandleChange(c, key, v2);
    forall k
      ensures Field(a, k) == Field(b, k)
    {
    }
    FieldsDetermineConfig(a, b);
  }

  /** Applying the same change twice gives the same configuration as applying it once. */
  lemma HandleChangeIdempotent(c: AppConfig, key: ConfigKey, v: ConfigValue)
    requires Fits(key, v)
    ensures HandleChange(HandleChange(c, key, v), key, v) == HandleChange(c, key, v)
  {
    HandleChangeLastWins(c, key, v, v);
  }

  /** Writing a field's current value back leaves the configuration as it was. */
  lemma HandleChangeCurrentValue(c: AppConfig, key: ConfigKey)
    ensures HandleChange(c, key, Field(c, key)) == c
  {
    var a := HandleChange(c, key, Field(c, key));
    forall k
      ensures Field(a, k) == Field(c, k)
    {
    }
    FieldsDetermineConfig(a, c);
  }

  /** Changes to two different fields do not interfere: their order does not matter. */
  lemma HandleChangeCommutes(c: AppConfig, k1: ConfigKey, v1: ConfigValue, k2: ConfigKey, v2: ConfigValue)
    requires k1 != k2 && Fits(k1, v1) && Fits(k2, v2)
    ensures HandleChange(HandleChange(c, k1, v1), k2, v2) == HandleChange(HandleChange(c, k2, v2), k1, v1)
  {
    var a, b := HandleChange(HandleChange(c, k1, v1), k2, v2), HandleChange(HandleChange(c, k2, v2), k1, v1);
    forall k
      ensures Field(a, k) == Field(b, k)
    {
    }
    FieldsDetermineConfig(a, b);
  }

  // ---- Appearance buttons ----

  /** The Light button is styled active. */
  predicate LightActive(c: AppConfig)
    ensures LightActive(c) <==> Field(c, IsDarkMode) == Flag(false)
  {
    !c.isDarkMode
  }

  /** The Dark button is styled active. */
  predicate DarkActive(c: AppConfig)
    ensures DarkActive(c) <==> Field(c, IsDarkMode) == Flag(true)
    ensures DarkActive(c) <==> !LightActive(c)
  {
    c.isDarkMode
  }

  /** The Light button: dark mode off, so Light (and not Dark) is shown active; nothing else changes. */
  function OnLightClick(c: AppConfig): (r: AppConfig)
    ensures !r.isDarkMode && LightActive(r) && !DarkActive(r)
    ensures forall k :: k != IsDarkMode ==> Field(r, k) == Field(c, k)
  {
    HandleChange(c, IsDarkMode, Flag(false))
  }

  /** The Dark button: dark mode on, so Dark (and not Light) is shown active; nothing else changes. */
  function OnDarkClick(c: AppConfig): (r: AppConfig)
    ensures r.isDarkMode && DarkActive(r) && !LightActive(r)
    ensures forall k :: k != IsDarkMode ==> Field(r, k) == Field(c, k)
  {
    HandleChange(c, IsDarkMode, Flag(true))
  }

  // ---- Accent swatches ----

  /** The swatch of `color` shows the check mark. */
  predicate SwatchChecked(c: AppConfig, color: ThemeColor)
    ensures SwatchChecked(c, color) <==> Field(c, AccentColor) == Text(color.value)
  {
    c.accentColor == color.value
  }

  /** A swatch sets the accent colour to its own value and nothing else. */
  function OnSwatchClick(c: AppConfig, color: ThemeColor): (r: AppConfig)
    ensures r.accentColor == color.value && SwatchChecked(r, color)
    ensures forall k :: k != AccentColor ==> Field(r, k) == Field(c, k)
  {
    HandleChange(c, AccentColor, Text(color.value))
  }

  /** At most one of the six swatches shows the check mark. */
  lemma AtMostOneSwatchChecked(c: AppConfig, i: nat, j: nat)
    requires i < |THEME_COLORS| && j < |THEME_COLORS|
    requires SwatchChecked(c, THEME_COLORS[i]) && SwatchChecked(c, THEME_COLORS[j])
    ensures i == j
  {
    ThemeColorsDistinct();
  }

  /** After clicking swatch `i`, swatch `j` is checked exactly when it is swatch `i`. */
  lemma SwatchClickChecksOnlyIt(c: AppConfig, i: nat, j: nat)
    requires i < |THEME_COLORS| && j < |THEME_COLORS|
    ensures SwatchChecked(OnSwatchClick(c, THEME_COLORS[i]), THEME_COLORS[j]) <==> i == j
  {
    if SwatchChecked(OnSwatchClick(c, THEME_COLORS[i]), THEME_COLORS[j]) {
      AtMostOneSwatchChecked(OnSwatchClick(c, THEME_COLORS[i]), i, j);
    }
  }

  /** In the default configuration exactly the Orange swatch is checked. */
  lemma DefaultChecksOrange(j: nat)
    requires j < |THEME_COLORS|
    ensures SwatchChecked(DEFAULT_CONFIG, THEME_COLORS[j]) <==> THEME_COLORS[j].name == "Orange"
  {
    DefaultAccentIsOrange();
    ThemeColorsDistinct();
    if SwatchChecked(DEFAULT_CONFIG, THEME_COLORS[j]) {
      AtMostOneSwatchChecked(DEFAULT_CONFIG, 0, j);
    }
  }

  // ---- Sequence picker ----

  /** The entry for `s` is styled selected and shows the check mark. */
  predicate SequenceSelected(c: AppConfig, s: Sequence)
    ensures SequenceSelected(c, s) <==> Field(c, SequenceUrl) == Text(s.url)
  {
    c.sequenceUrl == s.url
  }

  /** A sequence entry sets the frame folder to its URL and nothing else. */
  function OnSequenceClick(c: AppConfig, s: Sequence): (r: AppConfig)
    ensures r.sequenceUrl == s.url && SequenceSelected(r, s)
    ensures forall k :: k != SequenceUrl ==> Field(r, k) == Field(c, k)
  {
    HandleChange(c, SequenceUrl, Text(s.url))
  }

  /**
   * The two picker entries share one URL, so they are always marked
   * selected together, and the default configuration marks both.
   */
  lemma SequenceEntriesSelectedTogether(c: AppConfig)
    ensures SequenceSelected(c, SEQUENCES[0]) <==> SequenceSelected(c, SEQUENCES[1])
    ensures SequenceSelected(DEFAULT_CONFIG, SEQUENCES[0]) && SequenceSelected(DEFAULT_CONFIG, SEQUENCES[1])
  {
  }

  // ---- Text inputs ----

  /** The fields edited through a text input: the three texts and the custom folder URL. */
  predicate IsTextInputKey(key: ConfigKey) {
    key == CommunityName || key == Tagline || key == IntroText || key == SequenceUrl
  }

  /** Typing into a text input replaces that one field with the input's text. */
  function OnTextInput(c: AppConfig, key: ConfigKey, text: string): (r: AppConfig)
    requires IsTextInputKey(key)
    ensures Field(r, key) == Text(text)
    ensures forall k :: k != key ==> Field(r, k) == Field(c, k)
  {
    HandleChange(c, key, Text(text))
  }

  // ---- Open/closed state ----

  /** The panel's own state: whether the sidebar is open. */
  class Panel {
    var isOpen: bool

    /** The sidebar and its backdrop are rendered. */
    predicate Rendered()
      reads this
      ensures Rendered() <==> isOpen
    {
      isOpen
    }

    /** The panel starts closed. */
    constructor ()
      ensures !isOpen && !Rendered()
    {
      isOpen := false;
    }

    /** The floating trigger button opens the panel. */
    method OnTriggerClick()
      modifies this
      ensures isOpen && Rendered()
    {
      isOpen := true;
    }

    /** Clicking the backdrop closes the panel. */
    method OnBackdropClick()
      modifies this
      ensures !isOpen && !Rendered()
    {
      isOpen := false;
    }

    /** The X button in the header closes the panel. */
    method OnCloseClick()
      modifies this
      ensures !isOpen && !Rendered()
    {
      isOpen := false;
    }
  }
}
