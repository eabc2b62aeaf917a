/** User preferences (`UserSettings.swift`): four enumerations, the profile and their defaults. */
module Settings {
  import CounterModel

  /** `AppLanguage`: raw values "English" and "Русский". */
  datatype AppLanguage = English | Russian

  /** `AppTheme` */
  datatype AppTheme = Light | Dark | System

  /** `DateFormatStyle` */
  datatype DateFormatStyle = DDMMYYYY | MMDDYYYY | YYYYMMDD

  /** `TextSize` */
  datatype TextSize = Small | Standard | Large

  /** `displayName` of each enumeration is its raw value. */
  function LanguageDisplayName(l: AppLanguage): string {
    match l
    case English => "English"
    case Russian => "Русский"
  }

  function ThemeDisplayName(t: AppTheme): string {
    match t
    case Light => "Light"
    case Dark => "Dark"
    case System => "System"
  }

  function DateStyleDisplayName(d: DateFormatStyle): string {
    match d
    case DDMMYYYY => "DD.MM.YYYY"
    case MMDDYYYY => "MM/DD/YYYY"
    case YYYYMMDD => "YYYY-MM-DD"
  }

  function TextSizeDisplayName(t: TextSize): string {
    match t
    case Small => "Small"
    case Standard => "Standard"
    case Large => "Large"
  }

  /** `DateFormatStyle.formatString`: the pattern handed to the date formatter. */
  function FormatString(d: DateFormatStyle): string {
    match d
    case DDMMYYYY => "dd.MM.yyyy"
    case MMDDYYYY => "MM/dd/yyyy"
    case YYYYMMDD => "yyyy-MM-dd"
  }

  /** The formatter's letters for day and year are lower case; month stays upper case. */
  function FormatterLetter(ch: char): char {
    if ch == 'D' then 'd' else if ch == 'Y' then 'y' else ch
  }

  /** The format string is the style's display name with the day and year letters put in the formatter's case. */
  lemma FormatStringFollowsDisplayName(d: DateFormatStyle)
    ensures var n := DateStyleDisplayName(d);
      |FormatString(d)| == |n| && forall i :: 0 <= i < |n| ==> FormatString(d)[i] == FormatterLetter(n[i])
  {
  }

  /** Different styles have different display names and different format strings. */
  lemma DateStylesDistinct(d: DateFormatStyle, e: DateFormatStyle)
    requires d != e
    ensures DateStyleDisplayName(d) != DateStyleDisplayName(e)
    ensures FormatString(d) != FormatString(e)
  {
    assert DateStyleDisplayName(d)[2] != DateStyleDisplayName(e)[2] || DateStyleDisplayName(d)[0] != DateStyleDisplayName(e)[0];
    assert FormatString(d)[2] != FormatString(e)[2] || FormatString(d)[0] != FormatString(e)[0];
  }

  datatype UserProfile = UserProfile(name: string, avatarEmoji: string)

  /** `UserProfile()` */
  function DefaultProfile(): UserProfile {
    UserProfile("User", "👤")
  }

  datatype UserSettings = UserSettings(
    language: AppLanguage,
    theme: AppTheme,
    textSize: TextSize,
    dateFormat: DateFormatStyle,
    defaultTimeFormat: CounterModel.TimeFormat,
    profile: UserProfile)

  /** `UserSettings()` */
  function DefaultSettings(): UserSettings {
    UserSettings(English, System, Standard, DDMMYYYY, CounterModel.Days, DefaultProfile())
  }

  lemma DefaultSettingsValues()
    ensures var s := DefaultSettings();
      && s.language == English && s.theme == System && s.textSize == Standard
      && s.dateFormat == DDMMYYYY && s.defaultTimeFormat == CounterModel.Days
      && s.profile.name == "User" && s.profile.avatarEmoji == "👤"
  {
  }
}
