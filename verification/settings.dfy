/**
 The application-wide settings a conversion job reads (the `Settings::` statics),
 and the classification of the two free-text settings into the cases
 `FFmpegTask::prepare()` distinguishes.
 */
module Settings {

  /** A snapshot of the settings at the moment a job is prepared.
      The settings dialog offers fixed values, but `prepare()` accepts any string. */
  datatype Config = Config(
    outputFormat: string,      // "mp3", "ogg", "opus", "flac" or "wav" from the dialog
    quality: string,           // "extreme", "high" or "medium" from the dialog
    outputSamplerate: string,  // "" keeps the input's rate, otherwise e.g. "44100"
    skipExistingFiles: bool,
    ffmpegBinary: string)

  /** The output formats `prepare()` has a branch for, and the fall-through. */
  datatype Format = Mp3 | Ogg | Opus | Flac | Wav | OtherFormat(name: string)

  /** The quality levels `prepare()` compares against, and anything else. */
  datatype Quality = Extreme | High | Medium | OtherQuality(name: string)

  const KnownFormats: set<string> := {"mp3", "ogg", "opus", "flac", "wav"}
  const KnownQualities: set<string> := {"extreme", "high", "medium"}

  function FormatOf(s: string): (f: Format)
    ensures f.OtherFormat? <==> s !in KnownFormats
    ensures f.OtherFormat? ==> f.name == s
  {
    if s == "mp3" then Mp3
    else if s == "ogg" then Ogg
    else if s == "opus" then Opus
    else if s == "flac" then Flac
    else if s == "wav" then Wav
    else OtherFormat(s)
  }

  function QualityOf(s: string): (q: Quality)
    ensures q.OtherQuality? <==> s !in KnownQualities
    ensures q.OtherQuality? ==> q.name == s
  {
    if s == "extreme" then Extreme
    else if s == "high" then High
    else if s == "medium" then Medium
    else OtherQuality(s)
  }

  /** The extension appended to the output file for each format. */
  function Extension(f: Format): string
  {
    match f
    case Mp3 => "mp3"
    case Ogg => "ogg"
    case Opus => "opus"
    case Flac => "flac"
    case Wav => "wav"
    case OtherFormat(name) => name
  }

  /** Every branch of `prepare()` ends the output file in the format setting itself:
      the five known formats use their own name as extension, and the fall-through
      uses the setting verbatim. */
  lemma ExtensionIsFormatSetting(s: string)
    ensures Extension(FormatOf(s)) == s
  {
  }

  /** Whether the sample-rate setting asks for a conversion (`Util::isNullOrEmpty` is false). */
  predicate ChangesSamplerate(c: Config)
  {
    c.outputSamplerate != ""
  }
}
