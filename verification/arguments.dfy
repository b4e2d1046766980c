/**
 The argument-list half of `FFmpegTask::prepare()`: a fixed header (banner off,
 overwrite policy, input), the options the output format calls for, and the output
 file last. The format options follow a small table over format, quality and
 sample rate, in the order the source appends them.
 */
module Arguments {
  import opened Wrappers
  import opened Settings
  import opened Options

  /** `-n` refuses to overwrite an existing output, `-y` overwrites it. */
  function OverwriteFlag(skipExisting: bool): string
  {
    if skipExisting then "-n" else "-y"
  }

  /** The options every job starts with, whatever the format. */
  function Header(c: Config, infile: string): seq<FfOption>
  {
    [Switch("-hide_banner"), Switch(OverwriteFlag(c.skipExistingFiles)), Valued("-i", infile)]
  }

  /** The quality table; an unrecognised quality adds nothing. */
  function QualityOptions(f: Format, q: Quality): seq<FfOption>
  {
    match (f, q)
    case (Mp3, Extreme) => [Valued("-b:a", "320k")]
    case (Mp3, High) => [Valued("-q:a", "1")]
    case (Mp3, Medium) => [Valued("-q:a", "4")]
    case (Ogg, Extreme) => [Valued("-q:a", "9")]
    case (Ogg, High) => [Valued("-q:a", "6")]
    case (Ogg, Medium) => [Valued("-q:a", "4")]
    case (Opus, Extreme) => [Valued("-b:a", "192k")]
    case (Opus, High) => [Valued("-b:a", "160k")]
    case (Opus, Medium) => [Valued("-b:a", "128k")]
    case (Flac, Medium) => [Valued("-sample_fmt", "s16")]
    case _ => []
  }

  /** `-ar <rate>` when a sample rate is set (only used by the formats that accept it). */
  function SamplerateOptions(c: Config): seq<FfOption>
  {
    if ChangesSamplerate(c) then [Valued("-ar", c.outputSamplerate)] else []
  }

  /** The flags the format branches use; none of them belongs to the header. */
  const FormatFlags: set<string> :=
    {"-vn", "-c:a", "-b:a", "-q:a", "-sample_fmt", "-ar", "-map_metadata", "-id3v2_version"}

  /** Copy global and first-stream metadata from the input. */
  const MapMetadata: seq<FfOption> := [Valued("-map_metadata", "0"), Valued("-map_metadata", "0:s:0")]

  function Mp3Options(c: Config): seq<FfOption>
  {
    [Valued("-c:a", "libmp3lame")] + QualityOptions(Mp3, QualityOf(c.quality)) + SamplerateOptions(c)
    + MapMetadata + [Valued("-id3v2_version", "3")]
  }

  function OggOptions(c: Config): seq<FfOption>
  {
    [Switch("-vn"), Valued("-c:a", "libvorbis")] + QualityOptions(Ogg, QualityOf(c.quality)) + SamplerateOptions(c)
    + MapMetadata
  }

  /** Opus always encodes at 48 kHz, so the sample-rate setting is not passed on. */
  function OpusOptions(c: Config): seq<FfOption>
  {
    [Valued("-c:a", "libopus")] + QualityOptions(Opus, QualityOf(c.quality)) + MapMetadata
  }

  function FlacOptions(c: Config): seq<FfOption>
  {
    [Valued("-c:a", "flac")] + QualityOptions(Flac, QualityOf(c.quality)) + SamplerateOptions(c) + MapMetadata
  }

  function WavOptions(c: Config): seq<FfOption>
  {
    [Valued("-c:a", "pcm_s16le")] + SamplerateOptions(c)
  }

  /** The options between the input and the output file, branch by branch as in `prepare()`.
      An unknown format gets none at all and leaves every choice to ffmpeg. */
  function FormatOptions(c: Config): (r: seq<FfOption>)
    ensures AllWellFormed(r)
    ensures r == [] <==> c.outputFormat !in KnownFormats
    ensures forall o :: o in r ==> o.flag in FormatFlags
  {
    match FormatOf(c.outputFormat)
    case Mp3 => Mp3Options(c)
    case Ogg => OggOptions(c)
    case Opus => OpusOptions(c)
    case Flac => FlacOptions(c)
    case Wav => WavOptions(c)
    case OtherFormat(_) => []
  }

  /** The full option sequence the job hands to ffmpeg before the output file. */
  function JobOptions(c: Config, infile: string): seq<FfOption>
  {
    Header(c, infile) + FormatOptions(c)
  }

  /** `ffmpegArgs` as `prepare()` leaves it. */
  function CommandLine(c: Config, infile: string, outfile: string): (args: seq<string>)
    ensures |args| >= 5
    ensures args[..4] == ["-hide_banner", if c.skipExistingFiles then "-n" else "-y", "-i", infile]
    ensures args[|args| - 1] == outfile
  {
    HeaderTokens(c, infile, FormatOptions(c));
    Tokens(JobOptions(c, infile)) + [outfile]
  }

  /** The header renders as the four leading tokens, whatever options follow it. */
  lemma {:induction false} HeaderTokens(c: Config, infile: string, rest: seq<FfOption>)
    ensures Tokens(Header(c, infile) + rest) == ["-hide_banner", OverwriteFlag(c.skipExistingFiles), "-i", infile] + Tokens(rest)
  {
    var h := Header(c, infile);
    TokensAppend(h, rest);
    TokensCons(h[0], h[1..]);
    TokensCons(h[1], h[2..]);
    TokensCons(h[2], []);
    assert [h[2]] + [] == h[2..];
  }

  /** How ffmpeg reads a command line: options, then the output file as the last token. */
  datatype Invocation = Invocation(options: seq<FfOption>, output: string)

  /** A last token that looks like a flag is read as an option, never as the output
      file, so such a command line names no output and ffmpeg rejects it. */
  function ParseCommandLine(args: seq<string>): (r: Option<Invocation>)
    ensures r.Some? ==> args == Tokens(r.value.options) + [r.value.output]
    ensures r.Some? ==> !IsFlag(r.value.output)
    ensures |args| > 0 && IsFlag(args[|args| - 1]) ==> r.None?
  {
    if |args| == 0 || IsFlag(args[|args| - 1]) then None
    else
      match Parse(args[..|args| - 1])
      case None => None
      case Some(opts) =>
        assert args == args[..|args| - 1] + [args[|args| - 1]];
        Some(Invocation(opts, args[|args| - 1]))
  }

  /** The command line reads back as exactly the job's options followed by the output
      file, whatever characters the input path or sample rate contain, as long as the
      output path does not itself look like a flag. */
  lemma CommandLineParses(c: Config, infile: string, outfile: string)
    requires !IsFlag(outfile)
    ensures ParseCommandLine(CommandLine(c, infile, outfile)) == Some(Invocation(JobOptions(c, infile), outfile))
  {
    var args := CommandLine(c, infile, outfile);
    assert args[..|args| - 1] == Tokens(JobOptions(c, infile));
    ParseTokens(JobOptions(c, infile));
  }

  /** Exactly one input, and exactly one of the overwrite switches, chosen by the skip setting. */
  lemma HeaderChoices(c: Config, infile: string)
    ensures Values(JobOptions(c, infile), "-i") == [infile]
    ensures Switch("-n") in JobOptions(c, infile) <==> c.skipExistingFiles
    ensures Switch("-y") in JobOptions(c, infile) <==> !c.skipExistingFiles
  {
    HeaderBeforeFormatFlags(c, infile, FormatOptions(c));
    OverwriteSwitchOnce(c, infile, FormatOptions(c));
  }

  /** The header's input stays the only one whatever format options follow it. */
  lemma {:induction false} HeaderBeforeFormatFlags(c: Config, infile: string, rest: seq<FfOption>)
    requires forall o :: o in rest ==> o.flag in FormatFlags
    ensures Values(Header(c, infile) + rest, "-i") == [infile]
  {
    var h := Header(c, infile);
    assert "-i" !in FormatFlags;
    ValuesAppend(h, rest, "-i");
    ValuesAbsent(rest, "-i");
    assert h == [h[0]] + h[1..];
    ValuesCons(h[0], h[1..], "-i");
    ValuesCons(h[1], h[2..], "-i");
    ValuesCons(h[2], [], "-i");
    assert [h[2]] + [] == h[2..];
  }

  lemma OverwriteSwitchOnce(c: Config, infile: string, rest: seq<FfOption>)
    requires forall o :: o in rest ==> o.flag in FormatFlags
    ensures Switch("-n") in Header(c, infile) + rest <==> c.skipExistingFiles
    ensures Switch("-y") in Header(c, infile) + rest <==> !c.skipExistingFiles
  {
    assert "-n" !in FormatFlags && "-y" !in FormatFlags;
    assert Switch("-n") !in rest && Switch("-y") !in rest;
    var h := Header(c, infile);
    assert Switch("-n") in h <==> c.skipExistingFiles;
    assert Switch("-y") in h <==> !c.skipExistingFiles;
  }
}
