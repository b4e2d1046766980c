/**
 The flag table of `FFmpegTask::prepare()` stated flag by flag: for each output
 format, which encoder, quality, sample-rate and metadata options reach ffmpeg.
 */
module ArgumentTable {
  import opened Settings
  import opened Options
  import opened Arguments

  /** What a list of options asks of ffmpeg: the values given to each format flag,
      in order, and whether the video stream is dropped. */
  datatype Profile = Profile(
    videoOff: bool,
    codec: seq<string>,
    bitrate: seq<string>,
    qscale: seq<string>,
    sampleFormat: seq<string>,
    samplerate: seq<string>,
    metadata: seq<string>,
    id3Version: seq<string>)

  function ProfileOf(opts: seq<FfOption>): Profile
  {
    Profile(
      Switch("-vn") in opts,
      Values(opts, "-c:a"),
      Values(opts, "-b:a"),
      Values(opts, "-q:a"),
      Values(opts, "-sample_fmt"),
      Values(opts, "-ar"),
      Values(opts, "-map_metadata"),
      Values(opts, "-id3v2_version"))
  }

  /** The profile of two option lists one after the other. */
  function Combine(a: Profile, b: Profile): Profile
  {
    Profile(
      a.videoOff || b.videoOff,
      a.codec + b.codec,
      a.bitrate + b.bitrate,
      a.qscale + b.qscale,
      a.sampleFormat + b.sampleFormat,
      a.samplerate + b.samplerate,
      a.metadata + b.metadata,
      a.id3Version + b.id3Version)
  }

  const NoOptions: Profile := Profile(false, [], [], [], [], [], [], [])

  lemma ProfileAppend(a: seq<FfOption>, b: seq<FfOption>)
    ensures ProfileOf(a + b) == Combine(ProfileOf(a), ProfileOf(b))
  {
    ValuesAppend(a, b, "-c:a");
    ValuesAppend(a, b, "-b:a");
    ValuesAppend(a, b, "-q:a");
    ValuesAppend(a, b, "-sample_fmt");
    ValuesAppend(a, b, "-ar");
    ValuesAppend(a, b, "-map_metadata");
    ValuesAppend(a, b, "-id3v2_version");
  }

  lemma ValuesSingle(o: FfOption)
    ensures forall flag :: Values([o], flag) == ValueFor(o, flag)
  {
    assert [o] + [] == [o];
    forall flag
      ensures Values([o], flag) == ValueFor(o, flag)
    {
      ValuesCons(o, [], flag);
    }
  }

  /** The sample rate reaching ffmpeg when a format accepts it. */
  function RequestedRate(c: Config): seq<string>
  {
    if ChangesSamplerate(c) then [c.outputSamplerate] else []
  }

  lemma SamplerateProfile(c: Config)
    ensures ProfileOf(SamplerateOptions(c)) == NoOptions.(samplerate := RequestedRate(c))
  {
    if ChangesSamplerate(c) {
      ValuesSingle(Valued("-ar", c.outputSamplerate));
    }
  }

  lemma MetadataProfile()
    ensures ProfileOf(MapMetadata) == NoOptions.(metadata := ["0", "0:s:0"])
  {
    var m0, m1 := Valued("-map_metadata", "0"), Valued("-map_metadata", "0:s:0");
    assert MapMetadata == [m0] + [m1];
    assert ProfileOf([m0] + [m1]) == Combine(ProfileOf([m0]), ProfileOf([m1])) by {
      ProfileAppend([m0], [m1]);
    }
    assert ProfileOf([m0]) == NoOptions.(metadata := ["0"]) by { ProfileSingle(m0); }
    assert ProfileOf([m1]) == NoOptions.(metadata := ["0:s:0"]) by { ProfileSingle(m1); }
  }

  /** The profile of one option standing alone. */
  lemma ProfileSingle(o: FfOption)
    ensures ProfileOf([o]) == Profile(
      o == Switch("-vn"),
      ValueFor(o, "-c:a"),
      ValueFor(o, "-b:a"),
      ValueFor(o, "-q:a"),
      ValueFor(o, "-sample_fmt"),
      ValueFor(o, "-ar"),
      ValueFor(o, "-map_metadata"),
      ValueFor(o, "-id3v2_version"))
  {
    ValuesSingle(o);
  }

  /** Every branch is five consecutive parts: encoder, quality, sample rate, metadata, extras. */
  lemma ProfileOfParts(a: seq<FfOption>, b: seq<FfOption>, c: seq<FfOption>, d: seq<FfOption>, e: seq<FfOption>)
    ensures ProfileOf(a + b + c + d + e)
         == Combine(Combine(Combine(Combine(ProfileOf(a), ProfileOf(b)), ProfileOf(c)), ProfileOf(d)), ProfileOf(e))
  {
    ProfileAppend(a + b + c + d, e);
    ProfileAppend(a + b + c, d);
    ProfileAppend(a + b, c);
    ProfileAppend(a, b);
  }

  /** Parts that each set their own fields add up to the profile holding all of them. */
  lemma AssembleParts(
    pa: Profile, pb: Profile, pc: Profile, pd: Profile, pe: Profile,
    videoOff: bool, codec: string, bitrate: seq<string>, qscale: seq<string>, sampleFormat: seq<string>,
    samplerate: seq<string>, metadata: seq<string>, id3Version: seq<string>)
    requires pa == NoOptions.(videoOff := videoOff, codec := [codec])
    requires pb == NoOptions.(bitrate := bitrate, qscale := qscale, sampleFormat := sampleFormat)
    requires pc == NoOptions.(samplerate := samplerate)
    requires pd == NoOptions.(metadata := metadata)
    requires pe == NoOptions.(id3Version := id3Version)
    ensures Combine(Combine(Combine(Combine(pa, pb), pc), pd), pe)
         == Profile(videoOff, [codec], bitrate, qscale, sampleFormat, samplerate, metadata, id3Version)
  {
  }

  lemma CodecProfile(name: string)
    ensures ProfileOf([Valued("-c:a", name)]) == NoOptions.(codec := [name])
  {
    ProfileSingle(Valued("-c:a", name));
  }

  /** ogg drops the video stream (album art) before choosing its encoder. */
  lemma VideoOffCodecProfile(name: string)
    ensures ProfileOf([Switch("-vn"), Valued("-c:a", name)]) == NoOptions.(videoOff := true, codec := [name])
  {
    ProfileSingle(Switch("-vn"));
    CodecProfile(name);
    ProfileAppend([Switch("-vn")], [Valued("-c:a", name)]);
    assert [Switch("-vn")] + [Valued("-c:a", name)] == [Switch("-vn"), Valued("-c:a", name)];
  }

  lemma Id3Profile()
    ensures ProfileOf([Valued("-id3v2_version", "3")]) == NoOptions.(id3Version := ["3"])
  {
    ProfileSingle(Valued("-id3v2_version", "3"));
  }

  /** mp3 quality: extreme is a 320 kbit/s constant bit rate, high and medium are VBR levels 1 and 4. */
  lemma Mp3Quality(q: string)
    ensures ProfileOf(QualityOptions(Mp3, QualityOf(q))) == NoOptions.(
      bitrate := if q == "extreme" then ["320k"] else [],
      qscale := if q == "high" then ["1"] else if q == "medium" then ["4"] else [])
  {
    var opts := QualityOptions(Mp3, QualityOf(q));
    if opts != [] {
      ProfileSingle(opts[0]);
    }
  }

  /** ogg quality: Vorbis quality scale 9, 6 or 4. */
  lemma OggQuality(q: string)
    ensures ProfileOf(QualityOptions(Ogg, QualityOf(q))) == NoOptions.(
      qscale := if q == "extreme" then ["9"] else if q == "high" then ["6"] else if q == "medium" then ["4"] else [])
  {
    var opts := QualityOptions(Ogg, QualityOf(q));
    if opts != [] {
      ProfileSingle(opts[0]);
    }
  }

  /** opus quality: 192, 160 or 128 kbit/s. */
  lemma OpusQuality(q: string)
    ensures ProfileOf(QualityOptions(Opus, QualityOf(q))) == NoOptions.(
      bitrate := if q == "extreme" then ["192k"] else if q == "high" then ["160k"] else if q == "medium" then ["128k"] else [])
  {
    var opts := QualityOptions(Opus, QualityOf(q));
    if opts != [] {
      ProfileSingle(opts[0]);
    }
  }

  /** flac quality: only medium limits samples to 16 bits. */
  lemma FlacQuality(q: string)
    ensures ProfileOf(QualityOptions(Flac, QualityOf(q))) == NoOptions.(
      sampleFormat := if q == "medium" then ["s16"] else [])
  {
    var opts := QualityOptions(Flac, QualityOf(q));
    if opts != [] {
      ProfileSingle(opts[0]);
    }
  }

  /** A branch built from the five parts has the profile its parts add up to. */
  lemma BranchProfile(
    a: seq<FfOption>, b: seq<FfOption>, c: seq<FfOption>, d: seq<FfOption>, e: seq<FfOption>,
    expected: Profile)
    requires |expected.codec| == 1
    requires ProfileOf(a) == NoOptions.(videoOff := expected.videoOff, codec := expected.codec)
    requires ProfileOf(b) == NoOptions.(
      bitrate := expected.bitrate, qscale := expected.qscale, sampleFormat := expected.sampleFormat)
    requires ProfileOf(c) == NoOptions.(samplerate := expected.samplerate)
    requires ProfileOf(d) == NoOptions.(metadata := expected.metadata)
    requires ProfileOf(e) == NoOptions.(id3Version := expected.id3Version)
    ensures ProfileOf(a + b + c + d + e) == expected
  {
    ProfileOfParts(a, b, c, d, e);
    AssembleParts(ProfileOf(a), ProfileOf(b), ProfileOf(c), ProfileOf(d), ProfileOf(e),
      expected.videoOff, expected.codec[0], expected.bitrate, expected.qscale, expected.sampleFormat,
      expected.samplerate, expected.metadata, expected.id3Version);
  }

  /** mp3: LAME; extreme is a 320 kbit/s constant bit rate, high and medium are VBR
      levels 1 and 4; the requested sample rate; metadata copied; ID3v2.3 tags. */
  lemma Mp3Branch(c: Config)
    requires c.outputFormat == "mp3"
    ensures ProfileOf(FormatOptions(c)) == Profile(
      videoOff := false,
      codec := ["libmp3lame"],
      bitrate := if c.quality == "extreme" then ["320k"] else [],
      qscale := if c.quality == "high" then ["1"] else if c.quality == "medium" then ["4"] else [],
      sampleFormat := [],
      samplerate := RequestedRate(c),
      metadata := ["0", "0:s:0"],
      id3Version := ["3"])
  {
    var a, b, r, d, e := [Valued("-c:a", "libmp3lame")], QualityOptions(Mp3, QualityOf(c.quality)),
      SamplerateOptions(c), MapMetadata, [Valued("-id3v2_version", "3")];
    var expected := Profile(false, ["libmp3lame"],
      if c.quality == "extreme" then ["320k"] else [],
      if c.quality == "high" then ["1"] else if c.quality == "medium" then ["4"] else [],
      [], RequestedRate(c), ["0", "0:s:0"], ["3"]);
    assert FormatOptions(c) == a + b + r + d + e by {
      assert FormatOf(c.outputFormat) == Mp3;
    }
    assert ProfileOf(a + b + r + d + e) == expected by {
      assert ProfileOf(a) == NoOptions.(codec := ["libmp3lame"]) by { CodecProfile("libmp3lame"); }
      assert ProfileOf(b) == NoOptions.(bitrate := expected.bitrate, qscale := expected.qscale) by {
        Mp3Quality(c.quality);
      }
      assert ProfileOf(r) == NoOptions.(samplerate := RequestedRate(c)) by { SamplerateProfile(c); }
      assert ProfileOf(d) == NoOptions.(metadata := ["0", "0:s:0"]) by { MetadataProfile(); }
      assert ProfileOf(e) == NoOptions.(id3Version := ["3"]) by { Id3Profile(); }
      BranchProfile(a, b, r, d, e, expected);
    }
  }

  /** ogg: video dropped; Vorbis with quality scale 9, 6 or 4; the requested sample rate; metadata copied. */
  lemma OggBranch(c: Config)
    requires c.outputFormat == "ogg"
    ensures ProfileOf(FormatOptions(c)) == Profile(
      videoOff := true,
      codec := ["libvorbis"],
      bitrate := [],
      qscale := if c.quality == "extreme" then ["9"] else if c.quality == "high" then ["6"]
                else if c.quality == "medium" then ["4"] else [],
      sampleFormat := [],
      samplerate := RequestedRate(c),
      metadata := ["0", "0:s:0"],
      id3Version := [])
  {
    var a, b, r, d, e := [Switch("-vn"), Valued("-c:a", "libvorbis")], QualityOptions(Ogg, QualityOf(c.quality)),
      SamplerateOptions(c), MapMetadata, [];
    var expected := Profile(true, ["libvorbis"], [],
      if c.quality == "extreme" then ["9"] else if c.quality == "high" then ["6"]
      else if c.quality == "medium" then ["4"] else [],
      [], RequestedRate(c), ["0", "0:s:0"], []);
    assert FormatOptions(c) == a + b + r + d + e by {
      assert FormatOf(c.outputFormat) == Ogg;
    }
    assert ProfileOf(a + b + r + d + e) == expected by {
      assert ProfileOf(a) == NoOptions.(videoOff := true, codec := ["libvorbis"]) by {
        VideoOffCodecProfile("libvorbis");
      }
      assert ProfileOf(b) == NoOptions.(qscale := expected.qscale) by { OggQuality(c.quality); }
      assert ProfileOf(r) == NoOptions.(samplerate := RequestedRate(c)) by { SamplerateProfile(c); }
      assert ProfileOf(d) == NoOptions.(metadata := ["0", "0:s:0"]) by { MetadataProfile(); }
      assert ProfileOf(e) == NoOptions;
      BranchProfile(a, b, r, d, e, expected);
    }
  }

  /** opus: libopus at 192, 160 or 128 kbit/s; never a sample rate (opus always runs at 48 kHz); metadata copied. */
  lemma OpusBranch(c: Config)
    requires c.outputFormat == "opus"
    ensures ProfileOf(FormatOptions(c)) == Profile(
      videoOff := false,
      codec := ["libopus"],
      bitrate := if c.quality == "extreme" then ["192k"] else if c.quality == "high" then ["160k"]
                 else if c.quality == "medium" then ["128k"] else [],
      qscale := [],
      sampleFormat := [],
      samplerate := [],
      metadata := ["0", "0:s:0"],
      id3Version := [])
  {
    var a, b, r, d, e := [Valued("-c:a", "libopus")], QualityOptions(Opus, QualityOf(c.quality)), [], MapMetadata, [];
    var expected := Profile(false, ["libopus"],
      if c.quality == "extreme" then ["192k"] else if c.quality == "high" then ["160k"]
      else if c.quality == "medium" then ["128k"] else [],
      [], [], [], ["0", "0:s:0"], []);
    assert FormatOptions(c) == a + b + r + d + e by {
      assert FormatOf(c.outputFormat) == Opus;
    }
    assert ProfileOf(a + b + r + d + e) == expected by {
      assert ProfileOf(a) == NoOptions.(codec := ["libopus"]) by { CodecProfile("libopus"); }
      assert ProfileOf(b) == NoOptions.(bitrate := expected.bitrate) by { OpusQuality(c.quality); }
      assert ProfileOf(r) == NoOptions;
      assert ProfileOf(d) == NoOptions.(metadata := ["0", "0:s:0"]) by { MetadataProfile(); }
      assert ProfileOf(e) == NoOptions;
      BranchProfile(a, b, r, d, e, expected);
    }
  }

  /** flac: the FLAC encoder; medium alone limits samples to 16 bits; the requested sample rate; metadata copied. */
  lemma FlacBranch(c: Config)
    requires c.outputFormat == "flac"
    ensures ProfileOf(FormatOptions(c)) == Profile(
      videoOff := false,
      codec := ["flac"],
      bitrate := [],
      qscale := [],
      sampleFormat := if c.quality == "medium" then ["s16"] else [],
      samplerate := RequestedRate(c),
      metadata := ["0", "0:s:0"],
      id3Version := [])
  {
    var a, b, r, d, e := [Valued("-c:a", "flac")], QualityOptions(Flac, QualityOf(c.quality)),
      SamplerateOptions(c), MapMetadata, [];
    var expected := Profile(false, ["flac"], [], [], if c.quality == "medium" then ["s16"] else [],
      RequestedRate(c), ["0", "0:s:0"], []);
    assert FormatOptions(c) == a + b + r + d + e by {
      assert FormatOf(c.outputFormat) == Flac;
    }
    assert ProfileOf(a + b + r + d + e) == expected by {
      assert ProfileOf(a) == NoOptions.(codec := ["flac"]) by { CodecProfile("flac"); }
      assert ProfileOf(b) == NoOptions.(sampleFormat := expected.sampleFormat) by { FlacQuality(c.quality); }
      assert ProfileOf(r) == NoOptions.(samplerate := RequestedRate(c)) by { SamplerateProfile(c); }
      assert ProfileOf(d) == NoOptions.(metadata := ["0", "0:s:0"]) by { MetadataProfile(); }
      assert ProfileOf(e) == NoOptions;
      BranchProfile(a, b, r, d, e, expected);
    }
  }

  /** wav: 16-bit PCM and the requested sample rate; no quality option and no metadata mapping. */
  lemma WavBranch(c: Config)
    requires c.outputFormat == "wav"
    ensures ProfileOf(FormatOptions(c)) == NoOptions.(codec := ["pcm_s16le"], samplerate := RequestedRate(c))
  {
    var a, r := [Valued("-c:a", "pcm_s16le")], SamplerateOptions(c);
    assert FormatOptions(c) == a + r by {
      assert FormatOf(c.outputFormat) == Wav;
    }
    assert ProfileOf(a + r) == Combine(ProfileOf(a), ProfileOf(r)) by {
      ProfileAppend(a, r);
    }
    assert ProfileOf(a) == NoOptions.(codec := ["pcm_s16le"]) by { CodecProfile("pcm_s16le"); }
    assert ProfileOf(r) == NoOptions.(samplerate := RequestedRate(c)) by { SamplerateProfile(c); }
  }


  /** Each known format selects exactly one encoder, the one its branch names; any other format selects none. */
  lemma CodecPerFormat(c: Config)
    ensures ProfileOf(FormatOptions(c)).codec ==
      if c.outputFormat == "mp3" then ["libmp3lame"]
      else if c.outputFormat == "ogg" then ["libvorbis"]
      else if c.outputFormat == "opus" then ["libopus"]
      else if c.outputFormat == "flac" then ["flac"]
      else if c.outputFormat == "wav" then ["pcm_s16le"]
      else []
  {
    if c.outputFormat == "mp3" {
      Mp3Branch(c);
    } else if c.outputFormat == "ogg" {
      OggBranch(c);
    } else if c.outputFormat == "opus" {
      OpusBranch(c);
    } else if c.outputFormat == "flac" {
      FlacBranch(c);
    } else if c.outputFormat == "wav" {
      WavBranch(c);
    }
  }

  /** `-ar` carries the requested rate exactly when one is set and the format is mp3, ogg, flac or wav. */
  lemma SamplerateWhereAccepted(c: Config)
    ensures ProfileOf(FormatOptions(c)).samplerate ==
      if c.outputSamplerate != "" && c.outputFormat in {"mp3", "ogg", "flac", "wav"} then [c.outputSamplerate] else []
  {
    if c.outputFormat == "mp3" {
      Mp3Branch(c);
    } else if c.outputFormat == "ogg" {
      OggBranch(c);
    } else if c.outputFormat == "opus" {
      OpusBranch(c);
    } else if c.outputFormat == "flac" {
      FlacBranch(c);
    } else if c.outputFormat == "wav" {
      WavBranch(c);
    }
  }

  /** Metadata is copied for every known format but wav, ID3v2.3 is forced only for mp3,
      and only ogg drops the video stream. */
  lemma MetadataPerFormat(c: Config)
    ensures ProfileOf(FormatOptions(c)).metadata ==
      if c.outputFormat in {"mp3", "ogg", "opus", "flac"} then ["0", "0:s:0"] else []
    ensures ProfileOf(FormatOptions(c)).id3Version == if c.outputFormat == "mp3" then ["3"] else []
    ensures ProfileOf(FormatOptions(c)).videoOff <==> c.outputFormat == "ogg"
  {
    if c.outputFormat == "mp3" {
      Mp3Branch(c);
    } else if c.outputFormat == "ogg" {
      OggBranch(c);
    } else if c.outputFormat == "opus" {
      OpusBranch(c);
    } else if c.outputFormat == "flac" {
      FlacBranch(c);
    } else if c.outputFormat == "wav" {
      WavBranch(c);
    }
  }

  /** An unrecognised format passes no encoder, quality, sample-rate or metadata option at all. */
  lemma UnknownFormatAddsNothing(c: Config)
    requires c.outputFormat !in KnownFormats
    ensures ProfileOf(FormatOptions(c)) == NoOptions
  {
  }

  /** The header sets none of the format flags, so the whole command line asks ffmpeg
      for exactly what the format branch does. */
  lemma JobProfile(c: Config, infile: string)
    ensures ProfileOf(JobOptions(c, infile)) == ProfileOf(FormatOptions(c))
  {
    var h := Header(c, infile);
    assert ProfileOf(h) == NoOptions by {
      var h0, h1, h2 := h[0], h[1], h[2];
      assert h == [h0] + [h1] + [h2];
      assert ProfileOf([h0]) == NoOptions by { ProfileSingle(h0); }
      assert ProfileOf([h1]) == NoOptions by { ProfileSingle(h1); }
      assert ProfileOf([h2]) == NoOptions by { ProfileSingle(h2); }
      assert ProfileOf([h0] + [h1]) == NoOptions by { ProfileAppend([h0], [h1]); }
      ProfileAppend([h0] + [h1], [h2]);
    }
    assert ProfileOf(h + FormatOptions(c)) == Combine(ProfileOf(h), ProfileOf(FormatOptions(c))) by {
      ProfileAppend(h, FormatOptions(c));
    }
  }

}
