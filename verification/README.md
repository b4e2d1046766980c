# FFaudioConverter conversion job, modelled in Dafny

FFaudioConverter converts batches of audio files by running the external `ffmpeg`
program once per file. Each file is one `FFmpegTask`. This project models that
task as pure functions:

- `prepare()` derives three things from the input path, the chosen output root
  and the settings (`OutputFormat`, `Quality`, `OutputSamplerate`,
  `SkipExistingFiles`):
  - the output directory, which mirrors the input's absolute directory below
    the output root;
  - the output file, which is the input's name up to its last `.`, followed by
    the format's extension;
  - the ffmpeg argument list, taken from a small table over format, quality,
    sample rate and overwrite policy.
- `run()` decides between Skipped, Done and Failed. Two facts decide it:
  whether the output already exists, and the exit code `QProcess` reports after
  waiting for ffmpeg. The source reads that code after a wait of at most 30 s,
  so a conversion that outlasts the wait is reported Done; see "## Findings".
  `RunAsWritten` models the code as written, and `Run` reports the status from
  how ffmpeg actually ended.

Modules, one per concern:

- `Settings` (settings.dfy): the settings snapshot. It also sorts the free-text
  format and quality settings into the cases the source compares against.
- `Paths` (paths.dfy): the Qt string and path primitives the job uses
  (`lastIndexOf`, `left`, `fileName`, `replace`). On top of them sit the
  output-directory and output-file derivation.
- `Options` (options.dfy): ffmpeg's command-line vocabulary. An option is a
  switch or a flag with one value. `Tokens` flattens options into the argument
  list and `Parse` reads a list back the way ffmpeg assigns tokens to options.
  `ParseCommandLine` takes the last token as the output file. When that token
  looks like a flag, ffmpeg reads it as an option instead, so the line names no
  output. The output file starts with the output root, which is free text in
  the settings. A root starting with `-` therefore gives a command line ffmpeg
  rejects. The source does not guard against this, and `Task.Prepare` states
  exactly when the list reads back.
- `Arguments` (arguments.dfy): the argument list `prepare()` builds. It is a
  fixed header, then the options of the chosen format's branch, then the output
  file.
- `ArgumentTable` (table.dfy): the flag table stated flag by flag. A `Profile`
  holds the values each format flag receives.
- `Task` (task.dfy): `Prepare` and `Run`. An `Environment` supplies whatever the
  job learns from the machine.

The output directory appends the input's absolute directory (`absoluteDir()`)
below the output root.

## Model

| member | source | states |
|---|---|---|
| Settings.FormatOf | src/ffmpegtask.cpp:92-158 | a format setting falls through to the unknown branch exactly when it is not one of mp3, ogg, opus, flac or wav, and then keeps its text verbatim |
| Settings.QualityOf | src/ffmpegtask.cpp:96-102 | a quality setting is unrecognised exactly when it is not extreme, high or medium, and then keeps its text |
| Settings.ExtensionIsFormatSetting | src/ffmpegtask.cpp:92-157 | every branch, the unknown one included, ends the output file in the format setting itself |
| Paths.LastIndexOf | src/ffmpegtask.cpp:76 | the result is -1 exactly when the character is absent; otherwise it is a position holding the character with no occurrence after it |
| Paths.Left | src/ffmpegtask.cpp:76 | the first n characters when 0 <= n <= the length, and the whole string when n is negative or past the end |
| Paths.FileName | src/ffmpegtask.cpp:75 | the file name is the longest tail of the path without a separator, and the character before it is a separator |
| Paths.BaseName | src/ffmpegtask.cpp:76 | the base name is the whole name when it has no `.`; otherwise it is the prefix before the last `.` |
| Paths.RemoveAll | src/ffmpegtask.cpp:79 | removing the colon leaves no colon, never lengthens the path, and changes nothing when there is no colon |
| Paths.RemoveAllKeepsOthers | src/ffmpegtask.cpp:79 | removing the colon keeps every other character, as often as it occurred |
| Paths.RemoveAllAppend | src/ffmpegtask.cpp:79 | removal acts on each character on its own: removing from a concatenation is the concatenation of the removals |
| Paths.MirroredDir | src/ffmpegtask.cpp:77-80 | the mirrored directory starts with the platform separator. On Unix it is the input directory, with a `/` added in front if it lacked one. On Windows it is the input directory with every colon removed and a `\` added in front if it lacked one, so every other character is kept in order |
| Paths.OutputDir | src/ffmpegtask.cpp:81 | the output directory extends the output root, and the next character is a separator |
| Paths.OutputFile | src/ffmpegtask.cpp:82 | the output file is inside the output directory, right after a separator, and ends in `.` plus the extension |
| Paths.UnixOutputDirMirrorsInput | src/ffmpegtask.cpp:73-81 | on Unix, an absolute input directory is reproduced verbatim below the output root |
| Paths.UnixOutputDirInjective | src/ffmpegtask.cpp:77-81 | on Unix, distinct absolute input directories never share an output directory |
| Paths.WindowsMirroredDrive | src/ffmpegtask.cpp:77-80 | on Windows, a drive path `X:rest` becomes a backslash, then `X`, then `rest` |
| Paths.WindowsOutputDirInjective | src/ffmpegtask.cpp:77-81 | on Windows, removing the drive colon still keeps distinct drive paths in distinct output directories |
| Paths.OutputFileKeepsBaseName | src/ffmpegtask.cpp:75-82 | reading the output path back gives the input's base name plus `.` plus the extension, for any extension without a separator; when the extension has no `.`, splitting at the last `.` gives back the base name |
| Options.Parse | src/ffmpegtask.cpp:84-160 | whatever ffmpeg reads from a list is a list of well-formed options whose flattening is that list |
| Options.ParseTokens | src/ffmpegtask.cpp:84-160 | every list of well-formed options reads back exactly as it was flattened |
| Options.TokensAppend | src/ffmpegtask.cpp:84-160 | flattening consecutive option lists gives consecutive token lists, which is how the list is built with `<<` |
| Options.ValuesAppend | src/ffmpegtask.cpp:84-158 | the values a flag receives from consecutive option lists are the values from each list, in order |
| Arguments.FormatOptions | src/ffmpegtask.cpp:92-158 | a branch only emits well-formed options and only format flags; it emits nothing exactly when the format is unknown |
| Arguments.CommandLine | src/ffmpegtask.cpp:84-160 | the list starts with `-hide_banner`, then `-n` (skip existing) or `-y`, then `-i` and the input path; it ends with the output file |
| Arguments.HeaderTokens | src/ffmpegtask.cpp:84-90 | the header takes exactly the first four tokens, whatever options follow it |
| Arguments.ParseCommandLine | src/ffmpegtask.cpp:160 | a command line ffmpeg accepts is its options' tokens followed by the output file, and that file does not look like a flag; a last token that looks like a flag is never read as the output |
| Arguments.CommandLineParses | src/ffmpegtask.cpp:84-160 | the argument list reads back as the job's options and the output file, for any input path and sample-rate text and any output path that does not start like a flag |
| Arguments.HeaderChoices | src/ffmpegtask.cpp:84-90 | the whole list has exactly one input; `-n` appears exactly when existing files are kept, and `-y` exactly when they are not |
| Arguments.HeaderBeforeFormatFlags | src/ffmpegtask.cpp:84-90 | the header's input stays the only `-i` value whatever format options follow |
| Arguments.OverwriteSwitchOnce | src/ffmpegtask.cpp:85-89 | exactly one overwrite policy reaches ffmpeg, and it is the one the setting chooses |
| ArgumentTable.ProfileAppend | src/ffmpegtask.cpp:92-158 | the profile of consecutive option lists is the fieldwise combination of their profiles |
| ArgumentTable.SamplerateProfile | src/ffmpegtask.cpp:103 | the sample-rate part passes the setting's rate exactly when it is non-empty |
| ArgumentTable.MetadataProfile | src/ffmpegtask.cpp:104-105 | the metadata part copies global metadata (`0`), then the first stream's (`0:s:0`) |
| ArgumentTable.Mp3Quality | src/ffmpegtask.cpp:96-102 | mp3: extreme is `-b:a 320k`, high is `-q:a 1`, medium is `-q:a 4`, and any other quality adds nothing |
| ArgumentTable.OggQuality | src/ffmpegtask.cpp:113-119 | ogg: extreme, high and medium are `-q:a` 9, 6 and 4, and any other quality adds nothing |
| ArgumentTable.OpusQuality | src/ffmpegtask.cpp:129-135 | opus: extreme, high and medium are `-b:a` 192k, 160k and 128k, and any other quality adds nothing |
| ArgumentTable.FlacQuality | src/ffmpegtask.cpp:144 | flac: only medium adds `-sample_fmt s16` |
| ArgumentTable.BranchProfile | src/ffmpegtask.cpp:92-153 | a branch made of encoder, quality, sample-rate, metadata and extra parts has the profile its parts add up to |
| ArgumentTable.Mp3Branch | src/ffmpegtask.cpp:92-106 | mp3 gets libmp3lame, its quality options, the requested rate, both metadata maps and ID3v2.3 |
| ArgumentTable.OggBranch | src/ffmpegtask.cpp:108-122 | ogg drops video and gets libvorbis, its quality scale, the requested rate and both metadata maps, but no ID3 |
| ArgumentTable.OpusBranch | src/ffmpegtask.cpp:124-138 | opus gets libopus, its bit rate and both metadata maps, and never a sample rate |
| ArgumentTable.FlacBranch | src/ffmpegtask.cpp:140-147 | flac gets the flac encoder, `s16` only at medium, the requested rate and both metadata maps |
| ArgumentTable.WavBranch | src/ffmpegtask.cpp:149-153 | wav gets pcm_s16le and the requested rate, with no quality and no metadata |
| ArgumentTable.CodecPerFormat | src/ffmpegtask.cpp:92-158 | each known format sends exactly one `-c:a` with its own encoder; any other format sends none |
| ArgumentTable.SamplerateWhereAccepted | src/ffmpegtask.cpp:103-153 | `-ar <rate>` is present exactly when a rate is set and the format is mp3, ogg, flac or wav |
| ArgumentTable.MetadataPerFormat | src/ffmpegtask.cpp:104-147 | both metadata maps appear for mp3, ogg, opus and flac only; `-id3v2_version 3` for mp3 only; `-vn` for ogg only |
| ArgumentTable.UnknownFormatAddsNothing | src/ffmpegtask.cpp:155-158 | an unknown format adds no encoder, quality, sample-rate or metadata option |
| ArgumentTable.JobProfile | src/ffmpegtask.cpp:84-158 | the header sets no format flag, so the full command line has the same profile as the format branch |
| Task.Prepare | src/ffmpegtask.cpp:71-161 | the output directory extends the output root, and equals root plus input directory for a Unix absolute path; the output file starts with the output directory and a separator and ends in `.` plus the format setting; the arguments have the fixed header and end with the output file; they read back as the job's options and the output file exactly when the output root does not start with `-` |
| Task.PrepareOutputFile | src/ffmpegtask.cpp:82-157 | the output file is exactly the output directory, the separator, the input's base name, `.` and the format setting, with nothing in between |
| Task.OutputNamedAfterInput | src/ffmpegtask.cpp:75-82 | the output file's name is the input's base name, `.`, and the format setting, for any format setting without a separator (`tar.gz` included) |
| Task.RunAsWritten | src/ffmpegtask.cpp:31-69 | Skipped exactly when existing files are kept and the output exists, and then no process starts. Otherwise ffmpeg runs with the prepared arguments after the output directory is created. Done exactly when the code read after the 30 s wait is 0. That code is 0 for a process still running, and whatever `QProcess` recorded for one that could not start |
| Task.ExitCodeRead | src/ffmpegtask.cpp:57-58 | `exitCode()` after the bounded wait: the process's own code when it ended within 30 000 ms, the initial 0 when it is still running, and the code `QProcess` recorded when it could not start |
| Task.Run | src/ffmpegtask.cpp:31-69 | the same skip and launch behaviour, but Done exactly when ffmpeg ended normally with exit code 0 |
| Task.RunsDifferOnlyWhenMisread | src/ffmpegtask.cpp:56-68 | the code as written and the intended reading disagree exactly when ffmpeg was launched and its code reads as 0 but it did not end successfully |
| Task.UnfinishedReportedDone | src/ffmpegtask.cpp:56-65 | an ffmpeg that fails only after the wait gave up, or that could not start while its code stayed 0, is reported Done by the code as written and Failed by the intended reading |
| Task.SlowFailureReportedDone | src/ffmpegtask.cpp:56-65 | an mp3 conversion that fails with exit code 1 after 60 s is reported Done by the code as written |
| Task.SameLaunch | src/ffmpegtask.cpp:37-58 | the code as written and the corrected reading skip the same jobs and start the same process in the same directory; only the reported status after it can differ |
| Task.PreparedKeepsExisting | src/ffmpegtask.cpp:84-86 | when existing files are kept, the second argument `prepare()` builds is `-n` |
| Task.KeepExistingNeverOverwrites | src/ffmpegtask.cpp:37-89 | when existing files are kept, the job is skipped or ffmpeg runs with `-n`, so nothing is overwritten; this holds for the code as written and for the corrected reading |
| Task.CreatedDirHoldsOutput | src/ffmpegtask.cpp:48-49 | the directory created before ffmpeg starts is the directory the output file is written into, for the code as written and for the corrected reading |
| Task.RerunSkipsConverted | src/ffmpegtask.cpp:36-44 | re-running a job whose output the first run produced, with existing files kept, skips it, for the code as written and for the corrected reading |

## Left out

- Running ffmpeg (`QProcess` start and wait), creating the directory (`QDir().mkpath`), the existence check (`QFileInfo::exists`) and `qDebug` logging are I/O. They are not modelled. Existence and the way the ffmpeg process went are `Environment` functions, and `Run` records the directory and process it would create.
- Resolving a relative input path against the working directory (`QFileInfo::absoluteDir`) is Qt behaviour. It is taken as the `Environment.absoluteDir` function.
- How long ffmpeg runs, and which exit code `QProcess` records for a crashed process, come from the machine. They are the `ProcessRun` the environment returns. The model covers `waitForFinished()`'s 30 000 ms default and the initial exit code 0 that `exitCode()` returns for a process that has not ended.
- Task.ExitCodeRead: the code `exitCode()` returns for a process that could not start is an input (`NotStarted.recordedCode`), not a fact the model derives. Qt leaves it at 0 for an empty program name and for a failed `CreateProcess` on Windows. On Unix it records 255 from the child's failed `exec`, so the job is Failed there.
- The `QProcess` object `run()` allocates is never deleted. After the wait gives up, ffmpeg keeps running on its own. The model has no heap and no lasting processes.
- The `Q_OS_WIN` build is the `windows` flag, not platform detection. On Windows `QDir::path()` uses `/` while `QDir::separator()` is `\`. So the separator test fails for drive paths and a `\` is always put in front. The model keeps that.
- Task.Prepare: on Windows it only promises that the output directory extends the output root; `MirroredDir` and `WindowsMirroredDrive` give the exact shape for drive paths.
- `QFileInfo::fileName` splits at `/`, and on Windows also at `\`. Drive-relative names such as `C:song.mp3` are not given special treatment.
- `Util::isNullOrEmpty` is modelled as a test for the empty string. Qt's null string is the same as the empty string here.
- `ffmpegArgs` keeps growing if `prepare()` is called twice on one task. `run()` calls it once, so the model builds the list from empty.
- The `ConvertDone` signal, the thread pool and the job id's use by the caller are out of scope. `Run` returns the id and status it would emit.
- src/settingsdialog.cpp, src/settingsdialog.h and src/main.cpp are GUI, settings persistence and start-up code. The dialog's values only guided the known formats and qualities; the model accepts any string, because `prepare()` has fall-through branches.

## Findings

| source | as written | input that shows it | evidently intended | confidence | as-written member | corrected member |
|---|---|---|---|---|---|---|
| src/ffmpegtask.cpp:56-65 | `waitForFinished()` waits at most 30 000 ms by default, and the status follows `exitCode()` read right after. For a process that has not ended, that reads as 0, so the job is reported Done | an ffmpeg run that fails with exit code 1 after 60 s; also, on Windows or with an empty program name, an ffmpeg binary that cannot be started | wait until ffmpeg ends, and report Done only for a normal exit with code 0 | medium; not executed | Task.RunAsWritten, Task.UnfinishedReportedDone | Task.Run, Task.RunsDifferOnlyWhenMisread |
