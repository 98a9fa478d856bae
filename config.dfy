/**
 * How the recorder module turns a file path and the `prepare` options into
 * the native encoder configuration: the output-format and audio-encoder
 * lookup tables, the extension of a path, and the option defaults.
 */
module RecorderConfig {
  import opened Wrappers

  /** The `MediaRecorder.OutputFormat` constants the module can select. */
  datatype OutputFormat = DefaultFormat | AacAdts | Mpeg4 | Webm | AmrWbFormat

  /** The `MediaRecorder.AudioEncoder` constants the module can select. */
  datatype AudioEncoder = DefaultEncoder | Aac | HeAac | Vorbis | AmrWbEncoder

  /** The names the format table knows; every other name selects the default format. */
  const FormatNames: set<string> := {"aac", "mp4", "webm", "ogg", "amr"}

  /** The names the encoder table knows; every other name selects the default encoder. */
  const EncoderNames: set<string> := {"aac-lc", "aac", "mp4", "webm", "ogg", "amr"}

  const DefaultBitrate := 128000
  const DefaultChannels := 2
  const DefaultSampleRate := 44100

  /** Output format for a format name; total, falling back to the default format. */
  function FormatFromName(name: string): (f: OutputFormat)
    ensures f == DefaultFormat <==> name !in FormatNames
    ensures f == AacAdts <==> name == "aac"
    ensures f == Mpeg4 <==> name == "mp4"
    ensures f == Webm <==> name == "webm" || name == "ogg"
    ensures f == AmrWbFormat <==> name == "amr"
  {
    match name
    case "aac" => AacAdts
    case "mp4" => Mpeg4
    case "webm" => Webm
    case "ogg" => Webm
    case "amr" => AmrWbFormat
    case _ => DefaultFormat
  }

  /** Audio encoder for an encoder name; total, falling back to the default encoder. */
  function EncoderFromName(name: string): (e: AudioEncoder)
    ensures e == DefaultEncoder <==> name !in EncoderNames
    ensures e == Aac <==> name == "aac" || name == "aac-lc"
    ensures e == HeAac <==> name == "mp4"
    ensures e == Vorbis <==> name == "webm" || name == "ogg"
    ensures e == AmrWbEncoder <==> name == "amr"
  {
    match name
    case "aac-lc" => Aac
    case "aac" => Aac
    case "mp4" => HeAac
    case "webm" => Vorbis
    case "ogg" => Vorbis
    case "amr" => AmrWbEncoder
    case _ => DefaultEncoder
  }

  /** Java's `String.lastIndexOf(char)`: the last position of `c` in `s`, or -1. */
  function LastIndexOf(s: string, c: char): (r: int)
    ensures -1 <= r < |s|
    ensures r == -1 <==> c !in s
    ensures r >= 0 ==> s[r] == c
    ensures forall j :: r < j < |s| ==> s[j] != c
  {
    if s == [] then -1
    else if s[|s| - 1] == c then |s| - 1
    else LastIndexOf(s[..|s| - 1], c)
  }

  /**
   * `path.substring(path.lastIndexOf('.') + 1)`: the text after the last
   * dot, or the whole path when it has no dot.
   */
  function Extension(path: string): (ext: string)
    ensures '.' !in ext
    ensures |ext| <= |path| && path[|path| - |ext|..] == ext
    ensures '.' !in path ==> ext == path
    ensures '.' in path ==> path[|path| - |ext| - 1] == '.'
  {
    path[LastIndexOf(path, '.') + 1..]
  }

  /**
   * `formatFromPath`: the format named by the path's extension; a path
   * without a dot is taken as a name itself, and an unknown extension gives
   * the default format.
   */
  function FormatFromPath(path: string): (f: OutputFormat)
    ensures '.' !in path ==> f == FormatFromName(path)
    ensures f == DefaultFormat <==> Extension(path) !in FormatNames
    ensures f != DefaultFormat ==> |Extension(path)| >= 3 && path[|path| - |Extension(path)|..] in FormatNames
  {
    FormatFromName(Extension(path))
  }

  /** `encoderFromPath`: the encoder named by the path's extension, as for the format. */
  function EncoderFromPath(path: string): (e: AudioEncoder)
    ensures '.' !in path ==> e == EncoderFromName(path)
    ensures e == DefaultEncoder <==> Extension(path) !in EncoderNames
    ensures e != DefaultEncoder ==> |Extension(path)| >= 3 && path[|path| - |Extension(path)|..] in EncoderNames
  {
    EncoderFromName(Extension(path))
  }

  /** The keys of the `prepare` options map the module reads; absent keys are `None`. */
  datatype RecorderOptions = RecorderOptions(
    format: Option<string>,
    encoder: Option<string>,
    bitrate: Option<int>,
    channels: Option<int>,
    sampleRate: Option<int>,
    autoDestroy: Option<bool>,
    meteringInterval: Option<int>)

  /** The encoder settings `prepare` applies to a new native recorder. */
  datatype RecordingConfig = RecordingConfig(
    format: OutputFormat,
    encoder: AudioEncoder,
    bitrate: int,
    channels: int,
    sampleRate: int)

  /**
   * The settings for a recording to `path`: an explicit option wins, and
   * otherwise the format and encoder follow the path's extension and the
   * numbers take their defaults.
   */
  function ResolveConfig(path: string, options: RecorderOptions): (c: RecordingConfig)
    ensures c.format == FormatFromName(if options.format.Some? then options.format.value else Extension(path))
    ensures c.encoder == EncoderFromName(if options.encoder.Some? then options.encoder.value else Extension(path))
    ensures options.bitrate.None? ==> c.bitrate == DefaultBitrate
    ensures options.bitrate.Some? ==> c.bitrate == options.bitrate.value
    ensures options.channels.None? ==> c.channels == DefaultChannels
    ensures options.channels.Some? ==> c.channels == options.channels.value
    ensures options.sampleRate.None? ==> c.sampleRate == DefaultSampleRate
    ensures options.sampleRate.Some? ==> c.sampleRate == options.sampleRate.value
  {
    var format := if options.format.Some? then FormatFromName(options.format.value) else FormatFromPath(path);
    var encoder := if options.encoder.Some? then EncoderFromName(options.encoder.value) else EncoderFromPath(path);
    RecordingConfig(format, encoder,
                    options.bitrate.GetOr(DefaultBitrate),
                    options.channels.GetOr(DefaultChannels),
                    options.sampleRate.GetOr(DefaultSampleRate))
  }

  /** The module-wide metering interval a `prepare` installs: the option when positive, else 0. */
  function MeteringIntervalOf(options: RecorderOptions): (interval: int)
    ensures interval >= 0
    ensures interval > 0 <==> options.meteringInterval.Some? && options.meteringInterval.value > 0
    ensures interval > 0 ==> interval == options.meteringInterval.value
  {
    if options.meteringInterval.Some? && options.meteringInterval.value > 0 then options.meteringInterval.value else 0
  }

  /** The extension after the last dot decides format and encoder, whatever the earlier dots. */
  lemma ExtensionAfterLastDot(stem: string, ext: string)
    requires '.' !in ext
    ensures Extension(stem + "." + ext) == ext
    ensures FormatFromPath(stem + "." + ext) == FormatFromName(ext)
    ensures EncoderFromPath(stem + "." + ext) == EncoderFromName(ext)
  {
    var p := stem + "." + ext;
    var i := LastIndexOf(p, '.');
    assert p[|stem|] == '.';
    assert i == |stem|;
    assert p[i + 1..] == ext;
  }

  /** "webm" and "ogg" are synonyms for both tables; "aac" and "aac-lc" for the encoder table. */
  lemma SynonymousNames()
    ensures FormatFromName("webm") == FormatFromName("ogg") == Webm
    ensures EncoderFromName("webm") == EncoderFromName("ogg") == Vorbis
    ensures EncoderFromName("aac") == EncoderFromName("aac-lc") == Aac
  {
  }
}
