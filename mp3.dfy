// Upload validation and display formatting of the audio file handler
// (effects/audioAnalyzer/mp3Converter.js). Object URLs and metadata loading
// are not part of this model.
module Mp3 {
  import opened Text
  import opened Wrappers
  import Arith

  /** The fields of a browser File the handler reads; a File's size is a byte count. */
  datatype AudioFile = AudioFile(name: string, size: nat, mimeType: string)

  datatype Validation = Accepted(file: AudioFile) | Rejected(error: string)

  /** The info object processFile returns (its object URL is not modelled). */
  datatype FileInfo = FileInfo(name: string, size: nat, mimeType: string, duration: real)

  const SupportedFormats: seq<string> := ["audio/mpeg", "audio/mp3", "audio/wav", "audio/ogg", "audio/m4a"]
  const MaxFileSize: nat := 50 * 1024 * 1024
  const EmptyFileError := "File is empty"

  function UnsupportedFormatError(mimeType: string): string
  {
    "Unsupported file format: " + mimeType + ". Supported formats: MP3, WAV, OGG, M4A"
  }

  function TooLargeError(size: nat): string
  {
    "File too large: " + Mebibytes(size) + "MB. Maximum size: 50MB"
  }

  /**
   * `(size / 1024 / 1024).toFixed(1)`. Dividing by a power of two is exact in
   * binary floating point, so the rounding is exact: to the nearest tenth, a tie up.
   */
  function Mebibytes(size: nat): (s: string)
  {
    var tenths := (20 * size + 1048576) / 2097152;
    NatToString(tenths / 10) + "." + [DigitChar(tenths % 10)]
  }

  /** validateFile: type first, then maximum size, then emptiness. */
  function ValidateFile(f: AudioFile): (v: Validation)
    ensures v.Accepted? <==> f.mimeType in SupportedFormats && 0 < f.size <= MaxFileSize
    ensures v.Accepted? ==> v.file == f
    ensures f.mimeType !in SupportedFormats ==> v == Rejected(UnsupportedFormatError(f.mimeType))
    ensures f.mimeType in SupportedFormats && f.size > MaxFileSize ==> v == Rejected(TooLargeError(f.size))
    ensures v == Rejected(EmptyFileError) <==> f.mimeType in SupportedFormats && f.size == 0
  {
    if f.mimeType !in SupportedFormats then Rejected(UnsupportedFormatError(f.mimeType))
    else if f.size > MaxFileSize then Rejected(TooLargeError(f.size))
    else if f.size == 0 then Rejected(EmptyFileError)
    else Accepted(f)
  }

  /** Exactly 50 MiB passes; one byte more is too large. */
  lemma SizeLimitBoundary(name: string)
    ensures ValidateFile(AudioFile(name, 52428800, "audio/mpeg")).Accepted?
    ensures ValidateFile(AudioFile(name, 52428801, "audio/mpeg")) == Rejected(TooLargeError(52428801))
  {
  }

  function Pow1024(i: nat): (p: nat)
    ensures p >= 1
  {
    if i == 0 then 1 else 1024 * Pow1024(i - 1)
  }

  /** `Math.floor(Math.log(bytes) / Math.log(1024))`, taken as the exact integer logarithm. */
  function Log1024(bytes: nat): (i: nat)
    requires bytes >= 1
    ensures Pow1024(i) <= bytes < Pow1024(i + 1)
  {
    if bytes < 1024 then 0 else 1 + Log1024(bytes / 1024)
  }

  const Units: seq<string> := ["Bytes", "KB", "MB", "GB"]

  /** `sizes[i]`, which is `undefined` (printed as such) from the fifth unit on. */
  function Unit(i: nat): string
  {
    if i < |Units| then Units[i] else "undefined"
  }

  /**
   * `parseFloat(x.toFixed(2)) + ''` for a non-negative x given in hundredths:
   * the integer part, then up to two decimals with trailing zeros dropped.
   */
  function ShortDecimal(hundredths: nat): string
  {
    var whole, frac := hundredths / 100, hundredths % 100;
    if frac == 0 then NatToString(whole)
    else if frac % 10 == 0 then NatToString(whole) + "." + [DigitChar(frac / 10)]
    else NatToString(whole) + "." + [DigitChar(frac / 10), DigitChar(frac % 10)]
  }

  /** formatFileSize; `bytes / 1024^i` is exact, so toFixed(2) rounds to the nearest hundredth, a tie up. */
  function FormatFileSize(bytes: nat): (s: string)
  {
    if bytes == 0 then "0 Bytes"
    else
      var i := Log1024(bytes);
      var p := Pow1024(i);
      ShortDecimal((200 * bytes + p) / (2 * p)) + " " + Unit(i)
  }

  /** The unit is a named one exactly below 1024^4 bytes; from there on it reads "undefined". */
  lemma {:induction false} FileSizeUnit(bytes: nat)
    requires bytes >= 1
    ensures var i := Log1024(bytes);
            (bytes < Pow1024(4) <==> i < 4)
            && FormatFileSize(bytes)[|FormatFileSize(bytes)| - |Unit(i)|..] == Unit(i)
            && (bytes >= Pow1024(4) ==> Unit(i) == "undefined")
  {
    var i := Log1024(bytes);
    if i >= 4 { PowMonotone(4, i); }
    if i < 4 { PowMonotone(i + 1, 4); }
  }

  lemma {:induction false} PowMonotone(i: nat, j: nat)
    requires i <= j
    ensures Pow1024(i) <= Pow1024(j)
  {
    if i < j { PowMonotone(i, j - 1); }
  }

  lemma FileSizeExamples()
    ensures FormatFileSize(0) == "0 Bytes"
    ensures FormatFileSize(1536) == "1.5 KB"
    ensures FormatFileSize(1024) == "1 KB"
  {
    assert Log1024(1536) == 1 && Log1024(1024) == 1;
    assert Pow1024(1) == 1024;
    assert (200 * 1536 + 1024) / 2048 == 150 && (200 * 1024 + 1024) / 2048 == 100;
    assert ShortDecimal(150) == "1.5" by {
      assert NatToString(1) == "1" && DigitChar(5) == '5';
    }
    assert ShortDecimal(100) == "1" by {
      assert NatToString(1) == "1";
    }
  }

  /** JavaScript's truncation toward zero and `%` on numbers. */
  function Trunc(x: real): int
  {
    if x >= 0.0 then x.Floor else -((-x).Floor)
  }

  function JsRemReal(a: real, n: real): real
    requires n != 0.0
  {
    a - n * (Trunc(a / n) as real)
  }

  /** formatDuration: `${Math.floor(s / 60)}:${pad2(Math.floor(s % 60))}`. */
  function FormatDuration(seconds: real): string
  {
    var minutes := (seconds / 60.0).Floor;
    var rest := JsRemReal(seconds, 60.0).Floor;
    IntToString(minutes) + ":" + PadTwo(IntToString(rest))
  }

  /** For s >= 0 the text is "m:ss" with two-digit ss < 60 and m * 60 + ss == floor(s). */
  lemma DurationParts(seconds: real)
    requires seconds >= 0.0
    ensures var m, ss := (seconds / 60.0).Floor, JsRemReal(seconds, 60.0).Floor;
            m >= 0 && 0 <= ss < 60 && m * 60 + ss == seconds.Floor
            && FormatDuration(seconds) == NatToString(m) + ":" + PadTwo(NatToString(ss))
            && |PadTwo(NatToString(ss))| == 2
  {
    var m := (seconds / 60.0).Floor;
    assert Trunc(seconds / 60.0) == m;
    var r := seconds - 60.0 * (m as real);
    assert (m as real) <= seconds / 60.0 < (m as real) + 1.0;
    assert 60.0 * (m as real) <= seconds < 60.0 * (m as real) + 60.0;
    assert 0.0 <= r < 60.0;
    assert JsRemReal(seconds, 60.0) == r;
    var ss := r.Floor;
    assert (seconds).Floor == m * 60 + ss by {
      assert seconds == (m * 60) as real + r;
      FloorShift(m * 60, r);
    }
  }

  lemma FloorShift(k: int, r: real)
    ensures ((k as real) + r).Floor == k + r.Floor
  {
  }

  /** getFileExtension: the lowercased text after the last '.', or the whole lowercased name. */
  function FileExtension(filename: string): (ext: string)
    ensures '.' !in filename ==> ext == ToLower(filename)
    ensures |ext| <= |filename| && ToLower(filename[|filename| - |ext|..]) == ext
    ensures '.' !in ext
    ensures |ext| < |filename| ==> filename[|filename| - |ext| - 1] == '.'
  {
    var piece := AfterLast(filename, '.');
    LoweredSuffix(filename, piece);
    ToLower(piece)
  }

  /** Lowercasing the text after the last dot keeps it the (lowercased) suffix after that dot. */
  lemma LoweredSuffix(filename: string, piece: string)
    requires |piece| <= |filename| && piece == filename[|filename| - |piece|..]
    requires '.' !in piece
    requires |piece| < |filename| ==> filename[|filename| - |piece| - 1] == '.'
    requires '.' !in filename ==> piece == filename
    ensures var ext := ToLower(piece);
      && ('.' !in filename ==> ext == ToLower(filename))
      && |ext| <= |filename| && ToLower(filename[|filename| - |ext|..]) == ext
      && '.' !in ext
      && (|ext| < |filename| ==> filename[|filename| - |ext| - 1] == '.')
  {
    LowerKeepsAbsent(piece, '.');
  }

  /** isMP3: an MPEG mime type, or a name ending in ".mp3" (any case) or equal to "mp3" (any case). */
  function IsMp3(f: AudioFile): (b: bool)
    ensures b <==> (f.mimeType in {"audio/mpeg", "audio/mp3"}
                    || (|f.name| >= 3 && ToLower(f.name[|f.name| - 3..]) == "mp3"
                        && (|f.name| == 3 || f.name[|f.name| - 4] == '.')))
  {
    f.mimeType == "audio/mpeg" || f.mimeType == "audio/mp3" || FileExtension(f.name) == "mp3"
  }

  /** The extension decides regardless of case when the type is generic. */
  lemma UpperCaseExtensionIsMp3()
    ensures IsMp3(AudioFile("Song.MP3", 10, "application/octet-stream"))
  {
    assert AfterLast("Song.MP3", '.') == "MP3";
    assert ToLower("MP3") == "mp3";
  }

  /** Only the text after the last dot counts as the extension. */
  lemma InnerExtensionIsIgnored()
    ensures !IsMp3(AudioFile("song.mp3.wav", 10, "audio/wav"))
  {
    assert AfterLast("song.mp3.wav", '.') == "wav";
    assert ToLower("wav") == "wav";
  }

  /** The handler's state: the last accepted file. */
  class Mp3Converter {
    var currentFile: Option<AudioFile>

    constructor ()
      ensures currentFile == None
    {
      currentFile := None;
    }

    /** processFile: a rejected file throws its validation error and leaves the state alone. */
    method ProcessFile(f: AudioFile) returns (r: Result<FileInfo, string>)
      modifies this
      ensures r.Err? <==> ValidateFile(f).Rejected?
      ensures r.Err? ==> r.error == ValidateFile(f).error && currentFile == old(currentFile)
      ensures r.Ok? ==> currentFile == Some(f) && r.value == FileInfo(f.name, f.size, f.mimeType, 0.0)
    {
      var validation := ValidateFile(f);
      if validation.Rejected? {
        return Err(validation.error);
      }
      currentFile := Some(f);
      r := Ok(FileInfo(f.name, f.size, f.mimeType, 0.0));
    }

    method Dispose()
      modifies this
      ensures currentFile == None
    {
      if currentFile.Some? {
        currentFile := None;
      }
    }
  }
}
