/**
 * The audio drop zone: the test that decides whether a picked or dropped
 * file is audio, and the early-return chain that accepts it, stores it and
 * reports on the status box.
 */
module AudioIntake {
  import opened Wrappers

  /** What the page reads of a `File`: its name, its MIME type (possibly empty) and its size in bytes. */
  datatype AudioFile = AudioFile(name: string, mimeType: string, size: nat)

  /** The extensions the `/\.(wav|mp3|m4a|aac|ogg|flac|webm)$/i` test accepts, in lower case. */
  const AudioExtensions: seq<string> := ["wav", "mp3", "m4a", "aac", "ogg", "flac", "webm"]

  /** The extensions the rejection message names: `aac` is not among them. */
  const ListedExtensions: seq<string> := ["wav", "mp3", "m4a", "ogg", "flac", "webm"]

  predicate StartsWith(s: string, prefix: string)
  {
    |prefix| <= |s| && s[..|prefix|] == prefix
  }

  /** The case folding of a non-Unicode `/i` regular expression, as it affects the ASCII letters of the pattern. */
  function LowerAscii(c: char): char
  {
    if 'A' <= c <= 'Z' then (c as int + 32) as char else c
  }

  function UpperAscii(c: char): char
  {
    if 'a' <= c <= 'z' then (c as int - 32) as char else c
  }

  function Lower(s: string): (r: string)
    ensures |r| == |s| && forall k :: 0 <= k < |s| ==> r[k] == LowerAscii(s[k])
  {
    seq(|s|, k requires 0 <= k < |s| => LowerAscii(s[k]))
  }

  function Upper(s: string): (r: string)
    ensures |r| == |s| && forall k :: 0 <= k < |s| ==> r[k] == UpperAscii(s[k])
  {
    seq(|s|, k requires 0 <= k < |s| => UpperAscii(s[k]))
  }

  /** `name` ends with a dot followed by `ext`, letters compared without regard to case. */
  predicate EndsWithExtension(name: string, ext: string)
  {
    && |ext| < |name|
    && name[|name| - |ext| - 1] == '.'
    && forall k :: 0 <= k < |ext| ==> LowerAscii(name[|name| - |ext| + k]) == ext[k]
  }

  /** The regular-expression test, one alternative after another. */
  function MatchesAny(name: string, exts: seq<string>): (ok: bool)
    ensures ok <==> exists e :: e in exts && EndsWithExtension(name, e)
  {
    if exts == [] then false
    else EndsWithExtension(name, exts[0]) || MatchesAny(name, exts[1..])
  }

  /**
   * `isAudioFile`: no file is not audio; otherwise a MIME type starting
   * with `audio/` suffices, and an empty or other type falls back to the
   * extension alone.
   */
  function IsAudioFile(file: Option<AudioFile>): (ok: bool)
    ensures file.None? ==> !ok
    ensures file.Some? ==>
      (ok <==> StartsWith(file.value.mimeType, "audio/")
               || exists e :: e in AudioExtensions && EndsWithExtension(file.value.name, e))
    ensures file.Some? && file.value.mimeType == "" ==>
      (ok <==> exists e :: e in AudioExtensions && EndsWithExtension(file.value.name, e))
  {
    match file
    case None => false
    case Some(f) =>
      var mimeOk := f.mimeType != "" && StartsWith(f.mimeType, "audio/");
      var extOk := MatchesAny(f.name, AudioExtensions);
      mimeOk || extOk
  }

  /** Whether a name is accepted depends on its letters only up to case. */
  lemma CaseInsensitive(name: string, ext: string)
    ensures EndsWithExtension(name, ext) <==> EndsWithExtension(Lower(name), ext)
  {
    var low := Lower(name);
    if |ext| < |name| {
      forall i | |name| - |ext| <= i < |name| ensures LowerAscii(name[i]) == LowerAscii(low[i]) {
        assert LowerAscii(LowerAscii(name[i])) == LowerAscii(name[i]);
      }
      assert low[|name| - |ext| - 1] == '.' <==> name[|name| - |ext| - 1] == '.';
    }
  }

  /**
   * A name whose extension is written in capitals (`x.AAC`, `y.Wav` as
   * `y.WAV`) is audio even with an empty MIME type, `aac` included,
   * although the rejection message does not list it.
   */
  lemma UpperCaseExtensionAccepted(stem: string, ext: string, size: nat)
    requires ext in AudioExtensions
    ensures IsAudioFile(Some(AudioFile(stem + "." + Upper(ext), "", size)))
    ensures ext == "aac" ==> ext !in ListedExtensions
  {
    assert forall k :: 0 <= k < |ext| ==> 'a' <= ext[k] <= 'z' || '0' <= ext[k] <= '9';
    UpperFoldsBack(stem, ext);
  }

  /** A lower-case extension written in capitals after a dot folds back to itself. */
  lemma UpperFoldsBack(stem: string, ext: string)
    requires forall k :: 0 <= k < |ext| ==> 'a' <= ext[k] <= 'z' || '0' <= ext[k] <= '9'
    ensures EndsWithExtension(stem + "." + Upper(ext), ext)
  {
    var up := Upper(ext);
    var name := stem + "." + up;
    forall k | 0 <= k < |ext| ensures LowerAscii(name[|name| - |ext| + k]) == ext[k] {
      assert name[|name| - |ext| + k] == up[k];
    }
    assert name[|name| - |ext| - 1] == '.';
  }

  /** The test looks only at the end of the name: a recognised extension followed by more text is not audio by name. */
  lemma ExtensionMustEndTheName(stem: string)
    ensures !MatchesAny(stem + ".wav.txt", AudioExtensions)
  {
    var name := stem + ".wav.txt";
    assert name[|name| - 5..] == "v.txt";
    forall e | e in AudioExtensions ensures !EndsWithExtension(name, e) {
      assert e[0] != 't' && (|e| == 3 || |e| == 4);
      if |e| == 3 {
        assert LowerAscii(name[|name| - 3]) == 't';
      } else {
        assert name[|name| - 5] == 'v';
      }
    }
  }

  /** `MAX_MB` megabytes of 1024 * 1024 bytes: the largest size accepted. */
  const MaxBytes: nat := 50 * 1024 * 1024

  /** The `type` argument of `setStatus`. */
  datatype Kind = Info | Ok | Warn | Err

  /**
   * What `handleFile` writes on the status box. The too-large and loaded
   * messages print the size in megabytes with one decimal; they are kept
   * here as the data they are formatted from.
   */
  datatype Notice = NoFile | NotAudio | TooLarge(size: nat) | Loaded(name: string, size: nat) | Unexpected

  const NoFileText := "No file selected."
  const NotAudioText := "Please upload an audio file (wav/mp3/m4a/ogg/flac/webm)."
  const UnexpectedText := "Unexpected error while processing the audio file."

  function KindOf(n: Notice): (k: Kind)
    ensures k == Ok <==> n.Loaded?
    ensures k == Warn <==> n.NoFile?
    ensures k != Info
  {
    match n
    case NoFile => Warn
    case NotAudio => Err
    case TooLarge(_) => Err
    case Loaded(_, _) => Ok
    case Unexpected => Err
  }

  /**
   * The drop zone's state: the file and object URL kept for later use
   * (`window.selectedAudioFile` and `window.selectedAudioUrl`) and the
   * notice on the status box, which may be missing from the page.
   */
  class Intake {
    const hasStatusBox: bool
    var selectedFile: Option<AudioFile>
    var selectedUrl: Option<string>
    var shown: Option<Notice>

    constructor (hasStatusBox: bool)
      ensures this.hasStatusBox == hasStatusBox
      ensures selectedFile == None && selectedUrl == None && shown == None
    {
      this.hasStatusBox := hasStatusBox;
      selectedFile, selectedUrl, shown := None, None, None;
    }

    /** `setStatus`: does nothing when the page has no status box. */
    method SetStatus(n: Notice)
      modifies this`shown
      ensures shown == (if hasStatusBox then Some(n) else old(shown))
    {
      if !hasStatusBox {
        return;
      }
      shown := Some(n);
    }

    /**
     * `handleFile`. The checks run in order (a file at all, audio, at most
     * `MaxBytes`) and the first that fails reports and stores nothing.
     * When all pass the file is stored; `objectUrl` is what
     * `URL.createObjectURL` returns, `None` when it throws, in which case
     * the file stays stored, the URL is not replaced and the notice is
     * the unexpected-error one.
     */
    method HandleFile(file: Option<AudioFile>, objectUrl: Option<string>)
      modifies this`selectedFile, this`selectedUrl, this`shown
      ensures file.None? ==>
        && selectedFile == old(selectedFile) && selectedUrl == old(selectedUrl)
        && shown == (if hasStatusBox then Some(NoFile) else old(shown))
      ensures file.Some? && !IsAudioFile(file) ==>
        && selectedFile == old(selectedFile) && selectedUrl == old(selectedUrl)
        && shown == (if hasStatusBox then Some(NotAudio) else old(shown))
      ensures IsAudioFile(file) && file.value.size > MaxBytes ==>
        && selectedFile == old(selectedFile) && selectedUrl == old(selectedUrl)
        && shown == (if hasStatusBox then Some(TooLarge(file.value.size)) else old(shown))
      ensures IsAudioFile(file) && file.value.size <= MaxBytes ==>
        && selectedFile == file
        && selectedUrl == (if objectUrl.Some? then objectUrl else old(selectedUrl))
        && shown == (if !hasStatusBox then old(shown)
                     else if objectUrl.Some? then Some(Loaded(file.value.name, file.value.size))
                     else Some(Unexpected))
      ensures shown != old(shown) && KindOf(shown.value) == Ok ==>
        IsAudioFile(file) && file.value.size <= MaxBytes && selectedFile == file && selectedUrl == objectUrl
    {
      if file.None? {
        SetStatus(NoFile);
        return;
      }
      if !IsAudioFile(file) {
        SetStatus(NotAudio);
        return;
      }
      var f := file.value;
      if f.size > MaxBytes {
        SetStatus(TooLarge(f.size));
        return;
      }
      selectedFile := file;
      if objectUrl.None? {
        SetStatus(Unexpected);
        return;
      }
      selectedUrl := objectUrl;
      SetStatus(Loaded(f.name, f.size));
    }
  }
}
