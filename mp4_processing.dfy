/** The upload-file preparation: the extension of the uploaded file's base
    name decides whether it is read as it is (.wav), converted to 16 kHz mono
    WAV in a scratch directory (.mp4) or refused (anything else). The scratch
    directory is cleaned up whatever happens, and cleanup never raises. The
    file system and the converter are given as outcomes. */
module Mp4Processing {
  import opened Common

  newtype Byte = x: int | 0 <= x < 256

  /** A file ready for upload: its name and its bytes. */
  datatype AudioFile = AudioFile(fileName: string, fileData: seq<Byte>)

  /** The converter's exit status and its standard error, decoded. */
  datatype Exit = Exit(returnCode: int, stderr: string)

  /** What the file system and the converter answer. */
  datatype Mp4Env = Mp4Env(
    read: string -> Result<seq<Byte>>,     // reading the bytes at a path
    copy: (string, string) -> Option<Error>,  // copying a file to a path: the exception, if any
    ffmpeg: (string, string) -> Exit,      // converting an input path to an output path
    removeFails: string -> bool,           // removing this path raises
    rmtreeFails: bool)                     // removing the scratch directory raises

  const Unsupported: Error := HttpError(400, "サポートされていないファイル形式です。")
  const ProcessPrefix: string := "処理失敗: "
  const FfmpegPrefix: string := "FFmpeg失敗: "

  /** The index of the last `c` in `s`, or -1. */
  function LastIndex(s: string, c: char): (i: int)
    ensures -1 <= i < |s|
    ensures i >= 0 ==> s[i] == c
    ensures forall k :: i < k < |s| ==> s[k] != c
  {
    if s == [] then -1
    else if s[|s| - 1] == c then |s| - 1
    else LastIndex(s[..|s| - 1], c)
  }

  /** `os.path.basename`: what follows the last "/". */
  function Basename(path: string): (name: string)
    ensures |name| <= |path| && path[|path| - |name|..] == name
    ensures '/' !in name
    ensures path == [] || path[|path| - 1] == '/' ==> name == []
  {
    path[LastIndex(path, '/') + 1..]
  }

  predicate AllDots(s: string)
  {
    forall k :: 0 <= k < |s| ==> s[k] == '.'
  }

  /** `os.path.splitext`: the extension runs from the last "." of the last path
      component, unless only dots precede it in that component (".mp4" and
      "..wav" have no extension). */
  function SplitExt(p: string): (r: (string, string))
    ensures r.0 + r.1 == p
    ensures r.1 != [] ==> r.1[0] == '.' && '.' !in r.1[1..] && '/' !in r.1[1..]
  {
    var sep := LastIndex(p, '/');
    var dot := LastIndex(p, '.');
    if dot > sep && !AllDots(p[sep + 1..dot]) then
      ExtensionChars(p, sep, dot);
      (p[..dot], p[dot..])
    else (p, [])
  }

  lemma ExtensionChars(p: string, sep: int, dot: int)
    requires sep == LastIndex(p, '/') && dot == LastIndex(p, '.') && 0 <= dot && sep < dot
    ensures p[dot] == '.' && '.' !in p[dot + 1..] && '/' !in p[dot + 1..]
  {
    var ext := p[dot + 1..];
    forall k | 0 <= k < |ext|
      ensures ext[k] != '.' && ext[k] != '/'
    {
      assert ext[k] == p[dot + 1 + k];
    }
  }

  /** `str.lower` on the letters A to Z (no other character lowers to a letter
      of ".mp4" or ".wav"). */
  function Lower(s: string): (r: string)
    ensures |r| == |s|
    ensures forall k :: 0 <= k < |s| ==> r[k] == if 'A' <= s[k] <= 'Z' then (s[k] as int + 32) as char else s[k]
  {
    seq(|s|, k requires 0 <= k < |s| => if 'A' <= s[k] <= 'Z' then (s[k] as int + 32) as char else s[k])
  }

  /** The lower-cased extension of the base name. */
  function Extension(path: string): string
  {
    Lower(SplitExt(Basename(path)).1)
  }

  /** The converted file's name: the base name's stem with ".wav". */
  function OutputName(fileName: string): string
  {
    SplitExt(fileName).0 + ".wav"
  }

  /** `os.path.join(tmpdir, name)` for a name without "/". */
  function Join2(dir: string, name: string): string
  {
    if dir != [] && dir[|dir| - 1] == '/' then dir + name else dir + "/" + name
  }

  /** `_convert_wav`: a non-zero exit raises 500 with the converter's stderr. */
  function ConvertWav(env: Mp4Env, input: string, output: string): (r: Option<Error>)
    ensures r.None? <==> env.ffmpeg(input, output).returnCode == 0
    ensures r.Some? ==> r.value == HttpError(500, FfmpegPrefix + env.ffmpeg(input, output).stderr)
  {
    var exit := env.ffmpeg(input, output);
    if exit.returnCode != 0 then Some(HttpError(500, FfmpegPrefix + exit.stderr)) else None
  }

  /** `_read_file`: the bytes at a path under the given name. */
  function ReadFile(env: Mp4Env, path: string, fileName: string): Result<AudioFile>
  {
    var data :- env.read(path);
    Ok(AudioFile(fileName, data))
  }

  /** The body of `_process_audio_file`'s try: copy, convert, read. */
  function ConvertSteps(env: Mp4Env, tmpdir: string, filePath: string, fileName: string): Result<AudioFile>
  {
    var input := Join2(tmpdir, fileName);
    var output := Join2(tmpdir, OutputName(fileName));
    match env.copy(filePath, input)
    case Some(e) => Err(e)
    case None =>
      match ConvertWav(env, input, output)
      case Some(e) => Err(e)
      case None => ReadFile(env, output, OutputName(fileName))
  }

  /** What `_process_audio_file` returns or raises: any failure of the three
      steps is re-raised as 500 "処理失敗: <str(e)>". */
  function ProcessAudioFileSpec(env: Mp4Env, tmpdir: string, filePath: string, fileName: string): (r: Result<AudioFile>)
    ensures var input, output := Join2(tmpdir, fileName), Join2(tmpdir, OutputName(fileName));
      && (r.Ok? <==> env.copy(filePath, input).None? && env.ffmpeg(input, output).returnCode == 0 && env.read(output).Ok?)
      && (r.Ok? ==> r.value == AudioFile(OutputName(fileName), env.read(output).value))
    ensures r.Err? ==>
      && r.error.HttpError? && r.error.status == 500
      && |ProcessPrefix| <= |r.error.detail| && r.error.detail[..|ProcessPrefix|] == ProcessPrefix
  {
    match ConvertSteps(env, tmpdir, filePath, fileName)
    case Ok(f) => Ok(f)
    case Err(e) => Err(HttpError(500, ProcessPrefix + Str(e)))
  }

  /** What `process_mp4` returns or raises. */
  function ProcessMp4Spec(env: Mp4Env, tmpdir: string, filePath: string): Result<AudioFile>
  {
    var name := Basename(filePath);
    var ext := Extension(filePath);
    if ext != ".mp4" && ext != ".wav" then Err(Unsupported)
    else if ext == ".wav" then ReadFile(env, filePath, name)
    else ProcessAudioFileSpec(env, tmpdir, filePath, name)
  }

  /** The dispatch: an extension other than .mp4 or .wav (in any letter case)
      is refused with 400 before anything is read; a .wav file is read under its
      base name without conversion, its read errors unwrapped; an .mp4 file
      comes back as the stem of its base name plus ".wav", or as a 500 error. */
  lemma ProcessMp4Dispatch(env: Mp4Env, tmpdir: string, filePath: string)
    ensures var r := ProcessMp4Spec(env, tmpdir, filePath);
      var ext := Extension(filePath);
      && (ext != ".mp4" && ext != ".wav" ==> r == Err(Unsupported))
      && (ext == ".wav" ==> r == match env.read(filePath)
            case Ok(data) => Ok(AudioFile(Basename(filePath), data))
            case Err(e) => Err(e))
      && (ext == ".mp4" && r.Ok? ==> r.value.fileName == SplitExt(Basename(filePath)).0 + ".wav")
      && (ext == ".mp4" && r.Err? ==> r.error.HttpError? && r.error.status == 500)
  {
  }

  /** The extension test ignores letter case: ".MP4" and ".Wav" are accepted
      like ".mp4" and ".wav". */
  lemma ExtensionIgnoresCase()
    ensures Lower(".MP4") == ".mp4" && Lower(".Mp4") == ".mp4"
    ensures Lower(".WAV") == ".wav" && Lower(".Wav") == ".wav"
  {
  }

  /** A base name that is a dot followed by no other dot, such as ".mp4", has
      no extension, so such an upload is refused. */
  lemma DotNameHasNoExtension(name: string)
    requires |name| > 0 && name[0] == '.'
    requires forall k :: 1 <= k < |name| ==> name[k] != '.' && name[k] != '/'
    ensures SplitExt(name) == (name, [])
    ensures Extension(name) == []
  {
    assert LastIndex(name, '.') == 0;
    assert LastIndex(name, '/') == -1;
    assert Basename(name) == name;
    assert AllDots(name[0..0]);
  }

  /** The scratch directory `tempfile.mkdtemp` made for one conversion. */
  class ScratchDir {
    const path: string
    var files: seq<string>   // the names in the directory, in listing order
    var present: bool        // the directory still exists

    constructor (path: string)
      ensures this.path == path && files == [] && present
    {
      this.path := path;
      files := [];
      present := true;
    }

    /** Records a file written into the directory. */
    method Add(name: string)
      modifies this
      ensures files == old(files) + [name] && present == old(present)
    {
      files := files + [name];
    }

    /** `_cleanup_directory`: removes each listed file, logging a warning for
        each removal that fails, then removes the directory tree, logging a
        warning if that fails. It never raises; it returns the warnings'
        count. */
    method Cleanup(env: Mp4Env) returns (warnings: nat)
      modifies this
      ensures warnings == |Failing(env, path, old(files))| + (if env.rmtreeFails then 1 else 0)
      ensures present == (old(present) && env.rmtreeFails)
      ensures files == (if env.rmtreeFails then Failing(env, path, old(files)) else [])
    {
      var i := 0;
      var kept: seq<string> := [];
      warnings := 0;
      while i < |files|
        invariant 0 <= i <= |files|
        invariant files == old(files) && present == old(present)
        invariant kept == Failing(env, path, files[..i]) && warnings == |kept|
      {
        assert files[..i + 1] == files[..i] + [files[i]];
        FailingAppend(env, path, files[..i], [files[i]]);
        if env.removeFails(Join2(path, files[i])) {
          kept := kept + [files[i]];
          warnings := warnings + 1;
        }
        i := i + 1;
      }
      assert files[..i] == files;
      if env.rmtreeFails {
        files := kept;
        warnings := warnings + 1;
      } else {
        files := [];
        present := false;
      }
    }

    /** `_process_audio_file`: copy the upload into the directory, convert it,
        read the result; any failure becomes a 500 "処理失敗: " error; the
        directory is cleaned up on success and on failure alike. */
    method ProcessAudioFile(env: Mp4Env, filePath: string, fileName: string) returns (r: Result<AudioFile>)
      requires files == [] && present
      modifies this
      ensures r == ProcessAudioFileSpec(env, path, filePath, fileName)
      ensures present == env.rmtreeFails
      ensures !env.rmtreeFails ==> files == []
    {
      var input := Join2(path, fileName);
      var outputName := OutputName(fileName);
      var output := Join2(path, outputName);
      var copied := env.copy(filePath, input);
      if copied.Some? {
        r := Err(HttpError(500, ProcessPrefix + Str(copied.value)));
      } else {
        Add(fileName);
        var converted := ConvertWav(env, input, output);
        if converted.Some? {
          r := Err(HttpError(500, ProcessPrefix + Str(converted.value)));
        } else {
          Add(outputName);
          var read := ReadFile(env, output, outputName);
          r := if read.Ok? then read else Err(HttpError(500, ProcessPrefix + Str(read.error)));
        }
      }
      var _ := Cleanup(env);
    }
  }

  /** The listed names whose removal fails, in listing order. */
  function Failing(env: Mp4Env, dir: string, names: seq<string>): seq<string>
  {
    if names == [] then []
    else
      var last := names[|names| - 1];
      Failing(env, dir, names[..|names| - 1]) + (if env.removeFails(Join2(dir, last)) then [last] else [])
  }

  lemma FailingAppend(env: Mp4Env, dir: string, a: seq<string>, b: seq<string>)
    requires |b| == 1
    ensures Failing(env, dir, a + b) == Failing(env, dir, a) + (if env.removeFails(Join2(dir, b[0])) then [b[0]] else [])
  {
    assert (a + b)[..|a + b| - 1] == a;
  }

  /** `process_mp4`: the dispatch, converting in a fresh scratch directory. */
  method ProcessMp4(env: Mp4Env, tmpdir: string, filePath: string) returns (r: Result<AudioFile>)
    ensures r == ProcessMp4Spec(env, tmpdir, filePath)
  {
    var name := Basename(filePath);
    var ext := Lower(SplitExt(name).1);
    if ext != ".mp4" && ext != ".wav" {
      return Err(Unsupported);
    }
    if ext == ".wav" {
      return ReadFile(env, filePath, name);
    }
    var dir := new ScratchDir(tmpdir);
    r := dir.ProcessAudioFile(env, filePath, name);
  }
}
