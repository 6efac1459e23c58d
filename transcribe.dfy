/**
 * The file-set check of `transcribe_audio`: after the speech-to-text tool has
 * run, a format is kept only when `<output_dir>/<stem>.<format>` exists and is
 * not empty. The filesystem is a map from path to size.
 */
module Transcribe {
  import opened Strings

  type FileSystem = map<string, nat>

  /** The expected formats, in the order of the source's dictionary literal. */
  const Formats: seq<string> := ["txt", "srt", "vtt"]

  /** The result dictionary: format and path, in insertion order. */
  type TranscriptSet = seq<(string, string)>

  /** One finished run of the transcription tool: what it printed and the files it wrote. */
  datatype WhisperRun = WhisperRun(returnCode: int, stderr: string, writes: FileSystem)

  /** `os.path.basename`: everything after the last '/'. */
  function Basename(path: string): string {
    path[LastIndexOf(path, '/') + 1..]
  }

  /**
   * `os.path.splitext(name)[0]` for a name without '/': the text before the
   * last '.', unless only dots precede that '.' (then nothing is cut).
   */
  function Stem(name: string): string {
    var dot := LastIndexOf(name, '.');
    if dot > 0 && !(forall i :: 0 <= i < dot ==> name[i] == '.') then name[..dot] else name
  }

  /**
   * The base name is the part of the path after its last '/': a suffix
   * without '/', preceded by a '/' whenever it is not the whole path.
   */
  lemma BasenameSpec(path: string)
    ensures var r := Basename(path);
      && '/' !in r
      && |r| <= |path| && path[|path| - |r|..] == r
      && (|r| < |path| ==> path[|path| - |r| - 1] == '/')
      && ('/' !in path ==> r == path)
  {
    AfterLastIndex(path, '/');
  }

  /**
   * The stem is a prefix of the name. What is cut off is a '.' followed by an
   * extension without dots, and the stem left is not made of dots only. The
   * name is cut at its last '.' exactly when a character other than '.'
   * comes before that '.'; otherwise it is kept whole.
   */
  lemma StemSpec(name: string)
    ensures var r := Stem(name);
      && StartsWith(name, r)
      && (r != name ==>
            && name[|r|] == '.' && '.' !in name[|r| + 1..]
            && exists i :: 0 <= i < |r| && r[i] != '.')
    ensures var dot := LastIndexOf(name, '.');
      && ((exists i :: 0 <= i < dot && name[i] != '.') ==> Stem(name) == name[..dot])
      && (!(exists i :: 0 <= i < dot && name[i] != '.') ==> Stem(name) == name)
  {
    var dot := LastIndexOf(name, '.');
    AfterLastIndex(name, '.');
    if dot > 0 && !(forall i :: 0 <= i < dot ==> name[i] == '.') {
      var i :| 0 <= i < dot && name[i] != '.';
      assert name[..dot][i] == name[i];
    }
  }

  /** `splitext` and `basename` on typical names. */
  lemma StemExamples()
    ensures Stem("abc.mp3") == "abc"
    ensures Stem("a.b.mp3") == "a.b"
    ensures Stem(".hidden") == ".hidden"
    ensures Stem("..mp3") == "..mp3"
    ensures Stem("noext") == "noext"
    ensures Basename("dir/sub/file.mp3") == "file.mp3"
  {
    LastIndexAt("abc.mp3", '.', 3);
    assert "abc.mp3"[0] != '.';
    LastIndexAt("a.b.mp3", '.', 3);
    assert "a.b.mp3"[0] != '.';
    LastIndexAt(".hidden", '.', 0);
    LastIndexAt("..mp3", '.', 1);
    AfterLastIndex("noext", '.');
    LastIndexAt("dir/sub/file.mp3", '/', 7);
  }

  function ExpectedPath(outputDir: string, stem: string, format: string): string {
    outputDir + "/" + stem + "." + format
  }

  /** `os.path.exists(path) and os.path.getsize(path) > 0`. */
  predicate Produced(fs: FileSystem, path: string) {
    path in fs && fs[path] > 0
  }

  /** The formats among `formats` whose file was produced, in order, with their paths. */
  function Verified(fs: FileSystem, outputDir: string, stem: string, formats: seq<string>): (files: TranscriptSet)
    ensures |files| <= |formats|
    decreases |formats|
  {
    if formats == [] then []
    else
      var earlier := Verified(fs, outputDir, stem, formats[..|formats| - 1]);
      var format := formats[|formats| - 1];
      var path := ExpectedPath(outputDir, stem, format);
      if Produced(fs, path) then earlier + [(format, path)] else earlier
  }

  /** The transcript set `transcribe_audio` returns for `audioPath` over the filesystem `fs`. */
  function TranscriptFiles(audioPath: string, outputDir: string, fs: FileSystem): TranscriptSet {
    Verified(fs, outputDir, Stem(Basename(audioPath)), Formats)
  }

  function Keys(files: TranscriptSet): seq<string> {
    seq(|files|, i requires 0 <= i < |files| => files[i].0)
  }

  /** The paths of a transcript set, in order. */
  function Paths(files: TranscriptSet): (paths: seq<string>)
    ensures |paths| == |files|
    ensures forall i :: 0 <= i < |files| ==> paths[i] == files[i].1
    decreases |files|
  {
    if files == [] then [] else Paths(files[..|files| - 1]) + [files[|files| - 1].1]
  }

  function Rank(format: string): nat {
    if format == "txt" then 0 else if format == "srt" then 1 else 2
  }

  /**
   * Runs the tool (its effect is the oracle's `writes`; its return code is
   * only logged) and then checks the three expected files in turn.
   */
  method TranscribeAudio(audioPath: string, outputDir: string, fs: FileSystem, run: WhisperRun)
    returns (created: TranscriptSet, fsAfter: FileSystem)
    ensures fsAfter == fs + run.writes
    ensures created == TranscriptFiles(audioPath, outputDir, fsAfter)
  {
    fsAfter := fs + run.writes;
    var baseFilename := Stem(Basename(audioPath));
    var transcriptFiles := [
      ("txt", ExpectedPath(outputDir, baseFilename, "txt")),
      ("srt", ExpectedPath(outputDir, baseFilename, "srt")),
      ("vtt", ExpectedPath(outputDir, baseFilename, "vtt"))];
    created := [];
    for i := 0 to |transcriptFiles|
      invariant created == Verified(fsAfter, outputDir, baseFilename, Formats[..i])
    {
      var (format, path) := transcriptFiles[i];
      assert Formats[..i + 1][..i] == Formats[..i];
      if path in fsAfter && fsAfter[path] > 0 {
        created := created + [(format, path)];
      }
    }
    assert Formats[..3] == Formats;
  }

  /** Every entry is one of `formats`, with its expected path, and its file was produced. */
  predicate WellFormedEntries(files: TranscriptSet, fs: FileSystem, outputDir: string, stem: string,
                              formats: seq<string>) {
    forall i :: 0 <= i < |files| ==>
      files[i].0 in formats && files[i].1 == ExpectedPath(outputDir, stem, files[i].0)
      && Produced(fs, files[i].1)
  }

  /** A format of `formats` is a key exactly when its file exists and is not empty. */
  predicate ExactKeys(files: TranscriptSet, fs: FileSystem, outputDir: string, stem: string,
                      formats: seq<string>) {
    forall format :: format in formats ==>
      (format in Keys(files) <==> Produced(fs, ExpectedPath(outputDir, stem, format)))
  }

  /** The keys keep the order txt, srt, vtt and come from the first `k` formats. */
  predicate InFormatOrder(files: TranscriptSet, k: nat) {
    (forall i :: 0 <= i < |files| ==> Rank(files[i].0) < k)
    && (forall i, j :: 0 <= i < j < |files| ==> Rank(files[i].0) < Rank(files[j].0))
  }

  lemma {:induction false} VerifiedEntries(fs: FileSystem, outputDir: string, stem: string, formats: seq<string>)
    ensures WellFormedEntries(Verified(fs, outputDir, stem, formats), fs, outputDir, stem, formats)
    decreases |formats|
  {
    if formats != [] {
      var init := formats[..|formats| - 1];
      VerifiedEntries(fs, outputDir, stem, init);
      assert forall f :: f in init ==> f in formats;
    }
  }

  lemma {:induction false} VerifiedKeys(fs: FileSystem, outputDir: string, stem: string, formats: seq<string>)
    ensures ExactKeys(Verified(fs, outputDir, stem, formats), fs, outputDir, stem, formats)
    decreases |formats|
  {
    if formats != [] {
      var init := formats[..|formats| - 1];
      var last := formats[|formats| - 1];
      assert formats == init + [last];
      VerifiedKeys(fs, outputDir, stem, init);
      VerifiedEntries(fs, outputDir, stem, init);
      var earlier := Verified(fs, outputDir, stem, init);
      var path := ExpectedPath(outputDir, stem, last);
      var files := Verified(fs, outputDir, stem, formats);
      if Produced(fs, path) {
        assert Keys(files) == Keys(earlier) + [last];
      } else {
        assert Keys(files) == Keys(earlier);
      }
      forall format | format in formats
        ensures format in Keys(files) <==> Produced(fs, ExpectedPath(outputDir, stem, format))
      {
        if format != last {
          assert format in init;
        }
      }
    }
  }

  lemma {:induction false} VerifiedOrder(fs: FileSystem, outputDir: string, stem: string, k: nat)
    requires k <= |Formats|
    ensures InFormatOrder(Verified(fs, outputDir, stem, Formats[..k]), k)
    decreases k
  {
    if k > 0 {
      assert Formats[..k][..k - 1] == Formats[..k - 1];
      VerifiedOrder(fs, outputDir, stem, k - 1);
      assert Formats[..k][k - 1] == Formats[k - 1];
      assert Rank(Formats[k - 1]) == k - 1;
    }
  }

  /**
   * The properties of the returned set: at most three entries, keys among
   * txt/srt/vtt, each path `<output_dir>/<stem>.<format>`, a key present
   * exactly when its file exists with a non-zero size, and the order txt,
   * srt, vtt.
   */
  lemma TranscriptFilesSpec(audioPath: string, outputDir: string, fs: FileSystem)
    ensures |TranscriptFiles(audioPath, outputDir, fs)| <= 3
    ensures WellFormedEntries(TranscriptFiles(audioPath, outputDir, fs), fs, outputDir,
                              Stem(Basename(audioPath)), Formats)
    ensures ExactKeys(TranscriptFiles(audioPath, outputDir, fs), fs, outputDir,
                      Stem(Basename(audioPath)), Formats)
    ensures InFormatOrder(TranscriptFiles(audioPath, outputDir, fs), 3)
  {
    var stem := Stem(Basename(audioPath));
    VerifiedEntries(fs, outputDir, stem, Formats);
    VerifiedKeys(fs, outputDir, stem, Formats);
    VerifiedOrder(fs, outputDir, stem, 3);
    assert Formats[..3] == Formats;
  }

  /** The stem of `<id>.mp3` is the id, for an id without '/' and not made of dots only. */
  lemma AudioStem(id: string)
    requires '/' !in id && exists i :: 0 <= i < |id| && id[i] != '.'
    ensures Stem(Basename(id + ".mp3")) == id
  {
    var name := id + ".mp3";
    assert forall i :: 0 <= i < |name| ==> name[i] != '/';
    assert Basename(name) == name;
    assert name[|id|] == '.';
    assert LastIndexOf(name, '.') == |id|;
    var i :| 0 <= i < |id| && id[i] != '.';
    assert name[i] != '.';
    assert name[..|id|] == id;
  }
}
