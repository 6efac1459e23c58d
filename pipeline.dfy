/**
 * `process_url_message`: every URL of a message, in order, is skipped when it
 * is not a YouTube link, and otherwise goes through fetching its details,
 * downloading its audio, transcribing it and sending the transcripts, with a
 * chat message at each stage. A stage that fails ends the handling of that
 * URL and the loop moves on; an exception inside a stage ends the whole
 * message. The tools' effects on the filesystem come from a per-URL oracle.
 */
module Pipeline {
  import opened Wrappers
  import opened JsonValue
  import opened Details
  import opened Events
  import opened Fetch
  import opened Transcribe
  import opened VideoId
  import opened Urls
  import Strings

  const OUTPUT_DIR := "transcriptions"

  /** What the audio downloader writes. Its return code is never looked at. */
  datatype DownloadRun = DownloadRun(writes: FileSystem)

  /** Everything the outside world does while one URL is handled. */
  datatype UrlWorld = UrlWorld(metadata: nat -> ToolRun, download: DownloadRun, whisper: WhisperRun)

  /** What handling one URL (or a whole message) did, where it left the files, and what escaped. */
  datatype Step = Step(events: seq<Event>, fs: FileSystem, raised: Option<Fault>)

  function AudioPath(id: string): string {
    id + ".mp3"
  }

  /** One `send_document` per transcript, in the order of the set. */
  function Documents(files: TranscriptSet): seq<Event>
    decreases |files|
  {
    if files == [] then []
    else Documents(files[..|files| - 1]) + [SendDocument(files[|files| - 1].1)]
  }

  /** From the transcription on, once the audio file exists in `fs`. */
  function AfterDownload(audio: string, fs: FileSystem, whisper: WhisperRun): Step {
    var fsAfter := fs + whisper.writes;
    var files := TranscriptFiles(audio, OUTPUT_DIR, fsAfter);
    var started := [SendMessage(Transcribing), RunTranscriber(audio, OUTPUT_DIR)];
    if files == [] then
      Step(started + [SendMessage(TranscriptionFailed), RemoveFile(audio)], fsAfter - {audio}, None)
    else
      Step(started + [SendMessage(SendingFiles)] + Documents(files)
             + [RemoveFile(audio), SendMessage(Closing)],
           fsAfter - {audio}, None)
  }

  /** From the title message on, once the details were fetched. */
  function AfterFetch(id: string, details: VideoDetails, fs: FileSystem, w: UrlWorld): Step {
    var audio := AudioPath(id);
    var fsAfter := fs + w.download.writes;
    var started := [SendMessage(TitleAndDownloading(details.title)), RunDownloader(CanonicalUrl(id), audio)];
    if audio !in fsAfter then
      Step(started + [SendMessage(DownloadFailed)], fsAfter, None)
    else
      var rest := AfterDownload(audio, fsAfter, w.whisper);
      Step(started + rest.events, rest.fs, rest.raised)
  }

  /** The metadata fetch for the canonical URL of `id`. */
  function FetchFor(id: string, w: UrlWorld, cfg: Config): (FetchOutcome, seq<Event>) {
    FetchFrom(CanonicalUrl(id), 0, MAX_RETRIES, BASE_DELAY, w.metadata, cfg)
  }

  /** What follows a match: the opening messages, the fetch, and the rest according to its outcome. */
  function HandleMatched(id: string, outcome: FetchOutcome, trace: seq<Event>, fs: FileSystem, w: UrlWorld): Step {
    var opening := [SendMessage(Processing), SendMessage(FetchingDetails)] + trace;
    match outcome
    case Raised(fault) => Step(opening, fs, Some(fault))
    case NoDetails => Step(opening + [SendMessage(DetailsFailed)], fs, None)
    case Fetched(details) => Then(opening, AfterFetch(id, details, fs, w))
  }

  /** The body of the loop in `process_url_message` for one URL. */
  function HandleUrl(url: string, fs: FileSystem, w: UrlWorld, cfg: Config): Step {
    match MatchYouTube(url)
    case None => Step([SendMessage(Skipping)], fs, None)
    case Some(id) =>
      var (outcome, trace) := FetchFor(id, w, cfg);
      HandleMatched(id, outcome, trace, fs, w)
  }

  /** The URLs from position `i` on, the world of the URL at position `k` being `worlds(k)`. */
  function RunFrom(urls: seq<string>, i: nat, fs: FileSystem, worlds: nat -> UrlWorld, cfg: Config): Step
    decreases |urls| - i
  {
    if i >= |urls| then Step([], fs, None)
    else
      var first := HandleUrl(urls[i], fs, worlds(i), cfg);
      if first.raised.Some? then first
      else Then(first.events, RunFrom(urls, i + 1, first.fs, worlds, cfg))
  }

  /** `prefix` followed by `st`. */
  function Then(prefix: seq<Event>, st: Step): Step {
    Step(prefix + st.events, st.fs, st.raised)
  }

  /** `process_url_message(message_text, ...)`. */
  function ProcessMessage(messageText: string, fs: FileSystem, worlds: nat -> UrlWorld, cfg: Config): Step {
    RunFrom(FindUrls(messageText), 0, fs, worlds, cfg)
  }

  // ---------------------------------------------------------------------
  // The imperative code.

  /** From "Transcribing audio..." to the closing message, once the audio exists. */
  method TranscribeAndSend(audioPath: string, fs: FileSystem, whisper: WhisperRun)
    returns (events: seq<Event>, fsAfter: FileSystem)
    ensures Step(events, fsAfter, None) == AfterDownload(audioPath, fs, whisper)
  {
    events := [SendMessage(Transcribing), RunTranscriber(audioPath, OUTPUT_DIR)];
    var transcriptionPaths;
    transcriptionPaths, fsAfter := TranscribeAudio(audioPath, OUTPUT_DIR, fs, whisper);
    ghost var started := events;
    if transcriptionPaths == [] {
      events := events + [SendMessage(TranscriptionFailed)];
      events := events + [RemoveFile(audioPath)];
      fsAfter := fsAfter - {audioPath};
      assert events == started + [SendMessage(TranscriptionFailed), RemoveFile(audioPath)];
      return;
    }
    events := events + [SendMessage(SendingFiles)];
    var sending := events;
    for i := 0 to |transcriptionPaths|
      invariant events == sending + Documents(transcriptionPaths[..i])
    {
      assert transcriptionPaths[..i + 1][..i] == transcriptionPaths[..i];
      events := events + [SendDocument(transcriptionPaths[i].1)];
    }
    assert transcriptionPaths[..|transcriptionPaths|] == transcriptionPaths;
    ghost var sent := events;
    events := events + [RemoveFile(audioPath)];
    fsAfter := fsAfter - {audioPath};
    events := events + [SendMessage(Closing)];
    assert events == sent + [RemoveFile(audioPath), SendMessage(Closing)];
  }

  /** From the title message on, once the details were fetched. */
  method DownloadAndTranscribe(videoId: string, details: VideoDetails, fs: FileSystem, w: UrlWorld)
    returns (events: seq<Event>, fsAfter: FileSystem)
    ensures Step(events, fsAfter, None) == AfterFetch(videoId, details, fs, w)
  {
    var title := details.title;
    var audioPath := AudioPath(videoId);
    events := [SendMessage(TitleAndDownloading(title)), RunDownloader(CanonicalUrl(videoId), audioPath)];
    fsAfter := fs + w.download.writes;
    if audioPath !in fsAfter {
      events := events + [SendMessage(DownloadFailed)];
      return;
    }
    var rest;
    rest, fsAfter := TranscribeAndSend(audioPath, fsAfter, w.whisper);
    events := events + rest;
  }

  method ProcessUrl(url: string, fs: FileSystem, w: UrlWorld, cfg: Config)
    returns (events: seq<Event>, fsAfter: FileSystem, raised: Option<Fault>)
    ensures Step(events, fsAfter, raised) == HandleUrl(url, fs, w, cfg)
  {
    fsAfter := fs;
    raised := None;
    if MatchYouTube(url).None? {
      events := [SendMessage(Skipping)];
      return;
    }
    events := [SendMessage(Processing)];
    var videoId := ExtractVideoId(url).value;
    var youtubeUrl := CanonicalUrl(videoId);
    events := events + [SendMessage(FetchingDetails)];
    var outcome, trace := FetchYoutubeDetails(youtubeUrl, MAX_RETRIES, BASE_DELAY, w.metadata, cfg);
    events := events + trace;
    assert events == [SendMessage(Processing), SendMessage(FetchingDetails)] + trace;
    if outcome.Raised? {
      raised := Some(outcome.fault);
      return;
    }
    if outcome.NoDetails? {
      events := events + [SendMessage(DetailsFailed)];
      return;
    }
    var rest;
    rest, fsAfter := DownloadAndTranscribe(videoId, outcome.details, fs, w);
    events := events + rest;
  }

  lemma RunFromStep(urls: seq<string>, i: nat, fs: FileSystem, worlds: nat -> UrlWorld, cfg: Config,
                    first: Step)
    requires i < |urls| && first == HandleUrl(urls[i], fs, worlds(i), cfg)
    ensures RunFrom(urls, i, fs, worlds, cfg)
      == if first.raised.Some? then first else Then(first.events, RunFrom(urls, i + 1, first.fs, worlds, cfg))
  {
  }

  lemma ThenThen(a: seq<Event>, b: seq<Event>, st: Step)
    ensures Then(a, Then(b, st)) == Then(a + b, st)
  {
    assert a + (b + st.events) == (a + b) + st.events;
  }

  method ProcessUrlMessage(messageText: string, fs0: FileSystem, worlds: nat -> UrlWorld, cfg: Config)
    returns (log: seq<Event>, fs: FileSystem, raised: Option<Fault>)
    ensures Step(log, fs, raised) == ProcessMessage(messageText, fs0, worlds, cfg)
  {
    var urls := FindUrls(messageText);
    log := [];
    fs := fs0;
    raised := None;
    var i := 0;
    assert [] + RunFrom(urls, 0, fs0, worlds, cfg).events == RunFrom(urls, 0, fs0, worlds, cfg).events;
    while i < |urls|
      invariant i <= |urls|
      invariant RunFrom(urls, 0, fs0, worlds, cfg) == Then(log, RunFrom(urls, i, fs, worlds, cfg))
    {
      var events, fsNext, fault := ProcessUrl(urls[i], fs, worlds(i), cfg);
      RunFromStep(urls, i, fs, worlds, cfg, Step(events, fsNext, fault));
      ThenThen(log, events, RunFrom(urls, i + 1, fsNext, worlds, cfg));
      log := log + events;
      fs := fsNext;
      if fault.Some? {
        raised := fault;
        return;
      }
      i := i + 1;
    }
    assert log + [] == log;
  }

  // ---------------------------------------------------------------------
  // What a requester and the host observe.

  /** The messages, documents, outside effects and removals of a trace. */
  predicate Shows(trace: seq<Event>, notices: seq<Notice>, sent: seq<string>, effects: seq<Event>, removals: nat) {
    Notices(trace) == notices && Sent(trace) == sent && Effects(trace) == effects && Removals(trace) == removals
  }

  lemma ShowsConcat(a: seq<Event>, b: seq<Event>,
                    n1: seq<Notice>, s1: seq<string>, e1: seq<Event>, r1: nat,
                    n2: seq<Notice>, s2: seq<string>, e2: seq<Event>, r2: nat)
    requires Shows(a, n1, s1, e1, r1) && Shows(b, n2, s2, e2, r2)
    ensures Shows(a + b, n1 + n2, s1 + s2, e1 + e2, r1 + r2)
  {
    ObserveConcat(a, b);
  }

  lemma ShowsMessage(n: Notice)
    ensures Shows([SendMessage(n)], [n], [], [], 0)
  {
    ObserveOne(SendMessage(n));
  }

  lemma ShowsEffect(e: Event)
    requires !e.SendMessage? && !e.SendDocument?
    ensures Shows([e], [], [], [e], if e.RemoveFile? then 1 else 0)
  {
    ObserveOne(e);
  }

  /** `trace` ends with `suffix`. */
  predicate EndsWith(trace: seq<Event>, suffix: seq<Event>) {
    |suffix| <= |trace| && trace[|trace| - |suffix|..] == suffix
  }

  lemma EndsWithConcat(a: seq<Event>, b: seq<Event>, suffix: seq<Event>)
    requires EndsWith(b, suffix)
    ensures EndsWith(a + b, suffix)
  {
    assert (a + b)[|a + b| - |suffix|..] == b[|b| - |suffix|..];
  }

  lemma {:induction false} DocumentsObserved(files: TranscriptSet)
    ensures Shows(Documents(files), [], Paths(files), [], 0)
    decreases |files|
  {
    if files != [] {
      var init := files[..|files| - 1];
      var last := SendDocument(files[|files| - 1].1);
      DocumentsObserved(init);
      ObserveOne(last);
      ObserveConcat(Documents(init), [last]);
      assert Paths(files) == Paths(init) + [last.path];
    }
  }

  /** No transcript path is the audio path: the one ends in ".mp3", the others in "t". */
  lemma TranscriptsAreNotAudio(id: string, fs: FileSystem)
    ensures var files := TranscriptFiles(AudioPath(id), OUTPUT_DIR, fs);
      forall i :: 0 <= i < |files| ==> files[i].1 != AudioPath(id) && Produced(fs, files[i].1)
  {
    var files := TranscriptFiles(AudioPath(id), OUTPUT_DIR, fs);
    var stem := Stem(Basename(AudioPath(id)));
    TranscriptFilesSpec(AudioPath(id), OUTPUT_DIR, fs);
    forall i | 0 <= i < |files|
      ensures files[i].1 != AudioPath(id)
    {
      var path := ExpectedPath(OUTPUT_DIR, stem, files[i].0);
      assert files[i].1 == path;
      assert files[i].0 in Formats;
      assert path[|path| - 1] == files[i].0[|files[i].0| - 1] == 't';
      assert AudioPath(id)[|id| + 3] == ".mp3"[3];
    }
  }

  lemma NothingTranscribedObserved(audio: string, fs: FileSystem, whisper: WhisperRun)
    requires TranscriptFiles(audio, OUTPUT_DIR, fs + whisper.writes) == []
    ensures var st := AfterDownload(audio, fs, whisper);
      && Shows(st.events, [Transcribing, TranscriptionFailed], [],
               [RunTranscriber(audio, OUTPUT_DIR), RemoveFile(audio)], 1)
      && EndsWith(st.events, [SendMessage(TranscriptionFailed), RemoveFile(audio)])
  {
    FailedTraceObserved(audio);
  }

  /** The trace of a transcription that produced nothing. */
  lemma FailedTraceObserved(audio: string)
    ensures var trace := [SendMessage(Transcribing), RunTranscriber(audio, OUTPUT_DIR)]
                         + [SendMessage(TranscriptionFailed), RemoveFile(audio)];
      && Shows(trace, [Transcribing, TranscriptionFailed], [],
               [RunTranscriber(audio, OUTPUT_DIR), RemoveFile(audio)], 1)
      && EndsWith(trace, [SendMessage(TranscriptionFailed), RemoveFile(audio)])
  {
    var ending := [SendMessage(TranscriptionFailed), RemoveFile(audio)];
    StartedObserved(audio);
    ShowsMessage(TranscriptionFailed);
    ShowsEffect(RemoveFile(audio));
    ShowsConcat([SendMessage(TranscriptionFailed)], [RemoveFile(audio)],
                [TranscriptionFailed], [], [], 0, [], [], [RemoveFile(audio)], 1);
    assert ending == [SendMessage(TranscriptionFailed)] + [RemoveFile(audio)];
    ShowsConcat([SendMessage(Transcribing), RunTranscriber(audio, OUTPUT_DIR)], ending,
                [Transcribing], [], [RunTranscriber(audio, OUTPUT_DIR)], 0,
                [TranscriptionFailed], [], [RemoveFile(audio)], 1);
    EndsWithConcat([SendMessage(Transcribing), RunTranscriber(audio, OUTPUT_DIR)], ending, ending);
  }

  lemma StartedObserved(audio: string)
    ensures Shows([SendMessage(Transcribing), RunTranscriber(audio, OUTPUT_DIR)],
                  [Transcribing], [], [RunTranscriber(audio, OUTPUT_DIR)], 0)
  {
    ShowsMessage(Transcribing);
    ShowsEffect(RunTranscriber(audio, OUTPUT_DIR));
    ShowsConcat([SendMessage(Transcribing)], [RunTranscriber(audio, OUTPUT_DIR)],
                [Transcribing], [], [], 0, [], [], [RunTranscriber(audio, OUTPUT_DIR)], 0);
    assert [SendMessage(Transcribing), RunTranscriber(audio, OUTPUT_DIR)]
      == [SendMessage(Transcribing)] + [RunTranscriber(audio, OUTPUT_DIR)];
  }

  lemma ClosingObserved(audio: string)
    ensures Shows([RemoveFile(audio), SendMessage(Closing)], [Closing], [], [RemoveFile(audio)], 1)
  {
    ShowsEffect(RemoveFile(audio));
    ShowsMessage(Closing);
    ShowsConcat([RemoveFile(audio)], [SendMessage(Closing)],
                [], [], [RemoveFile(audio)], 1, [Closing], [], [], 0);
    assert [RemoveFile(audio), SendMessage(Closing)] == [RemoveFile(audio)] + [SendMessage(Closing)];
  }

  lemma SendingObserved(audio: string, files: TranscriptSet)
    ensures Shows([SendMessage(Transcribing), RunTranscriber(audio, OUTPUT_DIR)]
                    + [SendMessage(SendingFiles)] + Documents(files),
                  [Transcribing, SendingFiles], Paths(files), [RunTranscriber(audio, OUTPUT_DIR)], 0)
  {
    var started := [SendMessage(Transcribing), RunTranscriber(audio, OUTPUT_DIR)];
    StartedObserved(audio);
    ShowsMessage(SendingFiles);
    ShowsConcat(started, [SendMessage(SendingFiles)],
                [Transcribing], [], [RunTranscriber(audio, OUTPUT_DIR)], 0, [SendingFiles], [], [], 0);
    DocumentsObserved(files);
    ShowsConcat(started + [SendMessage(SendingFiles)], Documents(files),
                [Transcribing, SendingFiles], [], [RunTranscriber(audio, OUTPUT_DIR)], 0,
                [], Paths(files), [], 0);
  }

  lemma DeliveredObserved(audio: string, fs: FileSystem, whisper: WhisperRun)
    requires TranscriptFiles(audio, OUTPUT_DIR, fs + whisper.writes) != []
    ensures var st := AfterDownload(audio, fs, whisper);
      var files := TranscriptFiles(audio, OUTPUT_DIR, fs + whisper.writes);
      && Shows(st.events, [Transcribing, SendingFiles, Closing], Paths(files),
               [RunTranscriber(audio, OUTPUT_DIR), RemoveFile(audio)], 1)
      && EndsWith(st.events, [RemoveFile(audio), SendMessage(Closing)])
  {
    var files := TranscriptFiles(audio, OUTPUT_DIR, fs + whisper.writes);
    var body := [SendMessage(Transcribing), RunTranscriber(audio, OUTPUT_DIR)]
                  + [SendMessage(SendingFiles)] + Documents(files);
    var ending := [RemoveFile(audio), SendMessage(Closing)];
    SendingObserved(audio, files);
    ClosingObserved(audio);
    ShowsConcat(body, ending,
                [Transcribing, SendingFiles], Paths(files), [RunTranscriber(audio, OUTPUT_DIR)], 0,
                [Closing], [], [RemoveFile(audio)], 1);
    EndsWithConcat(body, ending, ending);
  }

  /** After the transcription stage the audio is gone and every transcript it reported is still there. */
  lemma AfterDownloadFiles(id: string, fs: FileSystem, whisper: WhisperRun)
    ensures var st := AfterDownload(AudioPath(id), fs, whisper);
      var files := TranscriptFiles(AudioPath(id), OUTPUT_DIR, fs + whisper.writes);
      && st.raised == None && AudioPath(id) !in st.fs
      && (forall i :: 0 <= i < |files| ==> Produced(st.fs, files[i].1))
  {
    TranscriptsAreNotAudio(id, fs + whisper.writes);
  }

  lemma AudioMissingObserved(id: string, details: VideoDetails, fs: FileSystem, w: UrlWorld)
    requires AudioPath(id) !in fs + w.download.writes
    ensures var st := AfterFetch(id, details, fs, w);
      && Shows(st.events, [TitleAndDownloading(details.title), DownloadFailed], [],
               [RunDownloader(CanonicalUrl(id), AudioPath(id))], 0)
      && st.fs == fs + w.download.writes && st.raised == None
  {
    var title := SendMessage(TitleAndDownloading(details.title));
    var download := RunDownloader(CanonicalUrl(id), AudioPath(id));
    ShowsMessage(TitleAndDownloading(details.title));
    ShowsEffect(download);
    ShowsConcat([title], [download], [TitleAndDownloading(details.title)], [], [], 0, [], [], [download], 0);
    ShowsMessage(DownloadFailed);
    ShowsConcat([title] + [download], [SendMessage(DownloadFailed)],
                [TitleAndDownloading(details.title)], [], [download], 0, [DownloadFailed], [], [], 0);
    assert [title, download] + [SendMessage(DownloadFailed)] == [title] + [download] + [SendMessage(DownloadFailed)];
  }

  /**
   * `st` is `rest` with `notices` and `effects` in front of what it shows:
   * the same documents, removals and files, and every ending of `rest` is one of `st`.
   */
  ghost predicate Extends(st: Step, rest: Step, notices: seq<Notice>, effects: seq<Event>) {
    && Notices(st.events) == notices + Notices(rest.events)
    && Sent(st.events) == Sent(rest.events)
    && Effects(st.events) == effects + Effects(rest.events)
    && Removals(st.events) == Removals(rest.events)
    && st.fs == rest.fs && st.raised == rest.raised
    && (forall suffix :: EndsWith(rest.events, suffix) ==> EndsWith(st.events, suffix))
  }

  lemma DownloadedObserved(id: string, details: VideoDetails, fs: FileSystem, w: UrlWorld)
    requires AudioPath(id) in fs + w.download.writes
    ensures Extends(AfterFetch(id, details, fs, w), AfterDownload(AudioPath(id), fs + w.download.writes, w.whisper),
                    [TitleAndDownloading(details.title)], [RunDownloader(CanonicalUrl(id), AudioPath(id))])
  {
    var title := SendMessage(TitleAndDownloading(details.title));
    var download := RunDownloader(CanonicalUrl(id), AudioPath(id));
    var rest := AfterDownload(AudioPath(id), fs + w.download.writes, w.whisper);
    assert AfterFetch(id, details, fs, w) == Then([title, download], rest);
    OpenedBy(TitleAndDownloading(details.title), download, rest.events);
  }

  /** Putting a trace in front keeps an extension, adding what that trace shows. */
  lemma ExtendsThen(opening: seq<Event>, n0: seq<Notice>, e0: seq<Event>,
                    after: Step, rest: Step, notices: seq<Notice>, effects: seq<Event>)
    requires Shows(opening, n0, [], e0, 0) && Extends(after, rest, notices, effects)
    ensures Extends(Then(opening, after), rest, n0 + notices, e0 + effects)
  {
    Stacked(opening, after.events);
    assert n0 + (notices + Notices(rest.events)) == n0 + notices + Notices(rest.events);
    assert e0 + (effects + Effects(rest.events)) == e0 + effects + Effects(rest.events);
  }

  /** A trace opened by one message and one effect outside the chat. */
  lemma OpenedBy(n: Notice, e: Event, rest: seq<Event>)
    requires !e.SendMessage? && !e.SendDocument? && !e.RemoveFile?
    ensures var trace := [SendMessage(n), e] + rest;
      && Notices(trace) == [n] + Notices(rest)
      && Sent(trace) == Sent(rest)
      && Effects(trace) == [e] + Effects(rest)
      && Removals(trace) == Removals(rest)
      && (forall suffix :: EndsWith(rest, suffix) ==> EndsWith(trace, suffix))
  {
    var opening := [SendMessage(n), e];
    ShowsMessage(n);
    ShowsEffect(e);
    ShowsConcat([SendMessage(n)], [e], [n], [], [], 0, [], [], [e], 0);
    assert opening == [SendMessage(n)] + [e];
    ObserveConcat(opening, rest);
    forall suffix | EndsWith(rest, suffix)
      ensures EndsWith(opening + rest, suffix)
    {
      EndsWithConcat(opening, rest, suffix);
    }
  }

  /** A fetch trace shows nothing in the chat and consists of its own effects. */
  lemma {:induction false} FetchTraceObserved(url: string, trace: seq<Event>)
    requires OnlyFetchEvents(url, trace)
    ensures Shows(trace, [], [], trace, 0)
    decreases |trace|
  {
    if trace != [] {
      assert OnlyFetchEvents(url, trace[1..]) by {
        forall i | 0 <= i < |trace[1..]|
          ensures trace[1..][i] == RunMetadataTool(url) || trace[1..][i].Sleep?
        {
          assert trace[1..][i] == trace[i + 1];
        }
      }
      FetchTraceObserved(url, trace[1..]);
      ShowsEffect(trace[0]);
      ShowsConcat([trace[0]], trace[1..], [], [], [trace[0]], 0, [], [], trace[1..], 0);
      assert [trace[0]] + trace[1..] == trace;
    }
  }

  /** How the handling of a matched URL ended, computed from the outside world alone. */
  datatype Ending =
    | Aborted(fault: Fault)
    | DetailsMissing
    | AudioMissing(title: Json)
    | NothingTranscribed(title: Json)
    | Delivered(title: Json, files: TranscriptSet)

  function EndingOf(id: string, outcome: FetchOutcome, fs: FileSystem, w: UrlWorld): Ending {
    match outcome
    case Raised(fault) => Aborted(fault)
    case NoDetails => DetailsMissing
    case Fetched(details) =>
      var downloaded := fs + w.download.writes;
      if AudioPath(id) !in downloaded then AudioMissing(details.title)
      else
        var files := TranscriptFiles(AudioPath(id), OUTPUT_DIR, downloaded + w.whisper.writes);
        if files == [] then NothingTranscribed(details.title) else Delivered(details.title, files)
  }

  /** The opening messages and the fetch: two messages, then only metadata launches and sleeps. */
  lemma OpeningObserved(id: string, trace: seq<Event>)
    requires OnlyFetchEvents(CanonicalUrl(id), trace)
    ensures Shows([SendMessage(Processing), SendMessage(FetchingDetails)] + trace,
                  [Processing, FetchingDetails], [], trace, 0)
  {
    FetchTraceObserved(CanonicalUrl(id), trace);
    ShowsMessage(Processing);
    ShowsMessage(FetchingDetails);
    ShowsConcat([SendMessage(Processing)], [SendMessage(FetchingDetails)],
                [Processing], [], [], 0, [FetchingDetails], [], [], 0);
    assert [SendMessage(Processing), SendMessage(FetchingDetails)]
      == [SendMessage(Processing)] + [SendMessage(FetchingDetails)];
    ShowsConcat([SendMessage(Processing), SendMessage(FetchingDetails)], trace,
                [Processing, FetchingDetails], [], [], 0, [], [], trace, 0);
  }

  lemma StoppedEarlyObserved(id: string, outcome: FetchOutcome, trace: seq<Event>, fs: FileSystem, w: UrlWorld)
    requires OnlyFetchEvents(CanonicalUrl(id), trace) && !outcome.Fetched?
    ensures var st := HandleMatched(id, outcome, trace, fs, w);
      && st.fs == fs
      && (outcome.Raised? ==>
            Shows(st.events, [Processing, FetchingDetails], [], trace, 0) && st.raised == Some(outcome.fault))
      && (outcome.NoDetails? ==>
            Shows(st.events, [Processing, FetchingDetails, DetailsFailed], [], trace, 0) && st.raised == None)
  {
    var opening := [SendMessage(Processing), SendMessage(FetchingDetails)] + trace;
    OpeningObserved(id, trace);
    ShowsMessage(DetailsFailed);
    ShowsConcat(opening, [SendMessage(DetailsFailed)],
                [Processing, FetchingDetails], [], trace, 0, [DetailsFailed], [], [], 0);
  }

  lemma AudioMissingAfterMatch(id: string, details: VideoDetails, trace: seq<Event>, fs: FileSystem, w: UrlWorld)
    requires OnlyFetchEvents(CanonicalUrl(id), trace) && AudioPath(id) !in fs + w.download.writes
    ensures var st := HandleMatched(id, Fetched(details), trace, fs, w);
      && Shows(st.events, [Processing, FetchingDetails, TitleAndDownloading(details.title), DownloadFailed], [],
               trace + [RunDownloader(CanonicalUrl(id), AudioPath(id))], 0)
      && st.fs == fs + w.download.writes && st.raised == None
  {
    var opening := [SendMessage(Processing), SendMessage(FetchingDetails)] + trace;
    OpeningObserved(id, trace);
    AudioMissingObserved(id, details, fs, w);
    ShowsConcat(opening, AfterFetch(id, details, fs, w).events, [Processing, FetchingDetails], [], trace, 0,
                [TitleAndDownloading(details.title), DownloadFailed], [],
                [RunDownloader(CanonicalUrl(id), AudioPath(id))], 0);
  }

  lemma TranscribedAfterMatch(id: string, details: VideoDetails, trace: seq<Event>, fs: FileSystem, w: UrlWorld)
    requires OnlyFetchEvents(CanonicalUrl(id), trace) && AudioPath(id) in fs + w.download.writes
    ensures Extends(Then([SendMessage(Processing), SendMessage(FetchingDetails)] + trace, AfterFetch(id, details, fs, w)),
                    AfterDownload(AudioPath(id), fs + w.download.writes, w.whisper),
                    [Processing, FetchingDetails, TitleAndDownloading(details.title)],
                    trace + [RunDownloader(CanonicalUrl(id), AudioPath(id))])
  {
    var opening := [SendMessage(Processing), SendMessage(FetchingDetails)] + trace;
    var after := AfterFetch(id, details, fs, w);
    var rest := AfterDownload(AudioPath(id), fs + w.download.writes, w.whisper);
    OpeningObserved(id, trace);
    DownloadedObserved(id, details, fs, w);
    ExtendsThen(opening, [Processing, FetchingDetails], trace, after, rest,
                [TitleAndDownloading(details.title)], [RunDownloader(CanonicalUrl(id), AudioPath(id))]);
  }

  /** The observations of `a + b`, and every ending of `b` is one of `a + b`. */
  lemma Stacked(a: seq<Event>, b: seq<Event>)
    ensures Notices(a + b) == Notices(a) + Notices(b)
    ensures Sent(a + b) == Sent(a) + Sent(b)
    ensures Removals(a + b) == Removals(a) + Removals(b)
    ensures Effects(a + b) == Effects(a) + Effects(b)
    ensures forall suffix :: EndsWith(b, suffix) ==> EndsWith(a + b, suffix)
  {
    ObserveConcat(a, b);
    forall suffix | EndsWith(b, suffix)
      ensures EndsWith(a + b, suffix)
    {
      EndsWithConcat(a, b, suffix);
    }
  }

  lemma TranscriptionAfterMatch(id: string, details: VideoDetails, trace: seq<Event>, fs: FileSystem, w: UrlWorld)
    requires OnlyFetchEvents(CanonicalUrl(id), trace) && AudioPath(id) in fs + w.download.writes
    ensures var st := Then([SendMessage(Processing), SendMessage(FetchingDetails)] + trace, AfterFetch(id, details, fs, w));
      var audio := AudioPath(id);
      var files := TranscriptFiles(audio, OUTPUT_DIR, fs + w.download.writes + w.whisper.writes);
      var effects := trace + [RunDownloader(CanonicalUrl(id), audio), RunTranscriber(audio, OUTPUT_DIR),
                              RemoveFile(audio)];
      && st.raised == None && audio !in st.fs
      && (forall i :: 0 <= i < |files| ==> Produced(st.fs, files[i].1))
      && (files == [] ==>
            && Shows(st.events, [Processing, FetchingDetails, TitleAndDownloading(details.title), Transcribing,
                                 TranscriptionFailed], [], effects, 1)
            && EndsWith(st.events, [SendMessage(TranscriptionFailed), RemoveFile(audio)]))
      && (files != [] ==>
            && Shows(st.events, [Processing, FetchingDetails, TitleAndDownloading(details.title), Transcribing,
                                 SendingFiles, Closing], Paths(files), effects, 1)
            && EndsWith(st.events, [RemoveFile(audio), SendMessage(Closing)]))
  {
    var audio := AudioPath(id);
    var downloaded := fs + w.download.writes;
    var files := TranscriptFiles(audio, OUTPUT_DIR, downloaded + w.whisper.writes);
    var download := RunDownloader(CanonicalUrl(id), audio);
    TranscribedAfterMatch(id, details, trace, fs, w);
    AfterDownloadFiles(id, downloaded, w.whisper);
    assert trace + [download] + [RunTranscriber(audio, OUTPUT_DIR), RemoveFile(audio)]
      == trace + [download, RunTranscriber(audio, OUTPUT_DIR), RemoveFile(audio)];
    if files == [] {
      NothingTranscribedObserved(audio, downloaded, w.whisper);
    } else {
      DeliveredObserved(audio, downloaded, w.whisper);
    }
  }

  /**
   * The observable behaviour of a matched URL in each way it can end: the
   * chat messages, the documents, the launches, sleeps and removals, the
   * files left behind, and whether an exception escaped.
   */
  lemma HandleMatchedObserved(id: string, outcome: FetchOutcome, trace: seq<Event>, fs: FileSystem, w: UrlWorld)
    requires OnlyFetchEvents(CanonicalUrl(id), trace)
    ensures var st := HandleMatched(id, outcome, trace, fs, w);
      var e := EndingOf(id, outcome, fs, w);
      var audio := AudioPath(id);
      var download := RunDownloader(CanonicalUrl(id), audio);
      var effects := trace + [download, RunTranscriber(audio, OUTPUT_DIR), RemoveFile(audio)];
      && Removals(st.events) <= 1
      && (st.raised.Some? <==> e.Aborted?)
      && (e.Aborted? ==>
            && Shows(st.events, [Processing, FetchingDetails], [], trace, 0)
            && st.fs == fs && st.raised == Some(e.fault))
      && (e.DetailsMissing? ==>
            && Shows(st.events, [Processing, FetchingDetails, DetailsFailed], [], trace, 0)
            && st.fs == fs)
      && (e.AudioMissing? ==>
            && Shows(st.events, [Processing, FetchingDetails, TitleAndDownloading(e.title), DownloadFailed],
                     [], trace + [download], 0)
            && st.fs == fs + w.download.writes)
      && (e.NothingTranscribed? ==>
            && Shows(st.events, [Processing, FetchingDetails, TitleAndDownloading(e.title), Transcribing,
                                 TranscriptionFailed], [], effects, 1)
            && EndsWith(st.events, [SendMessage(TranscriptionFailed), RemoveFile(audio)])
            && audio !in st.fs)
      && (e.Delivered? ==>
            && Shows(st.events, [Processing, FetchingDetails, TitleAndDownloading(e.title), Transcribing,
                                 SendingFiles, Closing], Paths(e.files), effects, 1)
            && EndsWith(st.events, [RemoveFile(audio), SendMessage(Closing)])
            && audio !in st.fs
            && (forall i :: 0 <= i < |e.files| ==> Produced(st.fs, e.files[i].1)))
  {
    match outcome
    case Fetched(details) =>
      if AudioPath(id) !in fs + w.download.writes {
        AudioMissingAfterMatch(id, details, trace, fs, w);
      } else {
        TranscriptionAfterMatch(id, details, trace, fs, w);
      }
    case _ =>
      StoppedEarlyObserved(id, outcome, trace, fs, w);
  }

  /** A URL that is not a YouTube link only gets the skip message; a matched one goes on with its canonical URL. */
  lemma HandleUrlObserved(url: string, fs: FileSystem, w: UrlWorld, cfg: Config)
    ensures MatchYouTube(url).None? ==> HandleUrl(url, fs, w, cfg) == Step([SendMessage(Skipping)], fs, None)
    ensures MatchYouTube(url).Some? ==>
      var id := MatchYouTube(url).value;
      && IsVideoId(id)
      && OnlyFetchEvents(CanonicalUrl(id), FetchFor(id, w, cfg).1)
      && HandleUrl(url, fs, w, cfg) == HandleMatched(id, FetchFor(id, w, cfg).0, FetchFor(id, w, cfg).1, fs, w)
    ensures Removals(HandleUrl(url, fs, w, cfg).events) <= 1
  {
    if MatchYouTube(url).Some? {
      var id := MatchYouTube(url).value;
      IdOfMatch(url);
      FetchEventsKinds(CanonicalUrl(id), 0, MAX_RETRIES, BASE_DELAY, w.metadata, cfg);
      HandleMatchedObserved(id, FetchFor(id, w, cfg).0, FetchFor(id, w, cfg).1, fs, w);
    } else {
      ObserveOne(SendMessage(Skipping));
    }
  }

  // ---------------------------------------------------------------------
  // A whole message.

  /** The audio is removed at most once per URL of the message. */
  lemma {:induction false} RunFromRemovals(urls: seq<string>, i: nat, fs: FileSystem,
                                           worlds: nat -> UrlWorld, cfg: Config)
    requires i <= |urls|
    ensures Removals(RunFrom(urls, i, fs, worlds, cfg).events) <= |urls| - i
    decreases |urls| - i
  {
    if i < |urls| {
      var first := HandleUrl(urls[i], fs, worlds(i), cfg);
      HandleUrlObserved(urls[i], fs, worlds(i), cfg);
      if first.raised.None? {
        RunFromRemovals(urls, i + 1, first.fs, worlds, cfg);
        RemovalsConcat(first.events, RunFrom(urls, i + 1, first.fs, worlds, cfg).events);
      }
    }
  }

  predicate AllSkips(events: seq<Event>) {
    forall k :: 0 <= k < |events| ==> events[k] == SendMessage(Skipping)
  }

  /** A message without YouTube links gets one skip message per URL and nothing else. */
  lemma {:induction false} RunAllSkipped(urls: seq<string>, i: nat, fs: FileSystem,
                                         worlds: nat -> UrlWorld, cfg: Config)
    requires i <= |urls| && forall j :: i <= j < |urls| ==> MatchYouTube(urls[j]).None?
    ensures RunFrom(urls, i, fs, worlds, cfg).fs == fs
    ensures RunFrom(urls, i, fs, worlds, cfg).raised == None
    ensures |RunFrom(urls, i, fs, worlds, cfg).events| == |urls| - i
    ensures AllSkips(RunFrom(urls, i, fs, worlds, cfg).events)
    decreases |urls| - i
  {
    if i < |urls| {
      HandleUrlObserved(urls[i], fs, worlds(i), cfg);
      RunAllSkipped(urls, i + 1, fs, worlds, cfg);
      var rest := RunFrom(urls, i + 1, fs, worlds, cfg).events;
      assert RunFrom(urls, i, fs, worlds, cfg).events == [SendMessage(Skipping)] + rest;
    }
  }

  lemma CanonicalIsToken(id: string)
    requires NoSpace(id) && |id| >= 1
    ensures IsUrlToken(CanonicalUrl(id))
  {
    var prefix := "https://www.youtube.com/watch?v=";
    forall i | 0 <= i < |prefix|
      ensures !IsSpace(prefix[i])
    {
      assert '!' <= prefix[i] <= '~';
    }
    NoSpaceConcat(prefix, id);
    assert CanonicalUrl(id)[..8] == "https://";
  }

  /** A message in which exactly one URL is found is handled as that URL, with the first outside world. */
  lemma FoundOneUrl(messageText: string, url: string, fs: FileSystem, worlds: nat -> UrlWorld, cfg: Config)
    requires FindUrls(messageText) == [url]
    ensures ProcessMessage(messageText, fs, worlds, cfg) == HandleUrl(url, fs, worlds(0), cfg)
  {
    var urls := [url];
    var first := HandleUrl(url, fs, worlds(0), cfg);
    RunFromStep(urls, 0, fs, worlds, cfg, first);
    assert RunFrom(urls, 1, first.fs, worlds, cfg) == Step([], first.fs, None);
    assert first.events + [] == first.events;
  }

  /** A message that is one URL is handled as that URL, with the first outside world. */
  lemma OneUrlMessage(url: string, fs: FileSystem, worlds: nat -> UrlWorld, cfg: Config)
    requires IsUrlToken(url)
    ensures ProcessMessage(url, fs, worlds, cfg) == HandleUrl(url, fs, worlds(0), cfg)
  {
    FindSingle(url);
    FoundOneUrl(url, url, fs, worlds, cfg);
  }

  lemma MatchedUrl(url: string, id: string, fs: FileSystem, w: UrlWorld, cfg: Config)
    requires MatchYouTube(url) == Some(id)
    ensures HandleUrl(url, fs, w, cfg) == HandleMatched(id, FetchFor(id, w, cfg).0, FetchFor(id, w, cfg).1, fs, w)
  {
    HandleUrlObserved(url, fs, w, cfg);
  }

  /** A message that is just a canonical watch link is handled as that one video. */
  lemma OneLinkMessage(id: string, fs: FileSystem, worlds: nat -> UrlWorld, cfg: Config)
    requires IsVideoId(id) && NoSpace(id)
    ensures ProcessMessage(CanonicalUrl(id), fs, worlds, cfg)
      == HandleMatched(id, FetchFor(id, worlds(0), cfg).0, FetchFor(id, worlds(0), cfg).1, fs, worlds(0))
  {
    CanonicalIsToken(id);
    OneUrlMessage(CanonicalUrl(id), fs, worlds, cfg);
    CanonicalRoundTrip(id);
    MatchedUrl(CanonicalUrl(id), id, fs, worlds(0), cfg);
  }

  /** Two URLs with whitespace between them are handled in order, with the outside worlds 0 and 1. */
  lemma TwoUrlMessage(first: string, c: char, second: string, fs: FileSystem, worlds: nat -> UrlWorld, cfg: Config)
    requires IsUrlToken(first) && IsUrlToken(second) && IsSpace(c)
    ensures var one := HandleUrl(first, fs, worlds(0), cfg);
      ProcessMessage(first + [c] + second, fs, worlds, cfg)
        == if one.raised.Some? then one else Then(one.events, HandleUrl(second, one.fs, worlds(1), cfg))
  {
    FindSeparated(first, c, second);
    FindSingle(first);
    FindSingle(second);
    var urls := [first, second];
    assert FindUrls(first + [c] + second) == urls;
    var one := HandleUrl(first, fs, worlds(0), cfg);
    RunFromStep(urls, 0, fs, worlds, cfg, one);
    if one.raised.None? {
      var two := HandleUrl(second, one.fs, worlds(1), cfg);
      RunFromStep(urls, 1, one.fs, worlds, cfg, two);
      assert RunFrom(urls, 2, two.fs, worlds, cfg) == Step([], two.fs, None);
      assert two.events + [] == two.events;
    }
  }

  /**
   * A message holding a link that is not a YouTube one, whitespace, and then a
   * canonical watch link: the skip message, then that video, whose outside
   * world is the second one.
   */
  lemma SkipThenLink(other: string, c: char, id: string, fs: FileSystem, worlds: nat -> UrlWorld, cfg: Config)
    requires IsUrlToken(other) && MatchYouTube(other).None? && IsSpace(c)
    requires IsVideoId(id) && NoSpace(id)
    ensures ProcessMessage(other + [c] + CanonicalUrl(id), fs, worlds, cfg)
      == Then([SendMessage(Skipping)],
              HandleMatched(id, FetchFor(id, worlds(1), cfg).0, FetchFor(id, worlds(1), cfg).1, fs, worlds(1)))
  {
    CanonicalIsToken(id);
    TwoUrlMessage(other, c, CanonicalUrl(id), fs, worlds, cfg);
    HandleUrlObserved(other, fs, worlds(0), cfg);
    CanonicalRoundTrip(id);
    MatchedUrl(CanonicalUrl(id), id, fs, worlds(1), cfg);
  }

  lemma ShortLinkIsToken(id: string)
    requires NoSpace(id) && |id| >= 1
    ensures IsUrlToken("https://youtu.be/" + id)
  {
    var prefix := "https://youtu.be/";
    forall i | 0 <= i < |prefix|
      ensures !IsSpace(prefix[i])
    {
      assert '!' <= prefix[i] <= '~';
    }
    NoSpaceConcat(prefix, id);
    assert (prefix + id)[..8] == "https://";
  }

  /**
   * Words without a URL, whitespace and a short link `https://youtu.be/<id>`:
   * the message is handled as that one video, fetched through its canonical URL.
   */
  lemma WordsThenShortLink(words: string, c: char, id: string, fs: FileSystem, worlds: nat -> UrlWorld,
                           cfg: Config)
    requires NoScheme(words) && IsSpace(c) && IsVideoId(id) && NoSpace(id)
    ensures ProcessMessage(words + [c] + ("https://youtu.be/" + id), fs, worlds, cfg)
      == HandleMatched(id, FetchFor(id, worlds(0), cfg).0, FetchFor(id, worlds(0), cfg).1, fs, worlds(0))
  {
    var link := "https://youtu.be/" + id;
    ShortLinkIsToken(id);
    WordsThenUrl(words, c, link);
    FoundOneUrl(words + [c] + link, link, fs, worlds, cfg);
    ShortLinkRoundTrip(id);
    MatchedUrl(link, id, fs, worlds(0), cfg);
  }

  /**
   * A `/shorts/` link yields the "id" `shorts/` plus four characters. The audio
   * is then written under the directory `shorts`, and transcripts are looked
   * for under the stem made of those four characters alone.
   */
  lemma ShortsLinkStem(t: string)
    requires |t| >= 4 && (forall i :: 0 <= i < |t| ==> IdChar(t[i])) && '/' !in t && t[0] != '.'
    ensures var id := "shorts/" + t[..4];
      && ExtractVideoId("https://www.youtube.com/shorts/" + t) == Ok(id)
      && Basename(AudioPath(id)) == t[..4] + ".mp3"
      && Stem(Basename(AudioPath(id))) == t[..4]
  {
    ShortsLink(t);
    var short := t[..4];
    var id := "shorts/" + short;
    var audio := AudioPath(id);
    var base := short + ".mp3";
    assert audio == "shorts/" + base;
    assert forall i :: 6 < i < |audio| ==> audio[i] != '/' by {
      forall i | 6 < i < |audio| ensures audio[i] != '/' {
        assert audio[i] == base[i - 7];
        if i - 7 < 4 { assert base[i - 7] == t[i - 7]; }
      }
    }
    Strings.LastIndexAt(audio, '/', 6);
    assert audio[7..] == base;
    assert short[0] != '.';
    assert '/' !in short;
    AudioStem(short);
    assert Basename(base) == base by {
      Strings.AfterLastIndex(base, '/');
      assert '/' !in base;
    }
  }
}
