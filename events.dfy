/**
 * What the pipeline does that a requester or the host can observe, in order:
 * chat messages and documents sent, external tools launched, backoff sleeps
 * and files removed.
 */
module Events {
  import opened JsonValue

  /** The chat messages `process_url_message` sends. */
  datatype Notice =
    | Skipping
    | Processing
    | FetchingDetails
    | DetailsFailed
    | TitleAndDownloading(title: Json)
    | DownloadFailed
    | Transcribing
    | TranscriptionFailed
    | SendingFiles
    | Closing

  /** The second line of the title message. */
  const DownloadingLine := "\nDownloading audio for transcription..."

  /** The text of each message as the chat receives it. */
  function Text(n: Notice): string {
    match n
    case Skipping => "Skipping non-YouTube URL."
    case Processing => "Processing YouTube URL..."
    case FetchingDetails => "Fetching YouTube video details..."
    case DetailsFailed => "Failed to fetch video details."
    case TitleAndDownloading(title) =>
      "Title: " + Display(title) + DownloadingLine
    case DownloadFailed => "Audio file could not be downloaded."
    case Transcribing => "Transcribing audio..."
    case TranscriptionFailed => "Failed to transcribe audio."
    case SendingFiles => "Sending transcription files..."
    case Closing => "There ya go, have a nice day! :-)"
  }

  /** The title message shows the title as an f-string would. */
  lemma TitleTexts(t: string)
    ensures Text(TitleAndDownloading(JNull)) == "Title: None" + DownloadingLine
    ensures Text(TitleAndDownloading(JStr(t))) == "Title: " + t + DownloadingLine
    ensures Text(TitleAndDownloading(JArray([JStr("a"), JInt(1)]))) == "Title: ['a', 1]" + DownloadingLine
  {
    DisplayExamples();
    assert "Title: " + "None" == "Title: None";
    assert "Title: " + "['a', 1]" == "Title: ['a', 1]";
  }

  datatype Event =
    | SendMessage(notice: Notice)
    | SendDocument(path: string)
    | RunMetadataTool(url: string)
    | Sleep(seconds: int)
    | RunDownloader(url: string, output: string)
    | RunTranscriber(audio: string, outputDir: string)
    | RemoveFile(path: string)

  /** The messages of a trace, in order. */
  function Notices(trace: seq<Event>): seq<Notice>
    decreases |trace|
  {
    if trace == [] then []
    else (if trace[0].SendMessage? then [trace[0].notice] else []) + Notices(trace[1..])
  }

  /** How many times a file was removed in a trace. */
  function Removals(trace: seq<Event>): nat
    decreases |trace|
  {
    if trace == [] then 0 else (if trace[0].RemoveFile? then 1 else 0) + Removals(trace[1..])
  }

  lemma {:induction false} NoticesConcat(a: seq<Event>, b: seq<Event>)
    ensures Notices(a + b) == Notices(a) + Notices(b)
    decreases |a|
  {
    if a == [] {
      assert a + b == b;
    } else {
      var h := if a[0].SendMessage? then [a[0].notice] else [];
      assert (a + b)[0] == a[0];
      assert (a + b)[1..] == a[1..] + b;
      NoticesConcat(a[1..], b);
      assert Notices(a + b) == h + (Notices(a[1..]) + Notices(b));
      assert h + (Notices(a[1..]) + Notices(b)) == (h + Notices(a[1..])) + Notices(b);
    }
  }

  lemma {:induction false} RemovalsConcat(a: seq<Event>, b: seq<Event>)
    ensures Removals(a + b) == Removals(a) + Removals(b)
    decreases |a|
  {
    if a == [] {
      assert a + b == b;
    } else {
      assert (a + b)[1..] == a[1..] + b;
      RemovalsConcat(a[1..], b);
    }
  }

  /** The paths of the documents sent in a trace, in order. */
  function Sent(trace: seq<Event>): seq<string>
    decreases |trace|
  {
    if trace == [] then []
    else (if trace[0].SendDocument? then [trace[0].path] else []) + Sent(trace[1..])
  }

  lemma {:induction false} SentConcat(a: seq<Event>, b: seq<Event>)
    ensures Sent(a + b) == Sent(a) + Sent(b)
    decreases |a|
  {
    if a == [] {
      assert a + b == b;
    } else {
      var h := if a[0].SendDocument? then [a[0].path] else [];
      assert (a + b)[0] == a[0];
      assert (a + b)[1..] == a[1..] + b;
      SentConcat(a[1..], b);
      assert Sent(a + b) == h + (Sent(a[1..]) + Sent(b));
      assert h + (Sent(a[1..]) + Sent(b)) == (h + Sent(a[1..])) + Sent(b);
    }
  }

  /** A trace with no message, no document and no removal in it. */
  predicate Silent(trace: seq<Event>) {
    forall i :: 0 <= i < |trace| ==>
      !trace[i].SendMessage? && !trace[i].SendDocument? && !trace[i].RemoveFile?
  }

  lemma {:induction false} SilentTrace(trace: seq<Event>)
    requires Silent(trace)
    ensures Notices(trace) == [] && Sent(trace) == [] && Removals(trace) == 0
    decreases |trace|
  {
    if trace != [] {
      assert Silent(trace[1..]) by {
        forall i | 0 <= i < |trace[1..]|
          ensures !trace[1..][i].SendMessage? && !trace[1..][i].SendDocument? && !trace[1..][i].RemoveFile?
        {
          assert trace[1..][i] == trace[i + 1];
        }
      }
      SilentTrace(trace[1..]);
    }
  }

  /** What a trace does outside the chat: tool launches, sleeps and removals, in order. */
  function Effects(trace: seq<Event>): seq<Event>
    decreases |trace|
  {
    if trace == [] then []
    else (if trace[0].SendMessage? || trace[0].SendDocument? then [] else [trace[0]]) + Effects(trace[1..])
  }

  lemma {:induction false} EffectsConcat(a: seq<Event>, b: seq<Event>)
    ensures Effects(a + b) == Effects(a) + Effects(b)
    decreases |a|
  {
    if a == [] {
      assert a + b == b;
    } else {
      var h := if a[0].SendMessage? || a[0].SendDocument? then [] else [a[0]];
      assert (a + b)[0] == a[0];
      assert (a + b)[1..] == a[1..] + b;
      EffectsConcat(a[1..], b);
      assert Effects(a + b) == h + (Effects(a[1..]) + Effects(b));
      assert h + (Effects(a[1..]) + Effects(b)) == (h + Effects(a[1..])) + Effects(b);
    }
  }

  /** Concatenation, for every observation at once. */
  lemma ObserveConcat(a: seq<Event>, b: seq<Event>)
    ensures Notices(a + b) == Notices(a) + Notices(b)
    ensures Sent(a + b) == Sent(a) + Sent(b)
    ensures Removals(a + b) == Removals(a) + Removals(b)
    ensures Effects(a + b) == Effects(a) + Effects(b)
  {
    NoticesConcat(a, b);
    SentConcat(a, b);
    RemovalsConcat(a, b);
    EffectsConcat(a, b);
  }

  /** A single event, for every observation at once. */
  lemma ObserveOne(e: Event)
    ensures Notices([e]) == if e.SendMessage? then [e.notice] else []
    ensures Sent([e]) == if e.SendDocument? then [e.path] else []
    ensures Removals([e]) == if e.RemoveFile? then 1 else 0
    ensures Effects([e]) == if e.SendMessage? || e.SendDocument? then [] else [e]
  {
    assert [e][1..] == [];
  }
}
