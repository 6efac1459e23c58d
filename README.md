# YouTube transcription handler, modelled in Dafny

This project models the core of `src/transcription_handler.py`, the part of a
Telegram bot that turns YouTube links into transcripts. A message's text is
scanned for `http(s)://` URLs. Each URL is handled in turn:

- a URL that is not a YouTube link gets the message "Skipping non-YouTube URL.";
- otherwise its 11-character video id is extracted;
- the video's metadata is fetched with `yt-dlp --dump-json`, retried with exponential backoff;
- the title is announced and the audio is downloaded to `<id>.mp3`;
- the audio is transcribed with `whisper`, and the non-empty `.txt`, `.srt` and `.vtt` files are kept;
- the transcripts are sent as documents, the audio file is removed, and a closing message is sent.

Every stage that fails sends a failure message and moves on to the next URL.

The model has one module per concern:

| module | file | contents |
|---|---|---|
| `Wrappers` | `wrappers.dfy` | `Option` and `Result` |
| `Strings` | `strings.dfy` | Python's `str(int)`, `str.split`, `str.join`, `rfind` |
| `JsonValue` | `json_value.dfy` | decoded JSON values, Python truthiness, `str()`/`repr()`, the exceptions that can escape |
| `Duration` | `duration.dfy` | `format_duration` |
| `Snippet` | `snippet.dfy` | `get_description_snippet` |
| `Details` | `details.dfy` | the twelve-key details record built from the metadata |
| `Events` | `events.dfy` | chat messages and outside effects as trace events, and what a trace shows |
| `Fetch` | `fetch.dfy` | the retry loop of `fetch_youtube_details` |
| `Transcribe` | `transcribe.dfy` | the file-set check of `transcribe_audio` |
| `VideoId` | `video_id.dfy` | `YOUTUBE_REGEX` and `extract_youtube_video_id` |
| `Urls` | `urls.dfy` | the URL finder `re.findall(r'(https?://\S+)', ...)` |
| `Pipeline` | `pipeline.dfy` | `process_url_message` |

The outside world is a set of parameters:

- Metadata tool runs are a function from attempt number to a `ToolRun`: return code, stderr, and the decoded stdout.
- The filesystem is a map from path to file size.
- The downloader and the transcriber are given by the files they write.
- The world of the URL at position `k` of a message is `worlds(k)`.

Messages, documents, tool launches, sleeps and file removals are events appended to a trace.
The loops of the source are methods:

- `FetchYoutubeDetails`
- `TranscribeAudio`
- `TranscribeAndSend`
- `DownloadAndTranscribe`
- `ProcessUrl`
- `ProcessUrlMessage`

Each of them is proved equal to a function over the same inputs, and the properties are proved about those functions.

Some behaviour of the code may surprise a reader:

- `format_duration(0)` returns "No duration available" because 0 is falsy. It does not return "0m 0s".
- Not every failure is recovered per URL. The model covers three exceptions that escape and end the whole message:
  - a truthy duration that is not a number makes `divmod` raise;
  - a description that is not a string, with the snippet switch on, makes `.split` raise;
  - metadata that decodes to something other than an object makes `.get` raise.

  The model records these as `raised` and stops its loop there. A fourth way out, undecodable tool output, is listed under "## Left out".
- A `/shorts/` link matches, but not with its real id: `[^&=%\?]{11}` also takes '/', so `https://www.youtube.com/shorts/abcdefghijk` gives the id `shorts/abcd`. The audio is then `shorts/abcd.mp3`, and the transcripts are looked for at `transcriptions/abcd.<fmt>`.
- The audio file is removed only on the two paths that reach transcription. A details or download failure removes nothing.

## Model

| member | source | states |
|---|---|---|
| Duration.FormatSeconds | src/transcription_handler.py:129-137 | the placeholder "No duration available" is returned exactly when the duration is 0 |
| Duration.FormatDuration | src/transcription_handler.py:129-137 | placeholder exactly when the value is absent or falsy (a present `null` included); `divmod` raises exactly for a truthy value that is neither int nor bool; an integer is formatted as `FormatSeconds` does, `True` as 1 and `False` as the placeholder |
| Duration.NullAndBoolDurations | src/transcription_handler.py:130-137 | a `null` or `False` duration gives the placeholder, and `True` gives "0m 1s" |
| Duration.FormatSecondsDecomposes | src/transcription_handler.py:132-137 | for a non-zero `d = 3600h + 60m + s` with `0 <= m, s < 60`, the output is `"{h}h {m}m {s}s"` when `h != 0`, and `"{m}m {s}s"` otherwise |
| Duration.HoursShown | src/transcription_handler.py:134-137 | the hour field appears exactly when `d >= 3600` or `d < 0`, that is, when floor(d / 3600) is not 0 |
| Duration.DurationRoundTrip | src/transcription_handler.py:132-137 | reading the fields back from the rendering gives the duration: no information is lost |
| Strings.IntToStringRoundTrip | src/transcription_handler.py:135-137 | the decimal rendering used in the duration text reads back as the same integer |
| Strings.JoinSplit | src/transcription_handler.py:199-200 | `'\n'.join(s.split('\n')) == s` |
| Strings.SplitJoin | src/transcription_handler.py:199-200 | splitting a join of separator-free pieces gives the pieces back |
| Snippet.SnippetIsPrefix | src/transcription_handler.py:198-201 | the snippet is a prefix of the description |
| Snippet.SnippetLines | src/transcription_handler.py:198-201 | the snippet's lines are exactly the first kept lines of the description; it is empty when none are kept |
| Snippet.SnippetNewlines | src/transcription_handler.py:198-201 | the snippet has one newline fewer than the lines kept, so at most `max_lines - 1`; `max_lines == 0` gives the empty string |
| Snippet.SnippetOfShortText | src/transcription_handler.py:198-201 | a description with at most `max_lines` lines is returned unchanged |
| Snippet.SnippetIdempotent | src/transcription_handler.py:198-201 | applying the snippet twice gives the same result as once, for `max_lines >= 0` |
| JsonValue.FalsyValues | src/transcription_handler.py:130-131 | the values `not` treats as false are exactly `None`, `False`, `0`, `''` and `[]` |
| JsonValue.DisplayExamples | src/transcription_handler.py:99 | the f-string shows `None`, `True`, `-7`, and a list as its `repr` items, like `['a', 1]` and `["it's"]` |
| Events.TitleTexts | src/transcription_handler.py:98-99 | the title message is "Title: ", the title as `str()` shows it, and the line "Downloading audio for transcription..."; a `null` title shows as `None` |
| Details.FilterDetails | src/transcription_handler.py:163-188 | the mapping fails exactly when the duration is truthy and not a number, or the snippet switch is on and the description is present but not a string; the duration error comes first |
| Details.DictKeys | src/transcription_handler.py:174-188 | every details record has exactly the twelve keys title, duration, channel, upload_date, views, likes, average_rating, comment_count, channel_id, video_id, tags, description |
| Details.CopiedFromSource | src/transcription_handler.py:174-188 | each of the ten copied keys holds the source field when present (a `None` stays `None`) and its placeholder when absent, with tags defaulting to `['No tags available']` |
| Details.ComputedFields | src/transcription_handler.py:165-177 | the duration key holds `format_duration` of the duration field for every value the mapping accepts: the placeholder when it is absent or falsy (`null` included), `FormatSeconds(i)` for an int and for `True`; the description is cut to a snippet only when the switch is on |
| Fetch.FetchYoutubeDetails | src/transcription_handler.py:145-195 | the loop's outcome and its trace of launches and sleeps are those of the retry reference `FetchFrom` |
| Fetch.FetchShape | src/transcription_handler.py:145-161 | at most `max_retries` launches, none when `max_retries <= 0`; every attempt but the last was a failure with stderr; the trace waits `base_delay * 2^k` after attempt `k` and never after the last; the result is the last attempt's parse, or none when all attempts failed |
| Fetch.BackoffTraceCounts | src/transcription_handler.py:156-159 | a trace of `n` attempts has `n` launches and `n - 1` sleeps of `base * 2^k` seconds, and ends with a launch |
| Fetch.TwoFailuresThenSuccess | src/transcription_handler.py:154-191 | two retryable failures and then a good run give sleeps of 1 and 2 seconds and the parsed details of the third run |
| Fetch.MalformedOutputStops | src/transcription_handler.py:192-194 | output that does not decode ends the loop at once with no details, and no retry or sleep |
| Fetch.FetchEventsKinds | src/transcription_handler.py:145-161 | a fetch launches only the metadata tool on its URL, and sleeps |
| Transcribe.TranscribeAudio | src/transcription_handler.py:36-73 | after the tool's writes, the returned set is the expected formats whose file exists with non-zero size; the tool's return code has no influence |
| Transcribe.TranscriptFilesSpec | src/transcription_handler.py:57-73 | at most three entries with keys among txt, srt, vtt; each path is `<output_dir>/<stem>.<fmt>`; a key is present exactly when its file exists with size > 0; keys keep the order txt, srt, vtt |
| Transcribe.BasenameSpec | src/transcription_handler.py:58 | `os.path.basename` gives the suffix of the path after its last '/': it holds no '/', it is preceded by a '/' whenever it is shorter than the path, and a path without '/' is its own base name |
| Transcribe.StemSpec | src/transcription_handler.py:58 | `os.path.splitext(...)[0]` is a prefix of the name; the name is cut at its last '.' exactly when a character other than '.' comes before that '.', and is kept whole otherwise; what is cut is a '.' and an extension without dots |
| Transcribe.StemExamples | src/transcription_handler.py:58 | `abc.mp3` gives `abc`, `a.b.mp3` gives `a.b`, `.hidden`, `..mp3` and `noext` are kept whole, and the base name of `dir/sub/file.mp3` is `file.mp3` |
| Transcribe.AudioStem | src/transcription_handler.py:58 | for an id without '/' that is not made of dots only, the stem of `<id>.mp3` is the id, so transcripts are looked for at `transcriptions/<id>.<fmt>`; the regex does admit ids with '/' (see Pipeline.ShortsLinkStem) |
| VideoId.IdAt | src/transcription_handler.py:207 | `([^&=%\?]{11})` takes 11 characters with none of `&=%?` at the front of the text |
| VideoId.ExtractVideoId | src/transcription_handler.py:209-213 | the result is an error exactly when the pattern does not match; otherwise it is the matched 11-character id without `&=%?` |
| VideoId.MatchSound | src/transcription_handler.py:204-207 | a URL that the matcher accepts starts with an optional scheme, an optional `www.`, one of the three hosts, `.com/` or `.be/`, one of the path forms and the returned id |
| VideoId.MatchComplete | src/transcription_handler.py:204-207 | every URL that starts with such a shape is matched |
| VideoId.PathOfId | src/transcription_handler.py:207 | a bare 11-character id after the domain is matched by the final alternative, with no path group |
| VideoId.ShortLinkRoundTrip | src/transcription_handler.py:204-207 | the short link `https://youtu.be/<id>` matches and gives back `id` |
| VideoId.ShortsLink | src/transcription_handler.py:204-207 | `https://www.youtube.com/shorts/<t>` is taken by the bare-id alternative, so group 6 is `shorts/` and the first four characters of `t` |
| VideoId.CanonicalRoundTrip | src/transcription_handler.py:87 | the canonical URL `https://www.youtube.com/watch?v=<id>` matches and gives back `id` |
| Urls.UrlAt | src/transcription_handler.py:77 | there is a match at a position exactly when `https://` or `http://` is followed there by a non-whitespace character; the match is then a URL token that ends at whitespace or at the end of the text, so `\S+` took the longest run |
| Urls.PlainText | src/transcription_handler.py:77 | text in which "http" never occurs yields no URL |
| Urls.WordsThenUrl | src/transcription_handler.py:77 | words without a URL, whitespace and then one URL token yield exactly that URL |
| Urls.FoundAreTokens | src/transcription_handler.py:77 | every URL found starts with `https://` or `http://`, has at least one more character and holds no whitespace |
| Urls.FindSingle | src/transcription_handler.py:77 | a message that is exactly one URL token yields that URL |
| Urls.FindSeparated | src/transcription_handler.py:77 | text on either side of a whitespace character is scanned independently, in order |
| Pipeline.TranscribeAndSend | src/transcription_handler.py:109-126 | the transcription stage's trace and final files are those of `AfterDownload` |
| Pipeline.DownloadAndTranscribe | src/transcription_handler.py:97-126 | the stage from the title message on gives the trace and files of `AfterFetch` |
| Pipeline.ProcessUrl | src/transcription_handler.py:79-126 | the body of the loop for one URL gives the trace, files and escaped exception of `HandleUrl` |
| Pipeline.ProcessUrlMessage | src/transcription_handler.py:76-126 | the whole message gives the trace of `ProcessMessage`: URLs in message order, stopping at the first escaped exception |
| Pipeline.HandleMatchedObserved | src/transcription_handler.py:83-126 | for a matched URL, the messages, documents, effects, files and exception of each ending: an exception or a details failure stops before the download; missing audio gives the failure message and no removal; an empty set gives the failure message and then one removal; success gives the documents in txt/srt/vtt order, then one removal, then the closing message; at most one removal |
| Pipeline.HandleUrlObserved | src/transcription_handler.py:78-91 | a URL the pattern rejects gets only the skip message and changes no file; a matched one is fetched through its canonical URL; at most one removal |
| Pipeline.TranscriptionAfterMatch | src/transcription_handler.py:109-126 | once the audio exists, it is gone afterwards and every reported transcript remains; the trace ends with the failure message and the removal, or with the removal and the closing message |
| Pipeline.AfterDownloadFiles | src/transcription_handler.py:113-123 | the transcription stage removes the audio and keeps every transcript it reported |
| Pipeline.RunFromRemovals | src/transcription_handler.py:78-126 | a message with `n` URLs removes files at most `n` times |
| Pipeline.RunAllSkipped | src/transcription_handler.py:78-81 | a message without YouTube links gets one skip message per URL and nothing else |
| Pipeline.FoundOneUrl | src/transcription_handler.py:77-78 | a message in which exactly one URL is found is handled as that URL, with the first outside world |
| Pipeline.OneUrlMessage | src/transcription_handler.py:77-78 | a message that is one URL is handled as that URL |
| Pipeline.OneLinkMessage | src/transcription_handler.py:84-91 | a message that is a canonical watch link is handled as that video id |
| Pipeline.TwoUrlMessage | src/transcription_handler.py:76-126 | two whitespace-separated URLs are handled in order; the second is handled only if the first raised nothing, starting from the files the first left |
| Pipeline.ShortsLinkStem | src/transcription_handler.py:86-101 | for a `/shorts/` link the id is `shorts/<four characters>`, the audio path is `shorts/<four>.mp3`, and the stem used for the transcripts is the four characters alone |
| Pipeline.WordsThenShortLink | src/transcription_handler.py:76-91 | words without a URL, whitespace and `https://youtu.be/<id>` are handled as that one video, fetched through its canonical watch URL |
| Pipeline.SkipThenLink | src/transcription_handler.py:78-81 | a non-YouTube link, whitespace and a watch link give the skip message and then that video's handling |

## Left out

- Subprocesses and async scheduling (`yt-dlp`, `whisper`, `communicate`, `asyncio.sleep`) are not modelled. Their results are inputs, and a sleep is an event in the trace.
- The metadata tool's command line, including the user agent string, is not interpreted. A launch is recorded with its URL only.
- `json.loads` is not modelled. Its result is the input `Decoded`: a decode error, a field map, or a non-object value.
- Floating-point and nested-object JSON values are not modelled. A field is null, a bool, an int, a string or a list. For the duration, null and other falsy values give the placeholder, ints and bools are formatted, and a non-empty string or list makes `divmod` raise.
- A present `None` value stays `None`, because `.get` substitutes only for absent keys. The model does not claim that any field is non-null.
- `repr` inside a list's `str()` does not escape quotes or control characters. This only matters for the title text of a list-valued title.
- The real chat transport, `open` and `os.remove` are not modelled. They are events; file handles left open and exceptions raised while sending are not modelled.
- `download_audio` is not modelled beyond its effect: the files it writes. Its log messages and return code are not looked at by the source either.
- Logging, the module-level `os.makedirs` and `logging.basicConfig` are not modelled.
- The whisper return code is only logged, when its stderr decodes. The model keeps it in `WhisperRun`, and `TranscribeAudio` proves that the result does not depend on it.
- Tool output is assumed to be valid UTF-8. The source calls `bytes.decode()` on the whisper stderr, the metadata tool's stderr and the metadata tool's stdout. Output that is not UTF-8 raises `UnicodeDecodeError`, which the `except json.JSONDecodeError` does not catch, so it ends the whole message. On a failed whisper run this happens before any failure message and before the audio is removed. The model does not express this case: stderr and stdout are already-decoded values.
- Full Python `re` is not modelled. The URL finder and `YOUTUBE_REGEX` are written out as the matchers that those patterns amount to: alternatives are tried in order, and `.+\?v=` backtracks from the longest run without a newline.
- Urls.FindUrls has no contract of its own. Its properties are in the contract of Urls.UrlAt, which finds each match, and in the lemmas FoundAreTokens, FindSingle, FindSeparated, PlainText and WordsThenUrl.
