/**
 * The details record built by `fetch_youtube_details` from the decoded
 * metadata: twelve keys, each copied from the source field when present and
 * replaced by a fixed placeholder when absent.
 */
module Details {
  import opened Wrappers
  import opened JsonValue
  import opened Duration
  import opened Snippet

  const USE_SNIPPET_FOR_DESCRIPTION := false

  /** The module-level switches the mapping reads. */
  datatype Config = Config(useSnippet: bool, maxLines: int)

  const DefaultConfig := Config(USE_SNIPPET_FOR_DESCRIPTION, DESCRIPTION_MAX_LINES)

  /** The decoded JSON object printed by the metadata tool. */
  type Fields = map<string, Json>

  datatype VideoDetails = VideoDetails(
    title: Json,
    duration: string,
    channel: Json,
    uploadDate: Json,
    views: Json,
    likes: Json,
    averageRating: Json,
    commentCount: Json,
    channelId: Json,
    videoId: Json,
    tags: Json,
    description: Json)

  const NoTitle := JStr("No title available")
  const NoDescription := JStr("No description available")
  const NoTags := JArray([JStr("No tags available")])

  /** Python's `fields.get(key, default)`: the default only for an absent key. */
  function Get(fields: Fields, key: string, default: Json): Json {
    if key in fields then fields[key] else default
  }

  /** Python's `fields.get(key)`, `None` for an absent key. */
  function GetOptional(fields: Fields, key: string): Option<Json> {
    if key in fields then Some(fields[key]) else None
  }

  /** The description, cut to a snippet only when the switch is on. */
  function DescriptionText(fields: Fields, cfg: Config): Result<Json, Fault> {
    var raw := Get(fields, "description", NoDescription);
    if !cfg.useSnippet then Ok(raw)
    else
      match raw
      case JStr(s) => Ok(JStr(DescriptionSnippet(s, cfg.maxLines)))
      case _ => Err(SplitOnNonString)
  }

  /** `format_duration` raises on a truthy duration that is not a number. */
  predicate DurationRaises(fields: Fields) {
    "duration" in fields && Truthy(fields["duration"])
    && !fields["duration"].JInt? && !fields["duration"].JBool?
  }

  /** `.split` raises on a description that is present but not a string. */
  predicate DescriptionRaises(fields: Fields, cfg: Config) {
    cfg.useSnippet && "description" in fields && !fields["description"].JStr?
  }

  /**
   * The try-block of `fetch_youtube_details` after decoding: the duration is
   * formatted first, then the description is chosen, then the record is built.
   */
  function FilterDetails(fields: Fields, cfg: Config): (r: Result<VideoDetails, Fault>)
    ensures r.Err? <==> DurationRaises(fields) || DescriptionRaises(fields, cfg)
    ensures r.Err? ==> r.error == if DurationRaises(fields) then DivmodOnNonNumber else SplitOnNonString
  {
    var duration := FormatDuration(GetOptional(fields, "duration"));
    if duration.Err? then Err(duration.error)
    else
      var description := DescriptionText(fields, cfg);
      if description.Err? then Err(description.error)
      else
        Ok(VideoDetails(
          title := Get(fields, "title", NoTitle),
          duration := duration.value,
          channel := Get(fields, "uploader", JStr("No channel information available")),
          uploadDate := Get(fields, "upload_date", JStr("No upload date available")),
          views := Get(fields, "view_count", JStr("No views available")),
          likes := Get(fields, "like_count", JStr("No likes available")),
          averageRating := Get(fields, "average_rating", JStr("No rating available")),
          commentCount := Get(fields, "comment_count", JStr("No comment count available")),
          channelId := Get(fields, "channel_id", JStr("No channel ID available")),
          videoId := Get(fields, "id", JStr("No video ID available")),
          tags := Get(fields, "tags", NoTags),
          description := description.value))
  }

  /** The record as the Python dictionary it is. */
  function AsDict(d: VideoDetails): map<string, Json> {
    map[
      "title" := d.title,
      "duration" := JStr(d.duration),
      "channel" := d.channel,
      "upload_date" := d.uploadDate,
      "views" := d.views,
      "likes" := d.likes,
      "average_rating" := d.averageRating,
      "comment_count" := d.commentCount,
      "channel_id" := d.channelId,
      "video_id" := d.videoId,
      "tags" := d.tags,
      "description" := d.description]
  }

  const DetailKeys: set<string> := {
    "title", "duration", "channel", "upload_date", "views", "likes",
    "average_rating", "comment_count", "channel_id", "video_id", "tags", "description"}

  /** Output key, source key and placeholder of the ten fields copied as they are. */
  const CopiedFields: seq<(string, string, Json)> := [
    ("title", "title", NoTitle),
    ("channel", "uploader", JStr("No channel information available")),
    ("upload_date", "upload_date", JStr("No upload date available")),
    ("views", "view_count", JStr("No views available")),
    ("likes", "like_count", JStr("No likes available")),
    ("average_rating", "average_rating", JStr("No rating available")),
    ("comment_count", "comment_count", JStr("No comment count available")),
    ("channel_id", "channel_id", JStr("No channel ID available")),
    ("video_id", "id", JStr("No video ID available")),
    ("tags", "tags", NoTags)]

  /** Every record has exactly the twelve keys, whatever the metadata held. */
  lemma DictKeys(d: VideoDetails)
    ensures AsDict(d).Keys == DetailKeys
  {
  }

  /** Each copied key of the dictionary holds the matching field of the record. */
  lemma DictLookups(d: VideoDetails)
    ensures var dict := AsDict(d);
      && "title" in dict && "channel" in dict && "upload_date" in dict && "views" in dict
      && "likes" in dict && "average_rating" in dict && "comment_count" in dict
      && "channel_id" in dict && "video_id" in dict && "tags" in dict
      && dict["title"] == d.title && dict["channel"] == d.channel
      && dict["upload_date"] == d.uploadDate && dict["views"] == d.views
      && dict["likes"] == d.likes && dict["average_rating"] == d.averageRating
      && dict["comment_count"] == d.commentCount && dict["channel_id"] == d.channelId
      && dict["video_id"] == d.videoId && dict["tags"] == d.tags
  {
  }

  /** The ten copied fields of `d` are the `get`s of `fields` with their placeholders. */
  predicate CopiedFrom(d: VideoDetails, fields: Fields) {
    && d.title == Get(fields, "title", NoTitle)
    && d.channel == Get(fields, "uploader", JStr("No channel information available"))
    && d.uploadDate == Get(fields, "upload_date", JStr("No upload date available"))
    && d.views == Get(fields, "view_count", JStr("No views available"))
    && d.likes == Get(fields, "like_count", JStr("No likes available"))
    && d.averageRating == Get(fields, "average_rating", JStr("No rating available"))
    && d.commentCount == Get(fields, "comment_count", JStr("No comment count available"))
    && d.channelId == Get(fields, "channel_id", JStr("No channel ID available"))
    && d.videoId == Get(fields, "id", JStr("No video ID available"))
    && d.tags == Get(fields, "tags", NoTags)
  }

  lemma RecordFields(fields: Fields, cfg: Config)
    requires FilterDetails(fields, cfg).Ok?
    ensures CopiedFrom(FilterDetails(fields, cfg).value, fields)
  {
  }

  /** The table of copied fields describes the dictionary of any record built that way. */
  lemma CopiedTable(d: VideoDetails, fields: Fields)
    requires CopiedFrom(d, fields)
    ensures forall i :: 0 <= i < |CopiedFields| ==>
      CopiedFields[i].0 in AsDict(d)
      && AsDict(d)[CopiedFields[i].0] == Get(fields, CopiedFields[i].1, CopiedFields[i].2)
  {
    DictLookups(d);
  }

  /**
   * Each copied key holds the source value when the source key is present and
   * its placeholder when it is absent.
   */
  lemma CopiedFromSource(fields: Fields, cfg: Config)
    requires FilterDetails(fields, cfg).Ok?
    ensures var dict := AsDict(FilterDetails(fields, cfg).value);
      forall i :: 0 <= i < |CopiedFields| ==>
        var (out, src, placeholder) := CopiedFields[i];
        && out in dict
        && (src in fields ==> dict[out] == fields[src])
        && (src !in fields ==> dict[out] == placeholder)
  {
    RecordFields(fields, cfg);
    CopiedTable(FilterDetails(fields, cfg).value, fields);
  }

  /** The duration key is the formatted duration; the description is cut only when the switch is on. */
  lemma ComputedFields(fields: Fields, cfg: Config)
    requires FilterDetails(fields, cfg).Ok?
    ensures var d := FilterDetails(fields, cfg).value;
      && FormatDuration(GetOptional(fields, "duration")).Ok?
      && d.duration == FormatDuration(GetOptional(fields, "duration")).value
      && ("duration" !in fields ==> d.duration == NoDuration)
      && ("duration" in fields && !Truthy(fields["duration"]) ==> d.duration == NoDuration)
      && ("duration" in fields && fields["duration"] == JBool(true) ==> d.duration == FormatSeconds(1))
      && ("duration" in fields && fields["duration"].JInt? ==>
            d.duration == FormatSeconds(fields["duration"].i))
      && (!cfg.useSnippet ==> d.description == Get(fields, "description", NoDescription))
      && (cfg.useSnippet ==>
            d.description.JStr? &&
            d.description.s == DescriptionSnippet(Get(fields, "description", NoDescription).s, cfg.maxLines))
  {
  }
}
