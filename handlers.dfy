/** The bot's message handlers and the per-chat session table `Users`, which
    maps a chat id to the chat's link and the paths of the files downloaded
    for it. Each handler runs as one atomic step on the table; the messages
    the bot sends are not modelled. */
module Handlers {

  import opened Wrappers
  import YouTube
  import Mp3

  /** One row of `Users`: the link last sent, the downloaded video file and
      the converted audio file. `audioPath` is `None` after a failed
      conversion, as `convertToMp3` then returns Python's `None`. */
  datatype Entry = Entry(url: string, videoPath: string, audioPath: Option<string>)

  /** The row `start` writes: every field the empty string. */
  const Blank: Entry := Entry("", "", Some(""))

  /** How a handler ended. `RaisedKeyError` is the uncaught `KeyError` of a
      download callback for a chat that never sent `/start` or a link;
      `WarnedNoUrl` is the early return for an empty link; `ReportedFailure`
      is a failed download; `Stored` means the table was updated with the
      new paths (sending the file afterwards may still fail, which the
      handler catches without touching the table). */
  datatype Outcome = RaisedKeyError | WarnedNoUrl | ReportedFailure | Stored

  /** Every chat other than `chat` keeps its row. */
  ghost predicate OthersUnchanged(before: map<int, Entry>, after: map<int, Entry>, chat: int) {
    forall c :: c in before && c != chat ==> c in after && after[c] == before[c]
  }

  /** The text an f-string gives for a value of the download record. */
  function Format(v: YouTube.Value): string {
    match v
    case Null => "None"
    case Str(s) => s
    case Other(text) => text
  }

  class Bot {
    /** `Users`, from chat id to the chat's row. */
    var users: map<int, Entry>

    /** `Configs["videos_path"]` and `Configs["audios_path"]`. */
    const videosPath: string
    const audiosPath: string

    /** The foreign collaborators: the downloader, the transcoder and
        `os.path.join`. */
    const ydl: YouTube.YtDlp
    const transcoder: Mp3.Transcoder
    const join: (string, string) -> string

    /** The table starts empty. */
    constructor (videosPath: string, audiosPath: string, ydl: YouTube.YtDlp,
                 transcoder: Mp3.Transcoder, join: (string, string) -> string)
      ensures users == map[]
      ensures this.videosPath == videosPath && this.audiosPath == audiosPath
      ensures this.ydl == ydl && this.transcoder == transcoder && this.join == join
    {
      users := map[];
      this.videosPath := videosPath;
      this.audiosPath := audiosPath;
      this.ydl := ydl;
      this.transcoder := transcoder;
      this.join := join;
    }

    /** `/start`: the chat gets a blank row, whether it had one or not. */
    method Start(chat: int)
      modifies this`users
      ensures chat in users && users[chat] == Blank
      ensures users.Keys == old(users).Keys + {chat}
      ensures OthersUnchanged(old(users), users, chat)
    {
      users := users[chat := Blank];
    }

    /** A link: a new chat gets a row with the link and empty paths; a known
        chat only has its link replaced. */
    method SendUrl(chat: int, text: string)
      modifies this`users
      ensures users.Keys == old(users).Keys + {chat}
      ensures OthersUnchanged(old(users), users, chat)
      ensures chat !in old(users) ==> users[chat] == Entry(text, "", Some(""))
      ensures chat in old(users) ==> users[chat] == old(users)[chat].(url := text)
    {
      if chat !in users {
        users := users[chat := Entry(text, "", Some(""))];
      } else {
        users := users[chat := users[chat].(url := text)];
      }
    }

    /** A text message: `send_url` runs only for texts the link filter
        accepts; any other text leaves the table as it is. */
    method OnText(chat: int, text: string)
      modifies this`users
      ensures YouTube.IsUrl(text) ==>
                users == old(users)[chat := if chat in old(users) then old(users)[chat].(url := text)
                                            else Entry(text, "", Some(""))]
      ensures !YouTube.IsUrl(text) ==> users == old(users)
    {
      if YouTube.IsUrl(text) {
        ghost var before := users;
        SendUrl(chat, text);
        ghost var expected := before[chat := if chat in before then before[chat].(url := text)
                                             else Entry(text, "", Some(""))];
        assert forall c :: c in users ==> c in expected && users[c] == expected[c];
        assert users.Keys == expected.Keys;
      }
    }

    /** The "Download video" button. A chat without a row raises `KeyError`
        and one without a link is warned; either way the table is unchanged.
        Otherwise the link is downloaded into `videosPath`: a failed download
        makes the record `None`, whose subscript raises inside the `try`, so
        the table is unchanged; a successful one sets only the chat's
        `videoPath`, to the downloaded file name. */
    method DownloadVideo(chat: int) returns (o: Outcome)
      modifies this`users
      ensures chat !in old(users) ==> o == RaisedKeyError && users == old(users)
      ensures chat in old(users) && old(users)[chat].url == "" ==>
                o == WarnedNoUrl && users == old(users)
      ensures chat in old(users) && old(users)[chat].url != "" ==>
                var rec := YouTube.YoutubeObj(old(users)[chat].url).Download(Some(videosPath), ydl);
                && (rec.None? ==> o == ReportedFailure && users == old(users))
                && (rec.Some? ==>
                      && o == Stored
                      && users == old(users)[chat := old(users)[chat].(videoPath := rec.value["filename"].s)])
    {
      if chat !in users {
        return RaisedKeyError;
      }
      var videoUrl := users[chat].url;
      if videoUrl == "" {
        return WarnedNoUrl;
      }
      var youtube := YouTube.YoutubeObj(videoUrl);
      var rec := youtube.Download(Some(videosPath), ydl);
      if rec.None? {
        return ReportedFailure;
      }
      var videoPath := rec.value["filename"].s;
      users := users[chat := users[chat].(videoPath := videoPath)];
      return Stored;
    }

    /** The "Download audio" button. The guards are those of `DownloadVideo`;
        a failed download returns early with the table unchanged. Otherwise
        the chat's `videoPath` is set to the downloaded file, the file is
        converted to `join(audiosPath, title + ".mp3")`, and `audioPath` is
        set to what the conversion returns, `None` when it failed. */
    method DownloadAudio(chat: int) returns (o: Outcome)
      modifies this`users
      ensures chat !in old(users) ==> o == RaisedKeyError && users == old(users)
      ensures chat in old(users) && old(users)[chat].url == "" ==>
                o == WarnedNoUrl && users == old(users)
      ensures chat in old(users) && old(users)[chat].url != "" ==>
                var rec := YouTube.YoutubeObj(old(users)[chat].url).Download(Some(videosPath), ydl);
                && (rec.None? ==> o == ReportedFailure && users == old(users))
                && (rec.Some? ==>
                      var video := rec.value["filename"].s;
                      var target := join(audiosPath, Format(rec.value["title"]) + Mp3.Mp3Suffix);
                      && o == Stored
                      && users == old(users)[chat := old(users)[chat].(
                                   videoPath := video,
                                   audioPath := Mp3.ConvertToMp3(video, target, transcoder))])
    {
      if chat !in users {
        return RaisedKeyError;
      }
      var videoUrl := users[chat].url;
      if videoUrl == "" {
        return WarnedNoUrl;
      }
      var youtube := YouTube.YoutubeObj(videoUrl);
      var rec := youtube.Download(Some(videosPath), ydl);
      if rec.None? {
        return ReportedFailure;
      }
      var videoPath := rec.value["filename"].s;
      users := users[chat := users[chat].(videoPath := videoPath)];
      var audioFilename := Format(rec.value["title"]) + Mp3.Mp3Suffix;
      var audioPath := join(audiosPath, audioFilename);
      var converted := Mp3.ConvertToMp3(videoPath, audioPath, transcoder);
      users := users[chat := users[chat].(audioPath := converted)];
      return Stored;
    }
  }
}
