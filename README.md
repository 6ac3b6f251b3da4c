# YouTube download bot: link filter, MP3 path rule and session table

A Telegram bot receives YouTube links, downloads the video with `yt_dlp`
and, on request, converts it to MP3 with `moviepy`. Almost everything it does
is I/O. This project models, in Dafny, the pieces of logic that are its own:

- **The link filter** `YoutubeObj.is_url` (`youtube.dfy`, module `YouTube`).
  It decides which chat messages count as links. It is a deterministic
  recogniser, `IsUrl`, that drops an optional `http://` or `https://`, an
  optional `www.` and the host `youtube.com/` or `youtu.be/`, then checks the
  rest. The pattern is also written part by part as `Pattern`: one of twelve
  prefixes followed by a non-empty run of path characters, with Python's
  `$` admitting one final newline. `IsUrlIffPattern` proves the two agree.
  The lemmas around it state what is rejected: bare hosts, other hosts and
  schemes, upper case, text before the link, and characters outside the class.
- **The download wrapper** `YoutubeObj.Download`. `OutputTemplate` chooses
  the output template. `Download` builds the result record, which has exactly
  five keys, or returns `None` when the downloader raised.
- **The MP3 path rule** in `convertToMp3` (`mp3.dfy`, module `Mp3`).
  `WithMp3Suffix` appends `.mp3` unless the path already ends with it; the
  test is case-sensitive and the rule is idempotent. `ConvertToMp3` returns
  the normalised, resolved path, or `None` on any failure.
- **The session table** `Users` of `main.py` (`handlers.dfy`, module
  `Handlers`). Class `Bot` holds `users: map<int, Entry>` from chat id to
  `{url, video_path, audio_path}`. Its methods `Start`, `SendUrl`, `OnText`
  (the link filter in front of `SendUrl`), `DownloadVideo` and `DownloadAudio`
  update the map in place. Each states its guards (a missing row raises
  `KeyError`, an empty link returns early) and the whole new table: which
  row changes, which fields of it, and that every other chat keeps its row.

The foreign calls are parameters. `YtDlp` bundles `extract_info` and
`prepare_filename`; `Transcoder` bundles `Path.resolve` and the directory
creation plus `moviepy` transcoding; `join` stands for `os.path.join`. A
call that raises is modelled as one returning `None` (or `false`).

No download-progress, speed or ETA computation exists in these files, so
none is modelled.

## Model

| member | source | states |
|---|---|---|
| `YouTube.IsUrlIffPattern` | src/youtube.py:9-13 | `is_url(t)` holds exactly when `t` is an optional `http://`/`https://`, an optional `www.`, `youtube.com/` or `youtu.be/`, and a non-empty run of `\w - ? = & # . /`, optionally followed by one final newline |
| `YouTube.PrefixAndPathAccepted` | src/youtube.py:11 | each of the twelve prefixes followed by any non-empty run of allowed characters is accepted |
| `YouTube.PrefixPathNewlineAccepted` | src/youtube.py:11-13 | such an accepted text followed by one newline is still accepted |
| `YouTube.EmptyPathRejected` | src/youtube.py:11 | a bare host with nothing after the slash (`https://youtube.com/`) is rejected, for all twelve prefixes |
| `YouTube.NewlineOnlyPathRejected` | src/youtube.py:11-13 | a bare host followed only by the newline `$` admits is rejected |
| `YouTube.SlashlessHostRejected` | src/youtube.py:11 | a host without its slash (`youtu.be`, `https://www.youtube.com`) is rejected |
| `YouTube.ForbiddenCharAfterHostRejected` | src/youtube.py:11 | any character after the host outside `\w - ? = & # . /`, `:` included, causes rejection unless it is the single final newline |
| `YouTube.ForbiddenCharRejected` | src/youtube.py:11 | anywhere in the text, a character that is neither allowed nor `:` causes rejection unless it is the single final newline |
| `YouTube.UrlStartsWithPrefix` | src/youtube.py:11 | every accepted text starts with one of the twelve prefixes, so other hosts, subdomains and schemes are rejected |
| `YouTube.UrlFirstChar` | src/youtube.py:10-13 | the match is anchored and case-sensitive: an accepted text starts with `h`, `w` or `y`, so never with the `/` of a bot command |
| `YouTube.AcceptsFullLink` | src/youtube.py:11 | `https://www.youtube.com/w?v=a_1` is accepted |
| `YouTube.AcceptsShortLink` | src/youtube.py:11 | `youtu.be/x-#` is accepted |
| `YouTube.AcceptsOneTrailingNewline` | src/youtube.py:11-13 | `youtu.be/x` followed by one newline is accepted |
| `YouTube.RejectsEmptyPath` | src/youtube.py:11 | `https://youtube.com/` is rejected |
| `YouTube.RejectsSlashlessHost` | src/youtube.py:11 | `youtu.be` is rejected |
| `YouTube.RejectsOtherStarts` | src/youtube.py:10-13 | `HTTPS://YOUTUBE.COM/x`, `m.youtube.com/x`, `music.youtube.com/x`, `ftp://youtube.com/x` and a leading space are rejected |
| `YouTube.RejectsNewlineAndSpace` | src/youtube.py:11-13 | after `youtu.be/`, a second trailing newline or a space causes rejection |
| `YouTube.RejectsPercentPlusColon` | src/youtube.py:11 | after `youtu.be/`, `%`, `+` or `:` causes rejection |
| `YouTube.OutputTemplate` | src/youtube.py:19 | the template always ends with `%(title)s.%(ext)s`; it is exactly that when the save path is `None` or empty, and otherwise the save path, `/` and that |
| `YouTube.NoneAndEmptySavePathAgree` | src/youtube.py:19 | `None` and the empty save path give the same template |
| `YouTube.YoutubeObj.Download` | src/youtube.py:16-38 | the result is `None` exactly when `extract_info` or `prepare_filename` raised; otherwise a record with exactly the keys title, duration, uploader, filename and webpage_url, four copied with `info.get` and `filename` the prepared name |
| `Mp3.WithMp3Suffix` | src/mp4_to_mp3.py:7-8 | the result ends with `.mp3` and starts with the input; it equals the input exactly when the input already ends with `.mp3`, and otherwise is the input with `.mp3` appended |
| `Mp3.WithMp3SuffixIdempotent` | src/mp4_to_mp3.py:7-8 | normalising twice is normalising once |
| `Mp3.SuffixTestIsCaseSensitive` | src/mp4_to_mp3.py:7 | `song.MP3` becomes `song.MP3.mp3`; `song.mp3` is unchanged |
| `Mp3.ConvertToMp3` | src/mp4_to_mp3.py:5-27 | the result is `None` exactly when resolving or transcoding failed; otherwise it is the resolved normalised output path |
| `Mp3.ConvertToMp3IgnoresPriorSuffix` | src/mp4_to_mp3.py:7-10 | passing an already normalised output path gives the same result |
| `Handlers.Bot.Start` | main.py:11-18 | the chat's row, new or existing, becomes url, video_path and audio_path all `""`; the chat is added to the keys and every other chat keeps its row |
| `Handlers.Bot.SendUrl` | main.py:22-33 | a chat without a row gets url = text and empty paths; a known chat has only its url replaced; every other chat keeps its row |
| `Handlers.Bot.OnText` | main.py:21-33 | `send_url` runs only for texts `is_url` accepts; any other text leaves the table unchanged |
| `Handlers.Bot.DownloadVideo` | main.py:48-71 | a chat without a row raises `KeyError` and one with an empty url is warned, both with the table unchanged; a failed download leaves the table unchanged; a successful one sets only the chat's video_path, to the downloaded file name |
| `Handlers.Bot.DownloadAudio` | main.py:74-110 | the same guards; a failed download leaves the table unchanged; otherwise video_path becomes the downloaded file and audio_path the converter's result, possibly `None`, for `join(audios_path, title + ".mp3")`; nothing else changes |

## Left out

- IsWordChar: Python's `\w` on `str` patterns is Unicode and also accepts non-ASCII letters and digits; the model accepts only ASCII letters, digits and `_`, so it rejects some links with non-ASCII characters that the bot accepts.
- Non-text messages, where `msg.text` is `None` and the filter's `re.match` raises `TypeError`, are not modelled; texts are strings.
- The routing of `/start` by the Telegram library's command parser is not modelled; `Start` is called directly. `UrlFirstChar` shows that no accepted link can be a command.
- All Telegram I/O: the bot object, `send_message`, `reply_to`, the inline keyboard, `send_video`, `send_audio`, opening the files and `bot.polling`. `Outcome` records which way a handler ended instead of the message it sends.
- The internals of `yt_dlp` (`YoutubeDL`, `extract_info`, `prepare_filename`) are the parameter `YtDlp`; any exception inside them is `None`.
- `moviepy`, `Path.resolve`, the existence check and `mkdir` are the parameter `Transcoder`; any exception inside them is `None` or `false`.
- `os.path.join` is the parameter `join`, since its result depends on the platform.
- Values of the info dictionary other than `None` and strings (such as the number of seconds in `duration`) are kept as the text `str()` gives them, which is all the handlers use.
- The check `"filename" not in video_path` in `download_audio` is not written in `DownloadAudio`: `Download` proves that every record has that key, so the check never fires.
- `src/users.py` is not part of this model; the table starts empty. `config/config.py` is not part of this model; the two paths are constructor parameters.
- The polling threads and handler concurrency: each handler is one atomic step on the table.
- `print` logging, which has no effect on behaviour.
