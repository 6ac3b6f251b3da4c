/** `convertToMp3`: extracts the audio track of a video file into an `.mp3`
    file. The bot's own logic is the normalisation of the output path; the
    path resolution, the directory creation and the transcoding are foreign
    calls, passed in as a `Transcoder`. */
module Mp3 {

  import opened Wrappers

  const Mp3Suffix: string := ".mp3"

  predicate EndsWith(s: string, suffix: string) {
    |suffix| <= |s| && s[|s| - |suffix|..] == suffix
  }

  /** The output path with `.mp3` appended unless it already ends with it.
      The test is case-sensitive. */
  function WithMp3Suffix(path: string): (r: string)
    ensures EndsWith(r, Mp3Suffix)
    ensures |path| <= |r| && r[..|path|] == path
    ensures r == path <==> EndsWith(path, Mp3Suffix)
    ensures r != path ==> r == path + Mp3Suffix
  {
    if EndsWith(path, Mp3Suffix) then path else path + Mp3Suffix
  }

  /** Normalising twice gives what normalising once gives. */
  lemma WithMp3SuffixIdempotent(path: string)
    ensures WithMp3Suffix(WithMp3Suffix(path)) == WithMp3Suffix(path)
  {
  }

  /** The suffix test is case-sensitive: an upper-case extension is kept and
      `.mp3` is appended after it. */
  lemma SuffixTestIsCaseSensitive()
    ensures WithMp3Suffix("song.MP3") == "song.MP3.mp3"
    ensures WithMp3Suffix("song.mp3") == "song.mp3"
  {
    assert !EndsWith("song.MP3", Mp3Suffix) by { assert "song.MP3"[5] != Mp3Suffix[1]; }
    assert EndsWith("song.mp3", Mp3Suffix) by { assert "song.mp3"[4..] == Mp3Suffix; }
  }

  /** The foreign collaborators: `resolve` is `Path(p).resolve()` and
      `writeAudiofile(video, out)` creates the parent directory of `out` when
      it is missing, opens the video with `VideoFileClip` and writes its audio
      track as MP3. `None` and `false` mean the call raised. */
  datatype Transcoder = Transcoder(
    resolve: string -> Option<string>,
    writeAudiofile: (string, string) -> bool)

  /** Converts `link` into the normalised, resolved output path. Every failure
      is caught and yields `None`; success yields that path. */
  function ConvertToMp3(link: string, outputPath: string, tc: Transcoder): (r: Option<string>)
    ensures var target := tc.resolve(WithMp3Suffix(outputPath));
      && (r.Some? <==> target.Some? && tc.writeAudiofile(link, target.value))
      && (r.Some? ==> r == target)
  {
    match tc.resolve(WithMp3Suffix(outputPath))
    case None => None
    case Some(target) => if tc.writeAudiofile(link, target) then Some(target) else None
  }

  /** Normalising the output path before the call changes nothing. */
  lemma {:induction false} ConvertToMp3IgnoresPriorSuffix(link: string, outputPath: string, tc: Transcoder)
    ensures ConvertToMp3(link, WithMp3Suffix(outputPath), tc) == ConvertToMp3(link, outputPath, tc)
  {
    WithMp3SuffixIdempotent(outputPath);
  }
}
