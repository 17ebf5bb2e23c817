/** The quick test that streams to the speaker named DENNIS: find a
    capture device by marker, find the speaker, clear old HLS output, start
    the encoder, wait a bounded number of checks for the playlist, cast. */
module StreamDennis {
  import opened Common
  import opened DshowListing

  const TARGET_SPEAKER: string := "DENNIS"
  const PORT: string := "8000"

  /** The two markers a listing line is searched for, case-sensitively. */
  const CABLE_MARKER: string := "CABLE Output"
  const CAPTURER_MARKER: string := "virtual-audio-capturer"

  /** Number of playlist checks before giving up. */
  const PLAYLIST_CHECKS: nat := 40

  /** A listing line find_audio_device accepts: it mentions either marker
      and has a quoted name. */
  predicate Qualifies(line: string) {
    (Contains(line, CABLE_MARKER) || Contains(line, CAPTURER_MARKER)) && FirstQuoted(line).Some?
  }

  /** The first qualifying line at or after `from`. */
  function FirstQualifying(lines: seq<string>, from: nat): (r: Option<nat>)
    requires from <= |lines|
    ensures r.Some? ==> from <= r.value < |lines| && Qualifies(lines[r.value])
    ensures r.Some? ==> forall k :: from <= k < r.value ==> !Qualifies(lines[k])
    ensures r.None? ==> forall k :: from <= k < |lines| ==> !Qualifies(lines[k])
    decreases |lines| - from
  {
    if from == |lines| then None
    else if Qualifies(lines[from]) then Some(from)
    else FirstQualifying(lines, from + 1)
  }

  /** `name` is the quoted name of the first qualifying line. */
  ghost predicate FirstQualifyingName(lines: seq<string>, name: string) {
    exists k :: 0 <= k < |lines| && Qualifies(lines[k]) && FirstQuoted(lines[k]) == Some(name) &&
      forall k' :: 0 <= k' < k ==> !Qualifies(lines[k'])
  }

  /** Result of find_audio_device: a name, none, or the exception from
      running ffmpeg, which this script does not catch. */
  datatype Search = Found(name: string) | NoDevice | SearchRaised(error: string)

  /** find_audio_device: the first quoted name of the first line, in
      output order, that mentions either marker and has a quoted name.
      There is no "(audio)" filter and no priority between the markers. */
  function FindAudioDevice(run: ProcessRun): (r: Search)
    ensures run.Raised? ==> r == SearchRaised(run.error)
    ensures r.Found? ==> run.Completed? && FirstQualifyingName(Split(run.stderr, '\n'), r.name)
    ensures r == NoDevice <==> run.Completed? && forall line :: line in Split(run.stderr, '\n') ==> !Qualifies(line)
  {
    match run
    case Raised(e) => SearchRaised(e)
    case Completed(stderr) =>
      var lines := Split(stderr, '\n');
      match FirstQualifying(lines, 0)
      case Some(k) => Found(FirstQuoted(lines[k]).value)
      case None => NoDevice
  }

  /** The glob `*<suffix>` matches `name`. The script needs DirectShow, so
      it runs on Windows, where the glob ignores case. */
  predicate GlobMatches(name: string, suffix: string) {
    EndsWith(Lower(name), Lower(suffix))
  }

  /** A name `*.ts` or `*.m3u8` matches: what start_ffmpeg_hls deletes. */
  predicate IsStale(name: string) {
    GlobMatches(name, ".ts") || GlobMatches(name, ".m3u8")
  }

  /** Upper-case segment names are stale too. */
  lemma UpperCaseSegmentIsStale()
    ensures IsStale("SEG0.TS") && IsStale("STREAM.M3U8") && !IsStale("notes.txt")
  {
    assert Lower("SEG0.TS")[4..] == ".ts";
    assert Lower("STREAM.M3U8")[6..] == ".m3u8";
    assert Lower(".ts") == ".ts" && Lower(".m3u8") == ".m3u8";
    assert Lower("notes.txt")[6] == 't' && Lower("notes.txt")[4] == 's';
  }

  /** The HLS output directory, as the set of file names in it. */
  class OutDir {
    var files: set<string>

    constructor (initial: set<string>)
      ensures files == initial
    {
      files := initial;
    }

    /** Unlink every file the glob `*<suffix>` yields. */
    method UnlinkMatching(suffix: string)
      modifies this
      ensures files == set f | f in old(files) && !GlobMatches(f, suffix)
    {
      var matched := set f | f in files && GlobMatches(f, suffix);
      UnlinkAll(matched);
    }

    /** The loop over the glob's results: unlink them one at a time. */
    method UnlinkAll(victims: set<string>)
      requires victims <= files
      modifies this
      ensures files == old(files) - victims
    {
      var left := victims;
      while left != {}
        invariant left <= victims
        invariant files == old(files) - (victims - left)
        decreases |left|
      {
        var f :| f in left;
        files := files - {f};
        left := left - {f};
      }
    }

    /** The cleanup in start_ffmpeg_hls: every `*.ts` file, then every
        `*.m3u8` file, is deleted; no other file is touched. */
    method RemoveStaleOutput()
      modifies this
      ensures files == set f | f in old(files) && !IsStale(f)
      ensures forall f :: f in files ==> !IsStale(f)
    {
      UnlinkMatching(".ts");
      UnlinkMatching(".m3u8");
    }
  }

  /** What the playlist check sees: the file missing, or its size. */
  datatype Playlist = Absent | Present(size: nat)

  predicate PlaylistReady(p: Playlist) { p.Present? && p.size > 0 }

  /** The wait for the playlist: at most PLAYLIST_CHECKS checks, stopping
      at the first check that finds the file present and non-empty.
      `seen[k]` is what check `k` finds; a check past its end finds no file. */
  method WaitForPlaylist(seen: seq<Playlist>) returns (ready: bool, checks: nat)
    ensures checks <= PLAYLIST_CHECKS
    ensures ready ==> 0 < checks && PlaylistReady(At(seen, checks - 1, Absent))
    ensures forall k :: 0 <= k < checks - 1 ==> !PlaylistReady(At(seen, k, Absent))
    ensures !ready ==> checks == PLAYLIST_CHECKS && forall k :: 0 <= k < PLAYLIST_CHECKS ==> !PlaylistReady(At(seen, k, Absent))
  {
    checks := 0;
    while checks < PLAYLIST_CHECKS
      invariant checks <= PLAYLIST_CHECKS
      invariant forall k :: 0 <= k < checks ==> !PlaylistReady(At(seen, k, Absent))
    {
      var p := At(seen, checks, Absent);
      checks := checks + 1;
      if PlaylistReady(p) {
        return true, checks;
      }
    }
    ready := false;
  }

  /** What the script did, in order. `ClearOutput` is the cleanup at the
      start of start_ffmpeg_hls, with the files it deleted. */
  datatype Step =
    | StartHttpServer
    | ClearOutput(removed: set<string>)
    | StartEncoder(device: string)
    | TerminateEncoder
    | StopDiscovery
    | CastStream(url: string)

  /** How the script ended: an exit code, an uncaught exception, or the
      normal stop after the cast. */
  datatype Exit = ExitCode(code: int) | Crashed | Stopped

  /** Everything main learns from the outside world. The three errors are
      exceptions main does not catch: from get_listed_chromecasts, from
      starting the HTTP server (say, the port is taken), and from the cast
      itself (`cast.wait`, `play_media`, `block_until_active`, `play`). */
  datatype World = World(
    listing: ProcessRun,
    localIp: string,
    discoveryError: Option<string>,
    speakerFound: bool,      // get_listed_chromecasts found TARGET_SPEAKER
    serverError: Option<string>,
    playlist: seq<Playlist>, // what each playlist check sees
    castError: Option<string>)

  /** Some check within the bound finds the playlist ready. */
  ghost predicate PlaylistAppears(seen: seq<Playlist>) {
    exists k :: 0 <= k < PLAYLIST_CHECKS && PlaylistReady(At(seen, k, Absent))
  }

  /** The run gets as far as start_ffmpeg_hls: a device and the speaker
      are found and the server starts. */
  predicate EncoderStarts(w: World) {
    FindAudioDevice(w.listing).Found? && w.discoveryError.None? && w.speakerFound && w.serverError.None?
  }

  function StreamUrl(ip: string): string { "http://" + ip + ":" + PORT + "/stream.m3u8" }

  /** main: a missing device or speaker ends the run with exit code 1
      before the server starts; an exception from discovery or the server
      crashes it before the output is touched. Otherwise the stale output is
      cleared before the encoder starts; a playlist that never appears
      terminates the encoder, stops discovery and exits 1; a cast that raises
      crashes the run with the encoder still running; otherwise the stream
      is cast, discovery stopped and, at the end, the encoder terminated.
      The directory is the one the encoder starts on. */
  method RunScript(w: World, dir: OutDir) returns (steps: seq<Step>, exit: Exit)
    modifies dir
    ensures w.listing.Raised? ==> exit == Crashed && steps == []
    ensures FindAudioDevice(w.listing) == NoDevice ==> exit == ExitCode(1) && steps == []
    ensures FindAudioDevice(w.listing).Found? && w.discoveryError.Some? ==> exit == Crashed && steps == []
    ensures FindAudioDevice(w.listing).Found? && w.discoveryError.None? && !w.speakerFound ==>
      exit == ExitCode(1) && steps == [StopDiscovery]
    ensures FindAudioDevice(w.listing).Found? && w.discoveryError.None? && w.speakerFound && w.serverError.Some? ==>
      exit == Crashed && steps == []
    ensures !EncoderStarts(w) ==> dir.files == old(dir.files)
    ensures EncoderStarts(w) ==>
      && dir.files == set f | f in old(dir.files) && !IsStale(f)
      && |steps| >= 3
      && steps[..3] == [StartHttpServer, ClearOutput(set f | f in old(dir.files) && IsStale(f)),
                        StartEncoder(FindAudioDevice(w.listing).name)]
      && (if !PlaylistAppears(w.playlist)
          then exit == ExitCode(1) && steps[3..] == [TerminateEncoder, StopDiscovery]
          else if w.castError.Some?
          then exit == Crashed && steps[3..] == []
          else exit == Stopped && steps[3..] == [CastStream(StreamUrl(w.localIp)), StopDiscovery, TerminateEncoder])
  {
    steps := [];
    var search := FindAudioDevice(w.listing);
    if search.SearchRaised? {
      return steps, Crashed;
    }
    if search.NoDevice? {
      return steps, ExitCode(1);
    }
    if w.discoveryError.Some? {
      return steps, Crashed;
    }
    if !w.speakerFound {
      steps := [StopDiscovery];
      return steps, ExitCode(1);
    }
    if w.serverError.Some? {
      return steps, Crashed;
    }
    var removed := set f | f in dir.files && IsStale(f);
    dir.RemoveStaleOutput();
    var started := [StartHttpServer, ClearOutput(removed), StartEncoder(search.name)];
    var ending;
    ending, exit := AfterEncoderStarts(w);
    steps := started + ending;
    assert steps[..3] == started && steps[3..] == ending;
  }

  /** The rest of main once the encoder runs: wait for the playlist, then
      cast; without a playlist the encoder and discovery are stopped, and a
      cast that raises leaves both running. */
  method AfterEncoderStarts(w: World) returns (ending: seq<Step>, exit: Exit)
    ensures !PlaylistAppears(w.playlist) ==> exit == ExitCode(1) && ending == [TerminateEncoder, StopDiscovery]
    ensures PlaylistAppears(w.playlist) && w.castError.Some? ==> exit == Crashed && ending == []
    ensures PlaylistAppears(w.playlist) && w.castError.None? ==>
      exit == Stopped && ending == [CastStream(StreamUrl(w.localIp)), StopDiscovery, TerminateEncoder]
  {
    var ready, checks := WaitForPlaylist(w.playlist);
    if !ready {
      ending, exit := [TerminateEncoder, StopDiscovery], ExitCode(1);
    } else if w.castError.Some? {
      ending, exit := [], Crashed;
    } else {
      ending, exit := [CastStream(StreamUrl(w.localIp)), StopDiscovery, TerminateEncoder], Stopped;
    }
  }
}
