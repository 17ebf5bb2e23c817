/** The interactive streaming script: find a capture device, let the user
    pick a speaker by number, cast an HLS stream and fall back to an MP3
    stream when HLS does not come up. Processes, servers and the console are
    replaced by their observable outcomes. */
module StreamToNest {
  import opened Common
  import opened DshowListing

  /** The port the HTTP and MP3 servers listen on (PORT). */
  const PORT: string := "8000"

  /** find_capture_device: list the DirectShow audio devices and pick one
      by AUDIO_DEVICES priority. */
  method FindCaptureDevice(run: ProcessRun) returns (device: Option<string>)
    ensures device.Some? ==> run.Completed? && device.value in AudioDeviceNames(Split(run.stderr, '\n'))
    ensures run.Raised? ==> device == None
    ensures run.Completed? ==> device == PreferredDevice(AUDIO_DEVICES, AudioDeviceNames(Split(run.stderr, '\n')))
  {
    var available := ListAudioDevices(run);
    device := PreferredDevice(AUDIO_DEVICES, available);
  }

  // ---------------------------------------------------------------------
  // Reading the user's choice: `int(input(...).strip()) - 1`

  /** Characters Python's `str.strip()` removes: those `str.isspace()`
      accepts, namely the ASCII controls TAB to CR and FS to US, the space,
      NEL, NO-BREAK SPACE and the Unicode space separators. */
  predicate IsSpace(c: char) {
    if c <= ' ' then c == ' ' || '\U{0009}' <= c <= '\U{000D}' || '\U{001C}' <= c <= '\U{001F}'
    else if c < '\U{0085}' then false
    else IsWideSpace(c)
  }

  /** The white space characters beyond ASCII. */
  predicate IsWideSpace(c: char) {
    c == '\U{0085}' || c == '\U{00A0}' || c == '\U{1680}' || ('\U{2000}' <= c <= '\U{200A}') ||
    c == '\U{2028}' || c == '\U{2029}' || c == '\U{202F}' || c == '\U{205F}' || c == '\U{3000}'
  }

  /** Index of the first non-space character of `s` at or after `from`. */
  function SkipSpaces(s: string, from: nat): (r: nat)
    requires from <= |s|
    ensures from <= r <= |s|
    ensures r < |s| ==> !IsSpace(s[r])
    ensures forall k :: from <= k < r ==> IsSpace(s[k])
    decreases |s| - from
  {
    if from == |s| || !IsSpace(s[from]) then from else SkipSpaces(s, from + 1)
  }

  /** End of `s[..to]` once its trailing spaces are dropped. */
  function DropTrailingSpaces(s: string, to: nat): (r: nat)
    requires to <= |s|
    ensures r <= to
    ensures r > 0 ==> !IsSpace(s[r - 1])
    ensures forall k :: r <= k < to ==> IsSpace(s[k])
  {
    if to == 0 || !IsSpace(s[to - 1]) then to else DropTrailingSpaces(s, to - 1)
  }

  /** `s.strip()`: `s` without its leading and trailing white space. */
  function Strip(s: string): string {
    var lo := SkipSpaces(s, 0);
    var hi := DropTrailingSpaces(s, |s|);
    if lo < hi then s[lo..hi] else []
  }

  /** The result of `strip()` neither starts nor ends with white space,
      and it is empty exactly when `s` is all white space. */
  lemma StripTrims(s: string)
    ensures |Strip(s)| > 0 ==> !IsSpace(Strip(s)[0]) && !IsSpace(Strip(s)[|Strip(s)| - 1])
    ensures (forall k :: 0 <= k < |s| ==> IsSpace(s[k])) <==> Strip(s) == []
  {
  }

  /** `r` is `s[lo..hi]` and only white space lies outside that slice. */
  ghost predicate StrippedTo(s: string, r: string, lo: int, hi: int) {
    0 <= lo <= hi <= |s| && r == s[lo..hi] &&
    (forall k :: 0 <= k < lo ==> IsSpace(s[k])) && (forall k :: hi <= k < |s| ==> IsSpace(s[k]))
  }

  /** `strip()` removes only white space, and only at the two ends: the
      result is a slice of `s` with nothing but white space around it. */
  lemma StripKeepsMiddle(s: string)
    ensures exists lo, hi :: StrippedTo(s, Strip(s), lo, hi)
  {
    var lo := SkipSpaces(s, 0);
    var hi := DropTrailingSpaces(s, |s|);
    if lo >= hi {
      assert StrippedTo(s, Strip(s), |s|, |s|);
    } else {
      assert StrippedTo(s, Strip(s), lo, hi);
    }
  }

  /** Python's `int(s)` for an optionally signed run of ASCII digits;
      anything else raises ValueError, here None. */
  function ParseInt(s: string): (r: Option<int>)
    ensures r.Some? ==> |s| > 0
  {
    if |s| > 0 && (s[0] == '+' || s[0] == '-') then
      var digits := s[1..];
      if |digits| > 0 && AllDigits(digits) then
        Some(if s[0] == '-' then 0 - DigitsValue(digits) else DigitsValue(digits) as int)
      else None
    else if |s| > 0 && AllDigits(s) then Some(DigitsValue(s))
    else None
  }

  /** What `int()` accepts: an optional sign followed by digits only, and
      a negative result only with a leading minus; every plain run of digits
      is accepted. */
  lemma ParseIntShape(s: string)
    ensures ParseInt(s).Some? ==> |s| > 0 && (IsDigit(s[0]) || s[0] == '+' || s[0] == '-')
    ensures ParseInt(s).Some? ==> forall k :: 0 < k < |s| ==> IsDigit(s[k])
    ensures ParseInt(s).Some? && ParseInt(s).value < 0 ==> s[0] == '-'
    ensures |s| > 0 && AllDigits(s) ==> ParseInt(s).Some?
  {
    if ParseInt(s).Some? && (s[0] == '+' || s[0] == '-') {
      assert forall k :: 0 < k < |s| ==> s[k] == s[1..][k - 1];
    }
  }

  /** Typing the number `n` back is read as `n`: parsing inverts printing. */
  lemma ParseIntOfDecimal(n: nat)
    ensures ParseInt(DecimalDigits(n)) == Some(n)
  {
    DigitsValueOfDecimal(n);
  }

  /** The list index a typed answer denotes, `int(choice.strip()) - 1`. */
  function ChoiceIndex(answer: string): Option<int> {
    match ParseInt(Strip(answer))
    case Some(n) => Some(n - 1)
    case None => None
  }

  /** An answer select_speaker accepts for a list of `count` speakers. */
  predicate ValidChoice(answer: string, count: nat) {
    ChoiceIndex(answer).Some? && 0 <= ChoiceIndex(answer).value < count
  }

  /** One prompt of select_speaker: the index the answer selects, or None
      when it is not a number within 1..count. */
  method ReadChoice(answer: string, count: nat) returns (idx: Option<nat>)
    ensures idx.Some? <==> ValidChoice(answer, count)
    ensures idx.Some? ==> idx.value < count && ChoiceIndex(answer) == Some(idx.value as int)
  {
    var parsed := ChoiceIndex(answer);
    if parsed.Some? && 0 <= parsed.value < count {
      idx := Some(parsed.value);
    } else {
      idx := None;
    }
  }

  /** A speaker as discover_speakers reports it. */
  datatype Speaker = Speaker(name: string, model: string, ip: string, castType: string)

  /** The position of the first answer select_speaker accepts, if any. */
  function FirstValid(answers: seq<string>, count: nat): (r: Option<nat>)
    ensures r.Some? ==> r.value < |answers| && ValidChoice(answers[r.value], count)
  {
    if |answers| == 0 then None
    else if ValidChoice(answers[0], count) then Some(0)
    else match FirstValid(answers[1..], count)
      case Some(i) => Some(i + 1)
      case None => None
  }

  /** No answer before the first valid one is valid, and there is none
      exactly when every answer is invalid. */
  lemma {:induction false} FirstValidIsFirst(answers: seq<string>, count: nat)
    ensures FirstValid(answers, count).Some? ==>
      forall k :: 0 <= k < FirstValid(answers, count).value ==> !ValidChoice(answers[k], count)
    ensures FirstValid(answers, count).None? <==> forall k :: 0 <= k < |answers| ==> !ValidChoice(answers[k], count)
  {
    if |answers| > 0 && !ValidChoice(answers[0], count) {
      var rest := answers[1..];
      FirstValidIsFirst(rest, count);
      forall k | 1 <= k < |answers|
        ensures answers[k] == rest[k - 1]
      {
      }
    }
  }

  /** An answer that is valid after only invalid ones is the first valid one. */
  lemma FirstValidAt(answers: seq<string>, count: nat, i: nat)
    requires i < |answers| && ValidChoice(answers[i], count)
    requires forall k :: 0 <= k < i ==> !ValidChoice(answers[k], count)
    ensures FirstValid(answers, count) == Some(i)
  {
    FirstValidIsFirst(answers, count);
  }

  /** The speaker select_speaker returns: the one the first valid answer
      names, or None when the answers run out first. */
  function Selected(speakers: seq<Speaker>, answers: seq<string>): Option<Speaker> {
    match FirstValid(answers, |speakers|)
    case Some(i) => Some(speakers[ChoiceIndex(answers[i]).value])
    case None => None
  }

  /** The prompt loop of select_speaker: read answers until one is a
      number within 1..count. `read` answers are consumed; `idx` is the
      index the last of them selects, or None when the answers ran out. */
  method PromptUntilValid(answers: seq<string>, count: nat) returns (idx: Option<nat>, read: nat)
    ensures read <= |answers|
    ensures forall k :: 0 <= k < read - 1 ==> !ValidChoice(answers[k], count)
    ensures idx.Some? ==> 0 < read && ValidChoice(answers[read - 1], count)
    ensures idx.Some? ==> idx.value < count && ChoiceIndex(answers[read - 1]) == Some(idx.value as int)
    ensures idx.None? ==> read == |answers| && forall k :: 0 <= k < |answers| ==> !ValidChoice(answers[k], count)
  {
    read := 0;
    while read < |answers|
      invariant read <= |answers|
      invariant forall k :: 0 <= k < read ==> !ValidChoice(answers[k], count)
    {
      idx := ReadChoice(answers[read], count);
      read := read + 1;
      if idx.Some? {
        return;
      }
    }
    idx := None;
  }

  /** select_speaker: re-prompt until an answer is a number within 1..|speakers|.
      `answers` are the lines the user types; running out of them is the
      EOFError that input() raises, reported as None. */
  method SelectSpeaker(speakers: seq<Speaker>, answers: seq<string>) returns (chosen: Option<Speaker>, read: nat)
    ensures read <= |answers|
    ensures forall k :: 0 <= k < read - 1 ==> !ValidChoice(answers[k], |speakers|)
    ensures chosen.Some? ==> 0 < read && ValidChoice(answers[read - 1], |speakers|)
    ensures chosen.Some? ==> chosen.value == speakers[ChoiceIndex(answers[read - 1]).value]
    ensures chosen.None? ==> read == |answers| && forall k :: 0 <= k < |answers| ==> !ValidChoice(answers[k], |speakers|)
    ensures chosen == Selected(speakers, answers)
  {
    var idx;
    idx, read := PromptUntilValid(answers, |speakers|);
    if idx.Some? {
      FirstValidAt(answers, |speakers|, read - 1);
      chosen := Some(speakers[idx.value]);
    } else {
      FirstValidIsFirst(answers, |speakers|);
      chosen := None;
    }
  }

  /** Typing the 1-based position of a listed speaker selects that speaker
      at the first prompt. */
  lemma TypedPositionSelects(speakers: seq<Speaker>, i: nat)
    requires i < |speakers|
    ensures ValidChoice(DecimalDigits(i + 1), |speakers|)
    ensures ChoiceIndex(DecimalDigits(i + 1)) == Some(i)
  {
    var s := DecimalDigits(i + 1);
    assert !IsSpace(s[0]) && !IsSpace(s[|s| - 1]);
    assert Strip(s) == s;
    ParseIntOfDecimal(i + 1);
  }

  /** The control characters U+001C..U+001F are white space to `str.strip()`,
      so an answer led by one still selects by its number. */
  lemma SeparatorPrefixedAnswerSelects(count: nat)
    requires count >= 2
    ensures ValidChoice("\U{001F}2", count)
    ensures ChoiceIndex("\U{001F}2") == Some(1)
  {
  }

  // ---------------------------------------------------------------------
  // main: HLS first, MP3 fallback

  /** How a call of cast_to_speaker ended. */
  datatype CastAttempt = Returned | Interrupted | Failed(error: string)

  /** What the script did, in order. */
  datatype Step =
    | StartHttpServer
    | StartHlsEncoder(device: string)
    | CastStream(speaker: Speaker, url: string, contentType: string)
    | TerminateHls
    | StartMp3Encoder(device: string)
    | StartMp3Server
    | TerminateMp3

  /** How the script ended: an exit code, an uncaught exception, or the
      normal stop after the casts. */
  datatype Exit = ExitCode(code: int) | Crashed | Stopped

  /** Everything main learns from the outside world. The two errors are
      the exceptions main does not catch: one raised by the discovery scan,
      and one raised while the HTTP server starts (say, the port is taken). */
  datatype World = World(
    ffmpegOnPath: bool,
    listing: ProcessRun,
    localIp: string,
    discoveryError: Option<string>,
    speakers: seq<Speaker>,
    answers: seq<string>,
    serverError: Option<string>,
    playlistReady: bool,   // wait_for_playlist's verdict
    hlsCast: CastAttempt)  // cast_to_speaker on the HLS URL

  function HlsUrl(ip: string): string { "http://" + ip + ":" + PORT + "/stream.m3u8" }

  function Mp3Url(ip: string): string { "http://" + ip + ":" + PORT + "/live.mp3" }

  /** The MP3 fallback: stop the HLS encoder, start the MP3 encoder and
      its server, cast the MP3 URL to the speaker, and stop the MP3 encoder
      at the end. */
  function Mp3Fallback(device: string, ip: string, speaker: Speaker): seq<Step> {
    [TerminateHls, StartMp3Encoder(device), StartMp3Server,
     CastStream(speaker, Mp3Url(ip), "audio/mpeg"), TerminateMp3]
  }

  /** main: the run stops early with exit code 1 when ffmpeg, a capture
      device or any speaker is missing, and crashes when discovery raises,
      the answers run out or the server cannot start; otherwise it starts
      the server and the HLS encoder, casts the HLS URL to the selected
      speaker once the playlist is ready, and falls back to MP3 on the same
      speaker exactly when hls_success stayed false, that is unless the
      playlist appeared and cast_to_speaker returned normally. */
  method RunScript(w: World) returns (steps: seq<Step>, exit: Exit, device: Option<string>, usedMp3: bool)
    ensures w.ffmpegOnPath ==> device == (if w.listing.Completed?
      then PreferredDevice(AUDIO_DEVICES, AudioDeviceNames(Split(w.listing.stderr, '\n'))) else None)
    ensures exit == ExitCode(1) <==>
      !w.ffmpegOnPath || device.None? || (w.discoveryError.None? && |w.speakers| == 0)
    ensures exit.Crashed? <==> (w.ffmpegOnPath && device.Some? &&
      (w.discoveryError.Some? ||
       (|w.speakers| > 0 && (Selected(w.speakers, w.answers).None? || w.serverError.Some?))))
    ensures exit.ExitCode? || exit.Crashed? ==> steps == [] && !usedMp3
    ensures exit.Stopped? ==> (usedMp3 <==> !(w.playlistReady && w.hlsCast.Returned?))
    ensures exit.Stopped? ==> Selected(w.speakers, w.answers).Some?
    ensures exit.Stopped? ==> forall k :: 0 <= k < |steps| && steps[k].CastStream? ==>
      steps[k].speaker == Selected(w.speakers, w.answers).value
    ensures exit.Stopped? ==> (device.Some? && steps ==
      [StartHttpServer, StartHlsEncoder(device.value)]
      + (if w.playlistReady
         then [CastStream(Selected(w.speakers, w.answers).value, HlsUrl(w.localIp), "application/x-mpegURL")]
         else [])
      + (if usedMp3 then Mp3Fallback(device.value, w.localIp, Selected(w.speakers, w.answers).value) else [])
      + [TerminateHls])
  {
    steps, device, usedMp3 := [], None, false;
    if !w.ffmpegOnPath {
      return steps, ExitCode(1), device, usedMp3;
    }
    device := FindCaptureDevice(w.listing);
    if device.None? {
      return steps, ExitCode(1), device, usedMp3;
    }
    if w.discoveryError.Some? {
      return steps, Crashed, device, usedMp3;
    }
    if |w.speakers| == 0 {
      return steps, ExitCode(1), device, usedMp3;
    }
    var speaker, _ := SelectSpeaker(w.speakers, w.answers);
    if speaker.None? {
      return steps, Crashed, device, usedMp3;
    }
    if w.serverError.Some? {
      return steps, Crashed, device, usedMp3;
    }
    steps, usedMp3 := StreamTo(device.value, w.localIp, speaker.value, w.playlistReady, w.hlsCast);
    exit := Stopped;
  }

  /** The streaming half of main, once a speaker is selected: the server
      and the HLS encoder, the HLS cast when the playlist is ready, and the
      MP3 fallback unless that cast returned normally. Every cast goes to
      `speaker`. */
  method StreamTo(device: string, ip: string, speaker: Speaker, playlistReady: bool, hlsCast: CastAttempt)
    returns (steps: seq<Step>, usedMp3: bool)
    ensures usedMp3 <==> !(playlistReady && hlsCast.Returned?)
    ensures forall k :: 0 <= k < |steps| && steps[k].CastStream? ==> steps[k].speaker == speaker
    ensures steps ==
      [StartHttpServer, StartHlsEncoder(device)]
      + (if playlistReady then [CastStream(speaker, HlsUrl(ip), "application/x-mpegURL")] else [])
      + (if usedMp3 then Mp3Fallback(device, ip, speaker) else [])
      + [TerminateHls]
  {
    var started := [StartHttpServer, StartHlsEncoder(device)];
    var hlsSuccess := false;
    var hlsStep: seq<Step> := [];
    if playlistReady {
      hlsStep := [CastStream(speaker, HlsUrl(ip), "application/x-mpegURL")];
      if hlsCast.Returned? {
        hlsSuccess := true;
      }
    }

    var fallback: seq<Step> := [];
    usedMp3 := false;
    if !hlsSuccess {
      usedMp3 := true;
      fallback := Mp3Fallback(device, ip, speaker);
    }
    steps := started + hlsStep + fallback + [TerminateHls];
  }
}
