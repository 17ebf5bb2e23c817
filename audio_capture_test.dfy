/** The system self-test script: is ffmpeg there, which capture device
    would be used, is pychromecast importable, which speakers answer, and
    does a short capture work; then a summary with an overall verdict. */
module AudioCaptureTest {
  import opened Common
  import opened DshowListing

  /** A discovered Cast device, as far as the script reads it. */
  datatype CastDevice = CastDevice(name: string, model: string, host: string)

  /** Outcome of `pychromecast.get_chromecasts()` and the attribute reads
      that follow it. */
  datatype DiscoveryRun = Discovered(devices: seq<CastDevice>) | DiscoveryRaised(error: string)

  /** One speaker record of discover_speakers. */
  datatype SpeakerRecord = SpeakerRecord(name: string, model: string, ip: string)

  /** discover_speakers: one record per discovered device, in discovery
      order; nothing found or any exception gives the empty list. */
  method DiscoverSpeakers(run: DiscoveryRun) returns (speakers: seq<SpeakerRecord>)
    ensures run.DiscoveryRaised? ==> speakers == []
    ensures run.Discovered? ==> |speakers| == |run.devices|
    ensures run.Discovered? ==> forall i :: 0 <= i < |speakers| ==>
      speakers[i] == SpeakerRecord(run.devices[i].name, run.devices[i].model, run.devices[i].host)
  {
    match run
    case DiscoveryRaised(_) =>
      speakers := [];
    case Discovered(devices) =>
      speakers := [];
      if |devices| == 0 {
        return;
      }
      var i := 0;
      while i < |devices|
        invariant 0 <= i <= |devices|
        invariant |speakers| == i
        invariant forall k :: 0 <= k < i ==>
          speakers[k] == SpeakerRecord(devices[k].name, devices[k].model, devices[k].host)
      {
        var cc := devices[i];
        speakers := speakers + [SpeakerRecord(cc.name, cc.model, cc.host)];
        i := i + 1;
      }
  }

  /** Outcome of the three-second `ffmpeg ... -f null -` capture run. */
  datatype CaptureRun = Exited(code: int) | TimedOut | CaptureRaised(error: string)

  /** test_ffmpeg_capture: the capture works exactly when ffmpeg exited
      with status 0; a timeout or any other exception is a failure. */
  function TestFfmpegCapture(run: CaptureRun): (ok: bool)
    ensures ok <==> run == Exited(0)
  {
    match run
    case Exited(code) => code == 0
    case TimedOut => false
    case CaptureRaised(_) => false
  }

  /** Everything main learns from the outside world. */
  datatype World = World(
    ffmpegOnPath: bool,
    listing: ProcessRun,
    pychromecastImports: bool,
    discovery: DiscoveryRun,
    capture: CaptureRun)

  /** What main prints last, or that it stopped early with exit code 1. */
  datatype Report =
    | Aborted
    | Summary(ffmpegLine: string, deviceLine: string, pychromecastLine: string,
              speakersFound: nat, ready: bool, captureTested: Option<bool>)

  /** The summary's FFmpeg line. It tests the function object
      `check_ffmpeg`, not a result of calling it, and a function object is
      always true, so the line can only read "[OK]". */
  function FfmpegSummaryLine(): string { "[OK]" }

  /** main: stop when ffmpeg is missing; otherwise report the capture
      device, pychromecast, the speakers (discovered only when pychromecast
      imports) and the capture test (run only when a device was found).
      The verdict is READY exactly when a capture device was found,
      pychromecast imported and at least one speaker answered. */
  method RunScript(w: World) returns (report: Report)
    ensures report.Aborted? <==> !w.ffmpegOnPath
    ensures report.Summary? ==> report.ffmpegLine == "[OK]"
    ensures report.Summary? ==>
      var device := if w.listing.Completed? then PreferredDevice(AUDIO_DEVICES, AudioDeviceNames(Split(w.listing.stderr, '\n'))) else None;
      && report.deviceLine == (if device.Some? then device.value else "[NONE]")
      && report.pychromecastLine == (if w.pychromecastImports then "[OK]" else "[MISSING]")
      && report.speakersFound == (if w.pychromecastImports && w.discovery.Discovered? then |w.discovery.devices| else 0)
      && (report.ready <==> device.Some? && w.pychromecastImports && report.speakersFound > 0)
      && report.captureTested == (if device.Some? then Some(TestFfmpegCapture(w.capture)) else None)
  {
    if !w.ffmpegOnPath {
      return Aborted;
    }
    var available := ListAudioDevices(w.listing);
    var device := PreferredDevice(AUDIO_DEVICES, available);
    var speakers: seq<SpeakerRecord> := [];
    if w.pychromecastImports {
      speakers := DiscoverSpeakers(w.discovery);
    }
    var tested: Option<bool> := None;
    if device.Some? {
      tested := Some(TestFfmpegCapture(w.capture));
    }
    report := Summary(
      FfmpegSummaryLine(),
      if device.Some? then device.value else "[NONE]",
      if w.pychromecastImports then "[OK]" else "[MISSING]",
      |speakers|,
      device.Some? && w.pychromecastImports && |speakers| > 0,
      tested);
  }
}
