/** Parsing of ffmpeg's DirectShow device listing
    (`ffmpeg -list_devices true -f dshow -i dummy`, printed on stderr) and
    the choice of a capture device by a priority list. stream_to_nest.py
    and test_audio_capture.py carry identical copies of this code. */
module DshowListing {
  import opened Common

  /** Device names searched for, most preferred first (AUDIO_DEVICES). */
  const AUDIO_DEVICES: seq<string> :=
    ["virtual-audio-capturer", "CABLE Output (VB-Audio Virtual Cable)"]

  /** Marker that tags an audio line in the listing. */
  const AUDIO_MARKER: string := "(audio)"

  /** The regular expression `"([^"]+)"` matches `s` starting at `i` and
      ending at the closing quote `j`: a quote, at least one non-quote
      character, a quote. */
  ghost predicate QuotedAt(s: string, i: int, j: int) {
    0 <= i && i + 1 < j < |s| && s[i] == '"' && s[j] == '"' &&
    forall k :: i < k < j ==> s[k] != '"'
  }

  /** `re.search` from position `from`: the leftmost match, as the pair
      (opening quote, closing quote). */
  function FirstMatchFrom(s: string, from: nat): (r: Option<(nat, nat)>)
    requires from <= |s|
    ensures r.Some? ==> from <= r.value.0 && QuotedAt(s, r.value.0, r.value.1)
    ensures r.Some? ==> forall i, j :: from <= i < r.value.0 ==> !QuotedAt(s, i, j)
    ensures r.None? ==> forall i, j :: from <= i ==> !QuotedAt(s, i, j)
    decreases |s| - from
  {
    var open := IndexOf(s, '"', from);
    if open == |s| then None
    else
      var close := IndexOf(s, '"', open + 1);
      if close == |s| then None
      else if close == open + 1 then FirstMatchFrom(s, close)
      else Some((open, close))
  }

  /** `re.search(r'"([^"]+)"', line).group(1)`, or None when nothing matches. */
  function FirstQuoted(line: string): (r: Option<string>)
    ensures r.Some? ==> |r.value| > 0 && '"' !in r.value
    ensures r.Some? <==> exists i, j :: QuotedAt(line, i, j)
  {
    match FirstMatchFrom(line, 0)
    case Some((i, j)) => Some(line[i + 1..j])
    case None => None
  }

  /** The match at (`i`, `j`) is the leftmost one in `s`. */
  ghost predicate LeftmostQuoted(s: string, i: int, j: int) {
    QuotedAt(s, i, j) && forall i', j' :: 0 <= i' < i ==> !QuotedAt(s, i', j')
  }

  /** `group(1)` is the text between the quotes of the leftmost match. */
  lemma FirstQuotedLeftmost(line: string)
    ensures FirstQuoted(line).Some? ==>
      exists i, j :: LeftmostQuoted(line, i, j) && FirstQuoted(line).value == line[i + 1..j]
  {
    match FirstMatchFrom(line, 0)
    case Some((i, j)) =>
      assert LeftmostQuoted(line, i, j);
    case None =>
  }

  /** The names one listing line contributes: its first quoted name, when
      the line is tagged "(audio)" and has one. */
  function LineDevice(line: string): seq<string> {
    if Contains(line, AUDIO_MARKER) then
      match FirstQuoted(line)
      case Some(name) => [name]
      case None => []
    else []
  }

  /** Specification of the listing parse: the audio names of `lines`, in
      line order. */
  function AudioDeviceNames(lines: seq<string>): seq<string> {
    if |lines| == 0 then []
    else AudioDeviceNames(lines[..|lines| - 1]) + LineDevice(lines[|lines| - 1])
  }

  /** The parse is taken line by line: the names of a concatenation are the
      names of its parts, in order. */
  lemma {:induction false} AudioDeviceNamesAppend(a: seq<string>, b: seq<string>)
    ensures AudioDeviceNames(a + b) == AudioDeviceNames(a) + AudioDeviceNames(b)
    decreases |b|
  {
    if |b| > 0 {
      var b' := b[..|b| - 1];
      assert (a + b)[..|a + b| - 1] == a + b';
      AudioDeviceNamesAppend(a, b');
    } else {
      assert a + b == a;
    }
  }

  /** A name is listed exactly when some "(audio)" line has it as its first
      quoted name. */
  lemma {:induction false} AudioDeviceNamesMember(lines: seq<string>, d: string)
    ensures d in AudioDeviceNames(lines) <==>
      exists k :: 0 <= k < |lines| && Contains(lines[k], AUDIO_MARKER) && FirstQuoted(lines[k]) == Some(d)
    decreases |lines|
  {
    if |lines| > 0 {
      var init := lines[..|lines| - 1];
      AudioDeviceNamesMember(init, d);
      if d in AudioDeviceNames(init) {
        var k :| 0 <= k < |init| && Contains(init[k], AUDIO_MARKER) && FirstQuoted(init[k]) == Some(d);
        assert lines[k] == init[k];
      }
      if exists k :: 0 <= k < |lines| && Contains(lines[k], AUDIO_MARKER) && FirstQuoted(lines[k]) == Some(d) {
        var k :| 0 <= k < |lines| && Contains(lines[k], AUDIO_MARKER) && FirstQuoted(lines[k]) == Some(d);
        if k < |lines| - 1 {
          assert init[k] == lines[k];
        }
      }
    }
  }

  /** There are never more names than lines. */
  lemma {:induction false} AudioDeviceNamesLength(lines: seq<string>)
    ensures |AudioDeviceNames(lines)| <= |lines|
    decreases |lines|
  {
    if |lines| > 0 {
      AudioDeviceNamesLength(lines[..|lines| - 1]);
    }
  }

  /** Outcome of `subprocess.run(["ffmpeg", "-list_devices", ...])`. */
  datatype ProcessRun =
    | Completed(stderr: string)  // ffmpeg ran; its stderr text
    | Raised(error: string)      // ffmpeg missing, timed out, undecodable output

  /** list_audio_devices: the audio names of the listing, line by line;
      any exception yields the empty list. */
  method ListAudioDevices(run: ProcessRun) returns (devices: seq<string>)
    ensures run.Raised? ==> devices == []
    ensures run.Completed? ==> devices == AudioDeviceNames(Split(run.stderr, '\n'))
  {
    match run
    case Raised(_) =>
      devices := [];
    case Completed(stderr) =>
      var lines := Split(stderr, '\n');
      devices := [];
      var i := 0;
      while i < |lines|
        invariant 0 <= i <= |lines|
        invariant devices == AudioDeviceNames(lines[..i])
      {
        var line := lines[i];
        assert lines[..i + 1][..i] == lines[..i];
        if Contains(line, AUDIO_MARKER) {
          var m := FirstQuoted(line);
          if m.Some? {
            devices := devices + [m.value];
          }
        }
        i := i + 1;
      }
      assert lines[..i] == lines;
  }

  /** `preferred.lower() in avail.lower()`. */
  predicate Matches(preferred: string, avail: string) {
    ContainsIgnoringCase(avail, preferred)
  }

  /** Inner loop of find_capture_device: the first available device, from
      position `from` on, that the preferred name matches. */
  function FirstMatching(preferred: string, available: seq<string>, from: nat): (r: Option<nat>)
    requires from <= |available|
    ensures r.Some? ==> from <= r.value < |available| && Matches(preferred, available[r.value])
    ensures r.Some? ==> forall j :: from <= j < r.value ==> !Matches(preferred, available[j])
    ensures r.None? ==> forall j :: from <= j < |available| ==> !Matches(preferred, available[j])
    decreases |available| - from
  {
    if from == |available| then None
    else if Matches(preferred, available[from]) then Some(from)
    else FirstMatching(preferred, available, from + 1)
  }

  /** Both loops of find_capture_device, from priority position `from` on:
      the pair (priority index, device index) that returns. */
  function PickFrom(priority: seq<string>, available: seq<string>, from: nat): (r: Option<(nat, nat)>)
    requires from <= |priority|
    ensures r.Some? ==> from <= r.value.0 < |priority| && r.value.1 < |available|
    ensures r.Some? ==> Matches(priority[r.value.0], available[r.value.1])
    ensures r.Some? ==> forall k, j :: from <= k < r.value.0 && 0 <= j < |available| ==> !Matches(priority[k], available[j])
    ensures r.Some? ==> forall j :: 0 <= j < r.value.1 ==> !Matches(priority[r.value.0], available[j])
    ensures r.None? ==> forall k, j :: from <= k < |priority| && 0 <= j < |available| ==> !Matches(priority[k], available[j])
    decreases |priority| - from
  {
    if from == |priority| then None
    else
      match FirstMatching(priority[from], available, 0)
      case Some(j) => Some((from, j))
      case None => PickFrom(priority, available, from + 1)
  }

  /** find_capture_device over a given list of available devices: the
      earliest priority name that matches anything wins, and among the
      devices it matches the first listed one is returned, verbatim. */
  function PreferredDevice(priority: seq<string>, available: seq<string>): (r: Option<string>)
    ensures r.Some? ==> r.value in available
    ensures r.None? <==> forall k, j :: 0 <= k < |priority| && 0 <= j < |available| ==> !Matches(priority[k], available[j])
  {
    match PickFrom(priority, available, 0)
    case Some((k, j)) => Some(available[j])
    case None => None
  }

  /** Priority beats position: when the `k`-th preferred name matches the
      device at `j`, the chosen device is matched by a name at least as
      preferred as the `k`-th, and, if that name is the `k`-th itself, it
      sits no later than `j`. */
  lemma PriorityBeatsPosition(priority: seq<string>, available: seq<string>, k: nat, j: nat)
    requires k < |priority| && j < |available| && Matches(priority[k], available[j])
    ensures PickFrom(priority, available, 0).Some?
    ensures PickFrom(priority, available, 0).value.0 <= k
    ensures PickFrom(priority, available, 0).value.0 == k ==> PickFrom(priority, available, 0).value.1 <= j
  {
  }
}
