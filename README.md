# PC Nest Speaker: a Dafny model of the Cast control core

PC Nest Speaker streams a Windows PC's audio to Google Nest and Chromecast
speakers. This project models the parts of it that decide what happens.

- **The Cast daemon** (`src/main/cast-daemon.py`) is a long-running
  process. It reads one JSON command per line. It keeps a dictionary of
  live speaker connections, so volume changes need no new discovery.
- **The Cast helper** (`src/main/cast-helper.py`) is a one-shot command.
  It does the following:
  - it launches the custom WebRTC receiver (app `FCAA4619`);
  - it waits for the receiver to come up;
  - it asks MediaMTX whether audio is flowing;
  - it relays SDP signalling through the receiver's message channel;
  - it finds the members of a Cast group;
  - it launches on several speakers;
  - it sets and reads volume.
- **Three scripts** are modelled too:
  - `stream_to_nest.py` (HLS first, then an MP3 fallback);
  - the self-test `test_audio_capture.py`;
  - `test_stream_dennis.py`, a quick test that streams to one named speaker.

Everything outside the program is an input of the model. That covers the
answers of pychromecast discovery, the devices, ffmpeg, MediaMTX, the
console and the file system. For example, a `Lookup` is what
`get_listed_chromecasts` returned or raised. A `seq<SessionPoll>` holds
MediaMTX's answers to the successive session-list requests. An
`InputLine` is one stdin line of the daemon together with the device
answers its command meets.

Where the source updates state in place, the model is imperative:

- The daemon's connection dictionary is a `class Daemon`. Its map field is
  paired with a sequence that records the dictionary's insertion order.
  Each handler is a method proved against a functional reference
  (`Answer`, `After`, `Session`). The lemmas about that reference state
  what the daemon promises.
- The helper's `WebRTCController` inbox is a class, and so is the script's
  HLS output directory.
- The polling loops are methods with loop invariants.

Pure decisions are functions:

- lookup fallback, error classification, clamping, URL and message
  formats;
- the `"([^"]+)"` regular expression;
- `int(input().strip())`.

Modules:

- `Common`: string helpers with Python's meaning (`in`, `endswith`,
  ASCII `lower`, `split`), digits, truthiness and the volume clamp.
- `CastDevices`: devices, lookups and lookup arguments shared by the
  daemon and the helper.
- `DshowListing`: the ffmpeg DirectShow listing parse and the
  priority-based device choice. `stream_to_nest.py:60-87` and
  `test_audio_capture.py:33-80` hold identical copies of this code, and one
  model serves both.
- `CastDaemon`, `CastHelper`, `StreamToNest`, `AudioCaptureTest`,
  `StreamDennis`: one module per source file.

Some functions are reference definitions: they give the meaning that
other contracts are stated in, and what they promise is proved in the
lemmas about them rather than in their own contracts. So the table names
those lemmas. `Common.Contains`, `Lower` and `Split` are stated by
`ContainsIff`, `ContainsIgnoringCaseWeaker`, `SplitPartsFree` and
`SplitJoin`. `StreamToNest.ParseInt` is stated by `ParseIntShape` and
`ParseIntOfDecimal`, and `Strip` by `StripTrims` and `StripKeepsMiddle`.
`Strip` removes Python's full `isspace` set: ASCII `\t` to `\r`, `\x1c`
to `\x1f` and the space, and the Unicode spaces from U+0085 up.
`StreamToNest.Selected`, the speaker `select_speaker` returns, is stated
by `FirstValidIsFirst` and `FirstValidAt` through `FirstValid`.
`CastHelper.Signal` is stated by `AnswerOnlyOnSuccess` and
`PostOnlyForOffer`. `CastDaemon.Final` is stated by `FinalAfterQuit`.
`AudioCaptureTest.FfmpegSummaryLine` is stated by the `ffmpegLine` clause
of `AudioCaptureTest.RunScript`.

`cast-helper.py` defines `get_volume` and `set_volume` twice. Python keeps
the later definitions (lines 873 and 902), so those are the ones modelled.
The effective `set_volume` does not clamp; only `set_volume_fast` does
(see `CastHelper.OnlyFastPathClamps`).

## Model

| member | source | states |
|---|---|---|
| Common.Clamp | src/main/cast-daemon.py:118 | `max(0.0, min(1.0, v))`: the result lies in [0, 1], equals v inside that range, and is 0 below it and 1 above it |
| Common.ClampIdempotent | src/main/cast-helper.py:1195 | clamping an already clamped level changes nothing |
| CastDevices.FirstListed | src/main/cast-daemon.py:91-96 | `chromecasts[0]` is taken exactly when the lookup listed at least one device |
| DshowListing.FirstMatchFrom | stream_to_nest.py:72 | `re.search(r'"([^"]+)"')` finds the leftmost quote pair with at least one non-quote character between; no match starts earlier; None means no match exists |
| DshowListing.FirstQuoted | stream_to_nest.py:72-74 | the captured group is non-empty and quote-free, and it exists exactly when the line has a match |
| DshowListing.FirstQuotedLeftmost | stream_to_nest.py:72-74 | the captured group is the text between the quotes of the leftmost match; no quoted match starts earlier |
| DshowListing.AudioDeviceNamesAppend | stream_to_nest.py:70-74 | the listing is parsed line by line: the names of concatenated listings are the names of each part, in order |
| DshowListing.AudioDeviceNamesMember | stream_to_nest.py:70-74 | a name is listed exactly when some "(audio)" line has it as its first quoted string |
| DshowListing.AudioDeviceNamesLength | stream_to_nest.py:70-74 | there are never more device names than lines |
| DshowListing.ListAudioDevices | stream_to_nest.py:60-77 | the loop returns the audio names of the stderr lines in order; any exception gives [] |
| DshowListing.FirstMatching | stream_to_nest.py:84-86 | the inner loop: the first available device that contains the preferred name, ignoring case; None when none does |
| DshowListing.PickFrom | stream_to_nest.py:83-87 | both loops: the earliest priority name matching anything, then the first device it matches; None when no pair matches |
| DshowListing.PreferredDevice | test_audio_capture.py:64-80 | the chosen device is one of the available ones, returned verbatim; None exactly when no preferred name matches any device |
| DshowListing.PriorityBeatsPosition | stream_to_nest.py:83-86 | a match for the k-th preferred name guarantees a pick whose priority is at most k, and no later than that device when the priority is k |
| StreamToNest.FindCaptureDevice | stream_to_nest.py:80-87 | the device is the priority pick among the listed audio devices, and therefore one of them |
| StreamToNest.SkipSpaces | stream_to_nest.py:116 | the leading white space skipped by `strip()` |
| StreamToNest.DropTrailingSpaces | stream_to_nest.py:116 | the trailing white space dropped by `strip()` |
| StreamToNest.StripTrims | stream_to_nest.py:116 | the result neither starts nor ends with white space (Python's `isspace` set); it is empty exactly when the input is all white space |
| StreamToNest.StripKeepsMiddle | stream_to_nest.py:116 | the result is one contiguous slice of the input, and everything cut off on either side is white space |
| StreamToNest.SeparatorPrefixedAnswerSelects | stream_to_nest.py:116-118 | an answer led by U+001F, which `strip()` removes, still selects the second speaker |
| StreamToNest.ParseIntOfDecimal | stream_to_nest.py:117 | `int()` reads a printed number back as that number |
| StreamToNest.ParseIntShape | stream_to_nest.py:117 | `int()` accepts exactly an optional sign followed by decimal digits: a number is read only from such text, negative only after `-`, and every non-empty digit string is read |
| StreamToNest.ReadChoice | stream_to_nest.py:116-119 | one prompt: an index exactly when `int(answer.strip()) - 1` lies within the list |
| StreamToNest.SelectSpeaker | stream_to_nest.py:108-122 | re-prompts past every invalid answer; returns the speaker at `int(answer) - 1` for the first valid answer, which is the `Selected` speaker; with no valid answer, none is returned |
| StreamToNest.FirstValid | stream_to_nest.py:113-119 | the position it gives, if any, holds an answer `select_speaker` accepts |
| StreamToNest.FirstValidIsFirst | stream_to_nest.py:113-119 | no earlier answer is accepted, and there is no position exactly when no answer is accepted |
| StreamToNest.FirstValidAt | stream_to_nest.py:113-119 | an accepted answer after only rejected ones is the first accepted one |
| StreamToNest.PromptUntilValid | stream_to_nest.py:113-122 | the prompt loop reads answers until the first one that parses to a number in 1..count; every earlier answer was invalid; with no valid answer all answers are read and none is chosen |
| StreamToNest.TypedPositionSelects | stream_to_nest.py:116-119 | typing a listed speaker's 1-based position selects that speaker at the first prompt |
| StreamToNest.RunScript | stream_to_nest.py:265-369 | exits 1 exactly when ffmpeg, a device or (after a discovery that did not raise) any speaker is missing; crashes exactly when discovery raises, the answers run out or the server cannot start; otherwise the server and HLS encoder start, the HLS cast follows when the playlist is ready, the MP3 fallback exactly when the HLS cast did not return normally, then the HLS stop; every cast goes to the speaker `select_speaker` returned |
| StreamToNest.StreamTo | stream_to_nest.py:302-365 | the server and HLS encoder, the HLS cast when the playlist is ready, the MP3 fallback exactly unless that cast returned, the HLS stop last; every cast goes to the given speaker |
| AudioCaptureTest.DiscoverSpeakers | test_audio_capture.py:96-125 | one record per discovered device, in order, with its name, model and host; an exception gives [] |
| AudioCaptureTest.TestFfmpegCapture | test_audio_capture.py:141-171 | the capture passes exactly when ffmpeg exits with status 0 |
| AudioCaptureTest.RunScript | test_audio_capture.py:174-220 | aborts exactly when ffmpeg is missing; the FFmpeg summary line is always "[OK]", since it tests the function object; the summary shows the priority-picked device or "[NONE]", discovery only when pychromecast imports, and READY exactly when there are a device, pychromecast and a speaker |
| StreamDennis.FirstQualifying | test_stream_dennis.py:45-49 | the first line that mentions either marker and has a quoted name; no earlier line qualifies |
| StreamDennis.FindAudioDevice | test_stream_dennis.py:40-50 | the first qualifying line's quoted name; None exactly when no line qualifies; the ffmpeg exception is not caught |
| StreamDennis.OutDir.UnlinkMatching | test_stream_dennis.py:76-79 | deletes exactly the files that match the glob, ignoring case as Windows does |
| StreamDennis.OutDir.UnlinkAll | test_stream_dennis.py:76-79 | unlinking each matched file one by one leaves the directory minus exactly those files |
| StreamDennis.OutDir.RemoveStaleOutput | test_stream_dennis.py:75-79 | exactly the `*.ts` and `*.m3u8` files, in any letter case, are removed and every other file stays |
| StreamDennis.UpperCaseSegmentIsStale | test_stream_dennis.py:76-79 | "SEG0.TS" and "STREAM.M3U8" match the globs; "notes.txt" does not |
| StreamDennis.WaitForPlaylist | test_stream_dennis.py:149-160 | at most 40 checks; stops at the first that finds a non-empty playlist; failure means none of the 40 did |
| StreamDennis.RunScript | test_stream_dennis.py:108-191 | no device or no speaker exits 1, and a raising discovery or server crashes, all before the output is touched; otherwise the server starts, the stale output is cleared (the step names exactly the deleted files) and then the encoder starts on the cleaned directory; a missing playlist stops the encoder and discovery with exit 1; a raising cast crashes with the encoder left running; otherwise the stream URL is cast, discovery stopped and the encoder terminated |
| StreamDennis.AfterEncoderStarts | test_stream_dennis.py:146-191 | a playlist that never appears stops the encoder and discovery with exit 1; a raising cast crashes with both still running; otherwise cast, stop discovery, terminate the encoder |
| CastDaemon.Without | src/main/cast-daemon.py:229 | `del` on the insertion order removes exactly that name and keeps the rest distinct |
| CastDaemon.DistinctCard | src/main/cast-daemon.py:243 | a sequence without duplicates has as many distinct names as entries |
| CastDaemon.RegistrySize | src/main/cast-daemon.py:255 | the dictionary has as many entries as its insertion order |
| CastDaemon.DiscoveryFor | src/main/cast-daemon.py:75-89 | a non-empty IP hint gives a 3-second known-host lookup; otherwise a 10-second mDNS scan for the name |
| CastDaemon.CacheHitReuses | src/main/cast-daemon.py:51-60 | a live cached connection is returned with no discovery and no change to the dictionary |
| CastDaemon.MissDiscoversOnce | src/main/cast-daemon.py:61-89 | without a live cached connection, exactly one discovery is made, with the hint's arguments |
| CastDaemon.RegisteredOutcome | src/main/cast-daemon.py:62-112 | after the call the name is cached exactly when a speaker was obtained; a dead entry is dropped; every other entry is unchanged |
| CastDaemon.RegisteredWf | src/main/cast-daemon.py:69-105 | the dictionary invariant (distinct order, order equals keys, cached ip is the device's host) survives get_or_create_connection |
| CastDaemon.TruncateReal | src/main/cast-daemon.py:248 | `int()` truncates toward zero |
| CastDaemon.ListingComplete | src/main/cast-daemon.py:239-256 | the status lists every connection once, in insertion order, with its ip, connected_at and truncated age |
| CastDaemon.ListingPrefix | src/main/cast-daemon.py:243-249 | the i-th listed connection is the i-th name of the iteration |
| CastDaemon.AfterWf | src/main/cast-daemon.py:277-307 | every command keeps the dictionary invariant |
| CastDaemon.SetVolumeClamped | src/main/cast-daemon.py:115-127 | a successful set-volume reports the clamped level; a missing volume defaults to 0.5 |
| CastDaemon.LookupFailureReported | src/main/cast-daemon.py:120-122 | a speaker that cannot be obtained gives "Speaker '<name>' not found" and is left out of the dictionary |
| CastDaemon.UnknownCommand | src/main/cast-daemon.py:306-307 | any other command gives "Unknown command: <cmd>" and changes nothing |
| CastDaemon.StatusReadOnly | src/main/cast-daemon.py:239-256 | status changes nothing, and its count equals the number of connections |
| CastDaemon.QuitEmpties | src/main/cast-daemon.py:302-304 | quit clears every connection and answers "Daemon shutting down" |
| CastDaemon.DisconnectIdempotent | src/main/cast-daemon.py:189-233 | after a disconnect the name is gone; a second disconnect answers "Not connected" and changes nothing |
| CastDaemon.SessionAdvance | src/main/cast-daemon.py:316-329 | a non-quit line's reply followed by the session from the next state is the session from this line |
| CastDaemon.SessionQuit | src/main/cast-daemon.py:331-332 | the quit reply is the last output |
| CastDaemon.SessionAt | src/main/cast-daemon.py:316-340 | the reply to the k-th non-blank line is the response in the state after the earlier lines |
| CastDaemon.SessionStopsAtQuit | src/main/cast-daemon.py:331-332 | lines after a quit are never read |
| CastDaemon.SessionLength | src/main/cast-daemon.py:317-340 | without a quit, every non-blank line gets exactly one reply and blank lines get none |
| CastDaemon.FinalAfterQuit | src/main/cast-daemon.py:331-345 | the state the loop ends in after a quit is the empty dictionary, so the final cleanup closes nothing more |
| CastDaemon.SessionEndsWithShutdown | src/main/cast-daemon.py:302-332 | a session containing a quit ends with "Daemon shutting down" |
| CastDaemon.Daemon.constructor | src/main/cast-daemon.py:30 | the dictionary starts empty |
| CastDaemon.Daemon.GetOrCreateConnection | src/main/cast-daemon.py:42-112 | returns the cached or discovered device and the discovery made; updates the dictionary as the reference does |
| CastDaemon.Daemon.SetVolume | src/main/cast-daemon.py:115-131 | the set-volume reply and new state as the reference gives them |
| CastDaemon.Daemon.GetVolume | src/main/cast-daemon.py:134-147 | level and mute from the status, or 0.5 and false without a status |
| CastDaemon.Daemon.Ping | src/main/cast-daemon.py:150-168 | the speaker's ip and level, with None when there is no status |
| CastDaemon.Daemon.Connect | src/main/cast-daemon.py:171-186 | the speaker's name, ip and model |
| CastDaemon.Daemon.Disconnect | src/main/cast-daemon.py:189-236 | a connected name is removed after quit, the chime app (CC1AD845) and the socket close; an unknown name gives "Not connected" and no device calls |
| CastDaemon.Daemon.GetStatus | src/main/cast-daemon.py:239-256 | the loop builds the reference listing; the count is the number of connections |
| CastDaemon.Daemon.CleanupAll | src/main/cast-daemon.py:259-273 | every connection is closed in insertion order and the dictionary ends empty |
| CastDaemon.Daemon.ProcessCommand | src/main/cast-daemon.py:277-307 | dispatch on `cmd`: reply and new state as the reference gives them |
| CastDaemon.Daemon.HandleLine | src/main/cast-daemon.py:316-340 | blank lines get no reply; bad JSON, a non-object and commands get one reply each |
| CastDaemon.Daemon.Run | src/main/cast-daemon.py:310-345 | the replies are exactly the reference session; cleanup always runs, closes the connections of the state the loop ended in, in insertion order, and leaves the dictionary empty |
| CastHelper.NextMessage | src/main/cast-helper.py:44-50 | no message unless one arrives during the wait; then the oldest queued one |
| CastHelper.WebRtcController.constructor | src/main/cast-helper.py:27-30 | the inbox starts empty with the event clear |
| CastHelper.WebRtcController.ReceiveMessage | src/main/cast-helper.py:32-37 | the message is queued at the back and the event is set |
| CastHelper.WebRtcController.SendMessage | src/main/cast-helper.py:39-42 | the message is appended to what was sent |
| CastHelper.WebRtcController.WaitForMessage | src/main/cast-helper.py:44-50 | the event is cleared first; yields NextMessage and pops it from the front; afterwards the event is set exactly when a message arrived |
| CastHelper.LookupOutcome | src/main/cast-helper.py:462-479 | found exactly when the lookup lists a device, and then the first one; an exception propagates |
| CastHelper.Resolve | src/main/cast-helper.py:442-479 | with a hint, a 5-second known-host lookup, then a scan only when it lists nothing; without a hint, the scan alone |
| CastHelper.HintedLookupDecides | src/main/cast-helper.py:451-452 | a hinted lookup that finds the speaker, or raises, is never followed by a scan |
| CastHelper.LaunchAppFailure | src/main/cast-helper.py:498-519 | a RequestFailed type or a "Failed to execute start app" text gives CUSTOM_RECEIVER_NOT_SUPPORTED with fallback; any other error gives "UNKNOWN" |
| CastHelper.ProxyAppFailure | src/main/cast-helper.py:703-715 | the same test gives CUSTOM_RECEIVER_NOT_SUPPORTED with fallback; other errors carry no code |
| CastHelper.AppFailuresAgree | src/main/cast-helper.py:505 | both launch paths offer the fallback on the same errors, and exactly together with the not-supported code |
| CastHelper.UnsupportedExamples | src/main/cast-helper.py:708 | a RequestFailed exception, or a start-app failure text of any exception type, offers the fallback |
| CastHelper.AwaitReceiver | src/main/cast-helper.py:526-532 | at most 10 status checks; stops at the first that reports the custom app; failure means none of the 10 did |
| CastHelper.VerifySession | src/main/cast-helper.py:574-606 | at most 4 session lists; verified exactly when one shows bytes flowing on the stream; connected exactly when one shows a session on it; verified implies connected |
| CastHelper.ScanSessions | src/main/cast-helper.py:586-593 | one pass over a session list finds a session on the stream exactly when the list shows one, and bytes flowing exactly when some session on the stream has `bytesSent > 0` |
| CastHelper.VerifiedWasSeen | src/main/cast-helper.py:587-594 | data flowing on the stream implies a session on it |
| CastHelper.WarningMeaning | src/main/cast-helper.py:609-625 | with a URL, the warning is None exactly when data flowed, "no_data" exactly when a session was seen without data, "no_session" exactly when no session was seen |
| CastHelper.WebrtcLaunch | src/main/cast-helper.py:429-638 | reply, sent connect message and lookups as the reference gives them, through each failure path: the lookup, the wait and device reads, start_app, and any later exception that the catch-all turns into an error reply |
| CastHelper.LaunchVerification | src/main/cast-helper.py:618-635 | without a URL the launch succeeds unverified with "no_url_provided"; a verified launch reports its session connected |
| CastHelper.LaunchSendsOnlyOnSuccess | src/main/cast-helper.py:522-559 | the connect message is sent only by a launch that succeeds with a URL, and then it carries that URL and stream; every failure sends nothing |
| CastHelper.LaterErrorFailsLaunch | src/main/cast-helper.py:637-638 | an exception while the URL is handed over (status update, handler registration, send) fails the launch with its text |
| CastHelper.IpFor | src/main/cast-helper.py:1153 | the i-th address exactly when the list is non-empty and long enough |
| CastHelper.LaunchPartition | src/main/cast-helper.py:1155-1162 | every speaker ends up launched or failed, never both |
| CastHelper.LaunchedMember | src/main/cast-helper.py:1158-1159 | a name is listed as launched exactly when some launch of that name succeeded |
| CastHelper.WebrtcLaunchMulticast | src/main/cast-helper.py:1130-1175 | launches in order with the matching address; success exactly when some launch succeeded; total is the number of speakers |
| CastHelper.LaunchAt | src/main/cast-helper.py:1153-1156 | the i-th launch uses the i-th address when there is one and gives the i-th reference outcome |
| CastHelper.FindGroup | src/main/cast-helper.py:949-953 | the first device whose name and cast type "group" both match |
| CastHelper.UuidMembersIff | src/main/cast-helper.py:988-999 | a device is a member exactly when the group lists its UUID |
| CastHelper.HostMembersIff | src/main/cast-helper.py:1003-1016 | a device is a fallback member exactly when it is an audio device on the group's host |
| CastHelper.GroupFailure | src/main/cast-helper.py:942-971 | fails exactly when the scan raises, the group is not found, or connecting and requesting members raises; that error is passed on |
| CastHelper.GroupFallback | src/main/cast-helper.py:1003-1027 | the host fallback is used exactly when no UUID matched; count equals the number of members |
| CastHelper.GetGroupMembers | src/main/cast-helper.py:927-1033 | the loops compute the reference reply, including "Group '<name>' not found" |
| CastHelper.FirstGroupIndex | src/main/cast-helper.py:948-953 | the loop stops at the first device with the group's name and cast type `group`, or runs off the end exactly when there is none |
| CastHelper.UuidMatches | src/main/cast-helper.py:988-1000 | collects, in discovery order, exactly the devices whose UUID is among the group's member UUIDs |
| CastHelper.HostMatches | src/main/cast-helper.py:1003-1016 | collects, in discovery order, exactly the `audio` devices sharing the group's host |
| CastHelper.AnswerOnlyOnSuccess | src/main/cast-helper.py:732-796 | request_offer is always sent first; the answer is sent exactly when signalling succeeds, which is exactly when the POST was made, MediaMTX answered and sending the answer did not raise |
| CastHelper.PostOnlyForOffer | src/main/cast-helper.py:738-766 | the WHEP POST happens only for a message of type "offer" with an SDP, which it sends to `<mediamtx>/<stream>/whep` |
| CastHelper.QueuedMessageIgnoredWithoutArrival | src/main/cast-helper.py:44-50 | with no message arriving during the wait, the proxy times out even when a message was already queued |
| CastHelper.ProxySetupErrorFails | src/main/cast-helper.py:717-732 | an exception while the controller is set up fails the connection with its text, with nothing sent and nothing posted |
| CastHelper.WebrtcProxyConnect | src/main/cast-helper.py:641-802 | reply, POST and sent messages as the reference gives them, through each failure path: the lookup, the wait, start_app, the controller setup, the offer checks, the WHEP request (HTTP error, unreachable, any other exception) and sending the answer |
| CastHelper.ExchangeSdp | src/main/cast-helper.py:736-796 | from the receiver's reply to the offer request on: timeout, wrong type, missing SDP, the WHEP POST and its errors, and sending the answer, as the reference signalling gives them |
| CastHelper.FastVolumeLookup | src/main/cast-helper.py:1198-1212 | a 3-second known-host lookup with a hint, else a 10-second scan, with no fallback |
| CastHelper.SetVolumeFast | src/main/cast-helper.py:1183-1236 | succeeds exactly when the speaker is found and nothing raises, reporting the clamped level |
| CastHelper.SetVolume | src/main/cast-helper.py:902-924 | succeeds exactly when the speaker is found and nothing raises, echoing the level unclamped |
| CastHelper.OnlyFastPathClamps | src/main/cast-helper.py:1195 | 1.5 is echoed as 1.5 by set_volume but as 1.0 by set_volume_fast |
| CastHelper.GetVolume | src/main/cast-helper.py:873-899 | level and mute exactly when the speaker is found with a status; a missing status is the attribute error |

## Left out

- Discovery, sockets, zeroconf threads, `time.sleep`, clocks, subprocesses, HTTP servers, Flask and urllib are not modelled as such. Their outcomes are inputs: lookups, status reports, session lists, WHEP replies, process results and the current time.
- JSON text is not modelled. A daemon line arrives already classified as blank, malformed, not an object or a command. Request fields are typed values, and messages are maps from strings to strings. Non-string JSON values are not modelled. So a numeric message `type` (reply "Unexpected message type: 5"), a numeric `cmd` ("Unknown command: 5"), a non-string SDP (whose `encode` raises) and a non-numeric `volume` fall outside the model.
- Logging and progress prints are left out: `log`, the stderr diagnostics and the printed banners.
- These `cast-helper.py` operations are not modelled: `discover_speakers`, `device_info`, `cast_to_speaker`, `get_local_ip`, `webrtc_stream`, `webrtc_connect`, `webrtc_signal`, `stop_cast`, `hls_cast_to_tv` and the argv dispatch table. The same goes for the script helpers that only start processes or servers: `start_http_server`, `start_ffmpeg_hls`, `start_ffmpeg_mp3`, `live_mp3` and `start_flask_server`. They drive devices or processes with no decision beyond the ones modelled.
- The shadowed first definitions of `set_volume` and `get_volume` in `cast-helper.py` (lines 356 and 393) are never called, so they are not modelled.
- The reference/python scripts are not part of this model.
- `Common.Lower`: Python's `str.lower()` is modelled on ASCII letters only.
- `StreamToNest.ParseInt`: `_` separators and non-ASCII digits are not accepted.
- `Common.Clamp`: a NaN volume is not modelled, because reals have no NaN.
- `StreamToNest.RunScript`: `wait_for_playlist` is a clock-bounded loop, so the model takes its verdict as an input. The watch loops that run until Ctrl+C are outside the model.
- `StreamToNest.RunScript`: starting an ffmpeg process that was found on the PATH is taken to succeed, as is the MP3 server, whose errors stay in its own thread. Only the discovery and HTTP-server exceptions are inputs.
- `StreamDennis.RunScript`: starting the encoder and the `stat` of the playlist are taken to succeed. The discovery, HTTP-server and cast exceptions are inputs.
- `StreamDennis.OutDir`: only the script's own deletions are modelled. The files ffmpeg writes afterwards (`stream.m3u8`, `seg%d.ts`) are not added, so the directory after `RunScript` is the one the encoder starts on. What the playlist checks find is a separate input.
- `CastHelper.AwaitReceiver`: the poll only logs, and a receiver that never reports ready does not stop the launch. The poll result is therefore not part of any reply.
- `CastHelper.WebrtcLaunchMulticast`: the `"Unknown error"` default is never used, because every failed launch carries an error.
- `CastHelper.VerifySession`: a session-list request is one input, either a full list or a failure. A request that marks the stream connected and then raises part-way through the list is not represented. Neither is a `bytesSent` that is null or a float.
- `StreamDennis.OutDir.UnlinkMatching`: the directory holds plain files only. A directory named like `x.ts`, whose `unlink` raises, is not represented.
- `CastHelper.WebrtcProxyConnect`: `HTTPError` is caught before `URLError` because it is a subclass. The model keeps the two as separate reply variants.
- `CastDaemon.Daemon.ProcessCommand`: the device calls that a quit's cleanup makes are not returned. Only `CleanupAll`, called directly and at the end of `Run`, reports them.
- `CastDaemon.Daemon.Run`: a KeyboardInterrupt is not modelled; the loop ends at a quit line or at the end of input.
- Concurrency is not modelled: the daemon's lock and the helper's background message thread. A message that arrives during a wait is an input.
