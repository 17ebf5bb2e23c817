/** The one-shot Cast helper: launching the custom WebRTC receiver (with
    its readiness poll and the MediaMTX session check), proxy signalling
    through the receiver's message channel, Cast group membership, launching
    on several speakers, and the volume commands. Device, MediaMTX and
    discovery answers are inputs. */
module CastHelper {
  import opened Common
  import opened CastDevices

  /** The custom receiver application. */
  const CUSTOM_APP_ID: string := "FCAA4619"

  /** Error code of a device that cannot run the custom receiver. */
  const RECEIVER_NOT_SUPPORTED: string := "CUSTOM_RECEIVER_NOT_SUPPORTED"

  /** Status checks made while waiting for the receiver to come up. */
  const READY_POLLS: nat := 10

  /** MediaMTX session-list requests made to verify a launch. */
  const VERIFY_ATTEMPTS: nat := 4

  // ---------------------------------------------------------------------
  // Signalling messages and the controller inbox

  /** A JSON message on the receiver's namespace, as its string fields. */
  type Message = map<string, string>

  /** `msg.get(key)`. */
  function Get(msg: Message, key: string): Option<string> {
    if key in msg then Some(msg[key]) else None
  }

  /** What wait_for_message yields, given the queue when the wait begins and
      the message, if any, that arrives during it: nothing unless a message
      arrives, and then the oldest queued message. */
  function NextMessage(queue: seq<Message>, arrival: Option<Message>): (m: Option<Message>)
    ensures arrival.None? ==> m.None?
    ensures arrival.Some? && |queue| > 0 ==> m == Some(queue[0])
    ensures arrival.Some? && |queue| == 0 ==> m == arrival
  {
    if arrival.None? then None else Some((queue + [arrival.value])[0])
  }

  /** The receiver's message channel: received messages queue up in
      arrival order and an event records that one arrived. */
  class WebRtcController {
    var messages: seq<Message>
    var eventSet: bool
    /** Messages sent to the receiver, in order. */
    var sent: seq<Message>

    constructor ()
      ensures messages == [] && !eventSet && sent == []
    {
      messages := [];
      eventSet := false;
      sent := [];
    }

    /** receive_message: queue the message at the back and signal. */
    method ReceiveMessage(data: Message)
      modifies this
      ensures messages == old(messages) + [data] && eventSet && sent == old(sent)
    {
      messages := messages + [data];
      eventSet := true;
    }

    /** send_message. */
    method SendMessage(data: Message)
      modifies this
      ensures sent == old(sent) + [data]
      ensures messages == old(messages) && eventSet == old(eventSet)
    {
      sent := sent + [data];
    }

    /** wait_for_message: the event is cleared first, so only a message
        arriving during the wait ends it before the timeout; the oldest
        queued message is then taken off the front. */
    method WaitForMessage(arrival: Option<Message>) returns (m: Option<Message>)
      modifies this
      ensures m == NextMessage(old(messages), arrival)
      ensures arrival.None? ==> messages == old(messages)
      ensures arrival.Some? ==> messages == (old(messages) + [arrival.value])[1..]
      ensures eventSet <==> arrival.Some?
      ensures sent == old(sent)
    {
      eventSet := false;
      if arrival.Some? {
        ReceiveMessage(arrival.value);
      }
      m := None;
      if eventSet && |messages| > 0 {
        m := Some(messages[0]);
        messages := messages[1..];
      }
    }
  }

  // ---------------------------------------------------------------------
  // Finding the speaker

  /** How the speaker lookup ended. */
  datatype Resolution = Found(cast: Cast) | Missing | ResolveRaised(error: string)

  /** The outcome of one lookup. */
  function LookupOutcome(l: Lookup): (r: Resolution)
    ensures r.Found? <==> FirstListed(l).Some?
    ensures r.Found? ==> r.cast == FirstListed(l).value
    ensures r.ResolveRaised? <==> l.LookupRaised?
  {
    match l
    case LookupRaised(e) => ResolveRaised(e)
    case Listed(casts) => if |casts| > 0 then Found(casts[0]) else Missing
  }

  /** The lookups of webrtc_launch and webrtc_proxy_connect: with a hint,
      the known host for 5 seconds, then a 10-second scan only when that
      lists nothing; without a hint, the scan alone. */
  function Resolve(name: string, hint: Option<string>, hinted: Lookup, scan: Lookup): (r: (Resolution, seq<DiscoveryCall>))
    ensures Hinted(hint) ==> |r.1| >= 1 && r.1[0] == HostLookup(name, hint.value, 5)
    ensures Hinted(hint) ==> (|r.1| == 2 <==> hinted == Listed([]))
    ensures |r.1| == 2 ==> r.1[1] == ScanLookup(name)
    ensures !Hinted(hint) ==> r.1 == [ScanLookup(name)]
    ensures r.0 == if Hinted(hint) && hinted != Listed([]) then LookupOutcome(hinted) else LookupOutcome(scan)
  {
    if Hinted(hint) then
      if hinted == Listed([]) then (LookupOutcome(scan), [HostLookup(name, hint.value, 5), ScanLookup(name)])
      else (LookupOutcome(hinted), [HostLookup(name, hint.value, 5)])
    else (LookupOutcome(scan), [ScanLookup(name)])
  }

  /** A hinted lookup that finds the speaker is never followed by a scan,
      and one that raises is not retried. */
  lemma HintedLookupDecides(name: string, hint: Option<string>, hinted: Lookup, scan: Lookup)
    requires Hinted(hint) && (FirstListed(hinted).Some? || hinted.LookupRaised?)
    ensures Resolve(name, hint, hinted, scan).1 == [HostLookup(name, hint.value, 5)]
    ensures Resolve(name, hint, hinted, scan).0 == LookupOutcome(hinted)
  {
  }

  // ---------------------------------------------------------------------
  // start_app failures

  /** How a receiver launch ended. */
  datatype AppStart = AppStarted | AppRaised(typeName: string, message: string)

  /** A failure reply: `error`, `error_code` when present, and
      `fallback_available`. */
  datatype Failure = Failure(error: string, errorCode: Option<string>, fallbackAvailable: bool)

  function Plain(error: string): Failure {
    Failure(error, None, false)
  }

  /** The device refused the custom receiver: the exception's type name
      mentions RequestFailed or its text says start app failed. */
  predicate ReceiverUnsupported(typeName: string, message: string) {
    Contains(typeName, "RequestFailed") || Contains(message, "Failed to execute start app")
  }

  /** webrtc_launch's reply to a failed start_app. */
  function LaunchAppFailure(typeName: string, message: string): (f: Failure)
    ensures f.error == message
    ensures f.fallbackAvailable <==> ReceiverUnsupported(typeName, message)
    ensures f.errorCode == Some(if ReceiverUnsupported(typeName, message) then RECEIVER_NOT_SUPPORTED else "UNKNOWN")
  {
    if ReceiverUnsupported(typeName, message) then Failure(message, Some(RECEIVER_NOT_SUPPORTED), true)
    else Failure(message, Some("UNKNOWN"), false)
  }

  /** webrtc_proxy_connect's reply to a failed start_app. */
  function ProxyAppFailure(typeName: string, message: string): (f: Failure)
    ensures f.error == message
    ensures f.fallbackAvailable <==> ReceiverUnsupported(typeName, message)
    ensures f.errorCode == if ReceiverUnsupported(typeName, message) then Some(RECEIVER_NOT_SUPPORTED) else None
  {
    if ReceiverUnsupported(typeName, message) then Failure(message, Some(RECEIVER_NOT_SUPPORTED), true)
    else Plain(message)
  }

  /** Both launch paths agree on when the HTTP fallback is offered, and
      offer it exactly with the not-supported code; they differ only in the
      code of other errors. */
  lemma AppFailuresAgree(typeName: string, message: string)
    ensures LaunchAppFailure(typeName, message).fallbackAvailable == ProxyAppFailure(typeName, message).fallbackAvailable
    ensures LaunchAppFailure(typeName, message).fallbackAvailable <==>
      LaunchAppFailure(typeName, message).errorCode == Some(RECEIVER_NOT_SUPPORTED)
    ensures !ReceiverUnsupported(typeName, message) ==>
      LaunchAppFailure(typeName, message).errorCode == Some("UNKNOWN") && ProxyAppFailure(typeName, message).errorCode == None
  {
  }

  /** A RequestFailed exception, whatever its text, and a start-app failure
      message, whatever the exception type, both offer the fallback. */
  lemma {:induction false} UnsupportedExamples(message: string, typeName: string)
    ensures LaunchAppFailure("RequestFailed", message).errorCode == Some(RECEIVER_NOT_SUPPORTED)
    ensures ProxyAppFailure(typeName, "Failed to execute start app FCAA4619").fallbackAvailable
  {
    assert IsPrefix("RequestFailed", "RequestFailed");
    assert IsPrefix("Failed to execute start app", "Failed to execute start app FCAA4619");
  }

  // ---------------------------------------------------------------------
  // Waiting for the receiver

  /** The receiver poll: up to READY_POLLS status updates, stopping at the
      first whose running application is the custom receiver. `appIds[k]` is
      the application the k-th update reports (None: no status). */
  method AwaitReceiver(appIds: seq<Option<string>>) returns (ready: bool, polls: nat)
    ensures 1 <= polls <= READY_POLLS
    ensures ready <==> exists k :: 0 <= k < READY_POLLS && At(appIds, k, None) == Some(CUSTOM_APP_ID)
    ensures ready ==> At(appIds, polls - 1, None) == Some(CUSTOM_APP_ID)
    ensures forall k :: 0 <= k < polls - 1 ==> At(appIds, k, None) != Some(CUSTOM_APP_ID)
    ensures !ready ==> polls == READY_POLLS
  {
    polls := 0;
    ready := false;
    while polls < READY_POLLS
      invariant polls <= READY_POLLS
      invariant forall k :: 0 <= k < polls ==> At(appIds, k, None) != Some(CUSTOM_APP_ID)
    {
      var appId := At(appIds, polls, None);
      polls := polls + 1;
      if appId == Some(CUSTOM_APP_ID) {
        ready := true;
        return;
      }
    }
  }

  // ---------------------------------------------------------------------
  // Verifying the stream with MediaMTX

  /** One entry of MediaMTX's WebRTC session list; missing fields are None. */
  datatype MtxSession = MtxSession(path: Option<string>, bytesSent: Option<int>)

  /** One request for the session list: its items, or a failed request. */
  datatype SessionPoll = Sessions(items: seq<MtxSession>) | ApiFailed

  /** `session.get('path', '')`. */
  function PathOf(s: MtxSession): string {
    if s.path.Some? then s.path.value else ""
  }

  /** `session.get('bytesSent', 0)`. */
  function BytesOf(s: MtxSession): int {
    if s.bytesSent.Some? then s.bytesSent.value else 0
  }

  /** A session belongs to the stream when the stream name occurs in its path. */
  predicate OnStream(stream: string, s: MtxSession) {
    Contains(PathOf(s), stream)
  }

  predicate Flowing(stream: string, s: MtxSession) {
    OnStream(stream, s) && BytesOf(s) > 0
  }

  predicate PollConnected(stream: string, p: SessionPoll) {
    p.Sessions? && exists s :: s in p.items && OnStream(stream, s)
  }

  predicate PollFlowing(stream: string, p: SessionPoll) {
    p.Sessions? && exists s :: s in p.items && Flowing(stream, s)
  }

  /** Some poll within the bound shows data flowing on the stream. */
  ghost predicate Verified(stream: string, polls: seq<SessionPoll>) {
    exists k :: 0 <= k < VERIFY_ATTEMPTS && PollFlowing(stream, At(polls, k, ApiFailed))
  }

  /** Some poll within the bound shows a session on the stream. */
  ghost predicate SessionSeen(stream: string, polls: seq<SessionPoll>) {
    exists k :: 0 <= k < VERIFY_ATTEMPTS && PollConnected(stream, At(polls, k, ApiFailed))
  }

  /** The verification loop: at most VERIFY_ATTEMPTS session lists are
      read, stopping at the first that shows data flowing; a session seen
      on any of them counts as connected. `polls[k]` answers request k. */
  method VerifySession(stream: string, polls: seq<SessionPoll>) returns (verified: bool, connected: bool, attempts: nat)
    ensures 1 <= attempts <= VERIFY_ATTEMPTS
    ensures verified <==> Verified(stream, polls)
    ensures connected <==> SessionSeen(stream, polls)
    ensures verified ==> connected
    ensures verified ==> PollFlowing(stream, At(polls, attempts - 1, ApiFailed))
    ensures forall k :: 0 <= k < attempts - 1 ==> !PollFlowing(stream, At(polls, k, ApiFailed))
    ensures !verified ==> attempts == VERIFY_ATTEMPTS
  {
    verified, connected, attempts := false, false, 0;
    while attempts < VERIFY_ATTEMPTS
      invariant attempts <= VERIFY_ATTEMPTS
      invariant forall k :: 0 <= k < attempts ==> !PollFlowing(stream, At(polls, k, ApiFailed))
      invariant connected <==> exists k :: 0 <= k < attempts && PollConnected(stream, At(polls, k, ApiFailed))
      invariant !verified
    {
      var poll := At(polls, attempts, ApiFailed);
      var seen, flowing := false, false;
      if poll.Sessions? {
        seen, flowing := ScanSessions(stream, poll.items);
      }
      connected := connected || seen;
      attempts := attempts + 1;
      if flowing {
        verified := true;
        return;
      }
    }
  }

  /** The loop over one session list: stops at the first session on the
      stream with bytes sent; a session on the stream marks it connected. */
  method ScanSessions(stream: string, items: seq<MtxSession>) returns (seen: bool, flowing: bool)
    ensures seen <==> PollConnected(stream, Sessions(items))
    ensures flowing <==> PollFlowing(stream, Sessions(items))
  {
    seen, flowing := false, false;
    var j := 0;
    while j < |items|
      invariant 0 <= j <= |items|
      invariant seen <==> exists s :: s in items[..j] && OnStream(stream, s)
      invariant forall s :: s in items[..j] ==> !Flowing(stream, s)
    {
      var s := items[j];
      assert items[..j + 1] == items[..j] + [s];
      if OnStream(stream, s) {
        seen := true;
        if BytesOf(s) > 0 {
          flowing := true;
          assert s in items && Flowing(stream, s);
          return;
        }
      }
      j := j + 1;
    }
    assert items[..j] == items;
  }

  /** The `warning` of a verified launch. */
  function Warning(verified: bool, connected: bool): Option<string> {
    if verified then None else if connected then Some("no_data") else Some("no_session")
  }

  /** Data flowing on the stream implies a session on it. */
  lemma VerifiedWasSeen(stream: string, polls: seq<SessionPoll>)
    ensures Verified(stream, polls) ==> SessionSeen(stream, polls)
  {
    if Verified(stream, polls) {
      var k :| 0 <= k < VERIFY_ATTEMPTS && PollFlowing(stream, At(polls, k, ApiFailed));
      assert PollConnected(stream, At(polls, k, ApiFailed));
    }
  }

  // ---------------------------------------------------------------------
  // webrtc_launch

  /** What the outside world answers during one launch. */
  datatype LaunchWorld = LaunchWorld(
    hinted: Lookup,               // the known-host lookup, when it is made
    scan: Lookup,                 // the full scan, when it is made
    waitError: Option<string>,    // exception raised by cast.wait or the device reads after it
    start: AppStart,              // cast.start_app(CUSTOM_APP_ID)
    laterError: Option<string>,   // exception raised, once a URL is to be sent, by the status
                                  // updates, registering the controller or sending the URL
    appIds: seq<Option<string>>,  // the receiver poll's status updates
    polls: seq<SessionPoll>)      // MediaMTX's answers to the session-list requests

  /** A launch reply: a failure, or `mode` "webrtc" with the URL and the
      verification fields (`session_connected` is absent without a URL). */
  datatype LaunchResult =
    | LaunchFailed(failure: Failure)
    | Launched(url: string, verified: bool, sessionConnected: Option<bool>, warning: Option<string>)

  /** The message that hands the stream URL to the receiver. */
  function ConnectMessage(url: string, stream: string): Message {
    map["type" := "connect", "url" := url, "stream" := stream]
  }

  /** webrtc_launch's reply and the messages it sends. */
  ghost function LaunchOutcome(name: string, httpsUrl: Option<string>, hint: Option<string>, stream: string, w: LaunchWorld): (LaunchResult, seq<Message>) {
    match Resolve(name, hint, w.hinted, w.scan).0
    case ResolveRaised(e) => (LaunchFailed(Plain(e)), [])
    case Missing => (LaunchFailed(Plain(NotFoundMessage(name))), [])
    case Found(_) =>
      if w.waitError.Some? then (LaunchFailed(Plain(w.waitError.value)), [])
      else if w.start.AppRaised? then (LaunchFailed(LaunchAppFailure(w.start.typeName, w.start.message)), [])
      else if Truthy(httpsUrl) then
        if w.laterError.Some? then (LaunchFailed(Plain(w.laterError.value)), [])
        else
          var verified := Verified(stream, w.polls);
          var connected := SessionSeen(stream, w.polls);
          (Launched(httpsUrl.value, verified, Some(connected), Warning(verified, connected)),
           [ConnectMessage(httpsUrl.value, stream)])
      else (Launched("none", false, None, Some("no_url_provided")), [])
  }

  /** webrtc_launch. */
  method WebrtcLaunch(name: string, httpsUrl: Option<string>, hint: Option<string>, stream: string, w: LaunchWorld)
    returns (r: LaunchResult, sent: seq<Message>, lookups: seq<DiscoveryCall>)
    ensures (r, sent) == LaunchOutcome(name, httpsUrl, hint, stream, w)
    ensures lookups == Resolve(name, hint, w.hinted, w.scan).1
  {
    var resolution;
    resolution, lookups := Resolve(name, hint, w.hinted, w.scan).0, Resolve(name, hint, w.hinted, w.scan).1;
    sent := [];
    match resolution {
      case ResolveRaised(e) =>
        return LaunchFailed(Plain(e)), sent, lookups;
      case Missing =>
        return LaunchFailed(Plain(NotFoundMessage(name))), sent, lookups;
      case Found(_) =>
    }
    if w.waitError.Some? {
      return LaunchFailed(Plain(w.waitError.value)), sent, lookups;
    }
    if w.start.AppRaised? {
      return LaunchFailed(LaunchAppFailure(w.start.typeName, w.start.message)), sent, lookups;
    }
    if Truthy(httpsUrl) {
      if w.laterError.Some? {
        return LaunchFailed(Plain(w.laterError.value)), sent, lookups;
      }
      var ready, polls := AwaitReceiver(w.appIds);
      sent := [ConnectMessage(httpsUrl.value, stream)];
      var verified, connected, attempts := VerifySession(stream, w.polls);
      return Launched(httpsUrl.value, verified, Some(connected), Warning(verified, connected)), sent, lookups;
    }
    r := Launched("none", false, None, Some("no_url_provided"));
  }

  /** A launch without a URL succeeds unverified with "no_url_provided";
      with a URL a verified launch always has its session connected. */
  lemma LaunchVerification(name: string, httpsUrl: Option<string>, hint: Option<string>, stream: string, w: LaunchWorld)
    requires LaunchOutcome(name, httpsUrl, hint, stream, w).0.Launched?
    ensures !Truthy(httpsUrl) ==> LaunchOutcome(name, httpsUrl, hint, stream, w).0 == Launched("none", false, None, Some("no_url_provided"))
    ensures LaunchOutcome(name, httpsUrl, hint, stream, w).0.verified ==>
      LaunchOutcome(name, httpsUrl, hint, stream, w).0.sessionConnected == Some(true)
  {
    VerifiedWasSeen(stream, w.polls);
  }

  /** With a URL, the `warning` of a successful launch is None exactly when
      data was seen flowing, "no_data" exactly when a session was seen
      without data, and "no_session" exactly when no session was seen. */
  lemma WarningMeaning(name: string, httpsUrl: Option<string>, hint: Option<string>, stream: string, w: LaunchWorld)
    requires LaunchOutcome(name, httpsUrl, hint, stream, w).0.Launched? && Truthy(httpsUrl)
    ensures LaunchOutcome(name, httpsUrl, hint, stream, w).0.warning == None <==> Verified(stream, w.polls)
    ensures LaunchOutcome(name, httpsUrl, hint, stream, w).0.warning == Some("no_data") <==>
      SessionSeen(stream, w.polls) && !Verified(stream, w.polls)
    ensures LaunchOutcome(name, httpsUrl, hint, stream, w).0.warning == Some("no_session") <==>
      !SessionSeen(stream, w.polls)
  {
    VerifiedWasSeen(stream, w.polls);
  }

  /** The connect message is sent only by a launch that succeeds with a
      URL, and every failure sends nothing. */
  lemma LaunchSendsOnlyOnSuccess(name: string, httpsUrl: Option<string>, hint: Option<string>, stream: string, w: LaunchWorld)
    ensures LaunchOutcome(name, httpsUrl, hint, stream, w).1 != [] <==>
      LaunchOutcome(name, httpsUrl, hint, stream, w).0.Launched? && Truthy(httpsUrl)
    ensures LaunchOutcome(name, httpsUrl, hint, stream, w).1 != [] ==>
      LaunchOutcome(name, httpsUrl, hint, stream, w).1 == [ConnectMessage(httpsUrl.value, stream)]
  {
  }

  /** An exception after the receiver launched, while the URL is being
      handed over, fails the launch with its text and sends nothing. */
  lemma LaterErrorFailsLaunch(name: string, httpsUrl: Option<string>, hint: Option<string>, stream: string, w: LaunchWorld)
    requires Resolve(name, hint, w.hinted, w.scan).0.Found? && w.waitError.None? && w.start.AppStarted?
    requires Truthy(httpsUrl) && w.laterError.Some?
    ensures LaunchOutcome(name, httpsUrl, hint, stream, w) == (LaunchFailed(Plain(w.laterError.value)), [])
  {
  }

  // ---------------------------------------------------------------------
  // webrtc_launch_multicast

  /** One speaker to launch on, with what its own launch will meet. */
  datatype Target = Target(name: string, world: LaunchWorld)

  datatype FailedLaunch = FailedLaunch(name: string, error: string)

  /** `success`, `launched`, `failed`, `total` (mode "multicast"). */
  datatype MulticastResult = MulticastResult(success: bool, launched: seq<string>, failed: seq<FailedLaunch>, total: nat)

  /** `speaker_ips[i] if speaker_ips and i < len(speaker_ips) else None`. */
  function IpFor(ips: Option<seq<string>>, i: nat): (r: Option<string>)
    ensures r.Some? <==> ips.Some? && |ips.value| > 0 && i < |ips.value|
    ensures r.Some? ==> r.value == ips.value[i]
  {
    if ips.Some? && |ips.value| > 0 && i < |ips.value| then Some(ips.value[i]) else None
  }

  function Names(targets: seq<Target>): (names: seq<string>)
    ensures |names| == |targets|
    ensures forall i :: 0 <= i < |targets| ==> names[i] == targets[i].name
  {
    seq(|targets|, i requires 0 <= i < |targets| => targets[i].name)
  }

  /** The reply of each speaker's launch. */
  ghost function Outcomes(targets: seq<Target>, httpsUrl: Option<string>, ips: Option<seq<string>>, stream: string): (rs: seq<LaunchResult>)
    ensures |rs| == |targets|
  {
    seq(|targets|, i requires 0 <= i < |targets| =>
      LaunchOutcome(targets[i].name, httpsUrl, IpFor(ips, i), stream, targets[i].world).0)
  }

  /** The names whose launch succeeded, in input order. */
  function LaunchedNames(names: seq<string>, results: seq<LaunchResult>): seq<string>
    requires |names| == |results|
  {
    if |names| == 0 then []
    else
      LaunchedNames(names[..|names| - 1], results[..|names| - 1]) +
      (if results[|names| - 1].Launched? then [names[|names| - 1]] else [])
  }

  /** The failed launches with their errors, in input order. */
  function FailedLaunches(names: seq<string>, results: seq<LaunchResult>): seq<FailedLaunch>
    requires |names| == |results|
  {
    if |names| == 0 then []
    else
      FailedLaunches(names[..|names| - 1], results[..|names| - 1]) +
      (if results[|names| - 1].Launched? then [] else [FailedLaunch(names[|names| - 1], results[|names| - 1].failure.error)])
  }

  /** Every speaker is either launched or failed, never both. */
  lemma {:induction false} LaunchPartition(names: seq<string>, results: seq<LaunchResult>)
    requires |names| == |results|
    ensures |LaunchedNames(names, results)| + |FailedLaunches(names, results)| == |names|
    decreases |names|
  {
    if |names| > 0 {
      LaunchPartition(names[..|names| - 1], results[..|names| - 1]);
    }
  }

  /** A name is listed as launched exactly when some speaker of that name
      launched. */
  lemma {:induction false} LaunchedMember(names: seq<string>, results: seq<LaunchResult>, n: string)
    requires |names| == |results|
    ensures n in LaunchedNames(names, results) <==> exists i :: 0 <= i < |names| && names[i] == n && results[i].Launched?
    decreases |names|
  {
    if |names| > 0 {
      var m := |names| - 1;
      LaunchedMember(names[..m], results[..m], n);
      if exists i :: 0 <= i < |names| && names[i] == n && results[i].Launched? {
        var i :| 0 <= i < |names| && names[i] == n && results[i].Launched?;
        if i < m {
          assert names[..m][i] == n && results[..m][i].Launched?;
        }
      }
      if n in LaunchedNames(names[..m], results[..m]) {
        var i :| 0 <= i < m && names[..m][i] == n && results[..m][i].Launched?;
        assert names[i] == n && results[i].Launched?;
      }
    }
  }

  /** One turn of webrtc_launch_multicast: launch on the i-th speaker with
      the i-th address, when there is one. */
  method LaunchAt(targets: seq<Target>, i: nat, httpsUrl: Option<string>, ips: Option<seq<string>>, stream: string)
    returns (result: LaunchResult)
    requires i < |targets|
    ensures result == Outcomes(targets, httpsUrl, ips, stream)[i]
  {
    var sent, lookups;
    result, sent, lookups := WebrtcLaunch(targets[i].name, httpsUrl, IpFor(ips, i), stream, targets[i].world);
  }

  /** webrtc_launch_multicast: launch on each speaker in turn, the i-th with
      the i-th address when there is one. */
  method WebrtcLaunchMulticast(targets: seq<Target>, httpsUrl: Option<string>, ips: Option<seq<string>>, stream: string)
    returns (r: MulticastResult)
    ensures r.total == |targets|
    ensures r.launched == LaunchedNames(Names(targets), Outcomes(targets, httpsUrl, ips, stream))
    ensures r.failed == FailedLaunches(Names(targets), Outcomes(targets, httpsUrl, ips, stream))
    ensures |r.launched| + |r.failed| == r.total
    ensures r.success <==> |r.launched| > 0
  {
    ghost var names := Names(targets);
    ghost var outcomes := Outcomes(targets, httpsUrl, ips, stream);
    var launched: seq<string> := [];
    var failed: seq<FailedLaunch> := [];
    var i := 0;
    while i < |targets|
      invariant 0 <= i <= |targets|
      invariant launched == LaunchedNames(names[..i], outcomes[..i])
      invariant failed == FailedLaunches(names[..i], outcomes[..i])
    {
      var result := LaunchAt(targets, i, httpsUrl, ips, stream);
      assert names[..i + 1][..i] == names[..i] && outcomes[..i + 1][..i] == outcomes[..i];
      if result.Launched? {
        launched := launched + [targets[i].name];
      } else {
        failed := failed + [FailedLaunch(targets[i].name, result.failure.error)];
      }
      i := i + 1;
    }
    assert names[..i] == names && outcomes[..i] == outcomes;
    LaunchPartition(names, outcomes);
    r := MulticastResult(|launched| > 0, launched, failed, |targets|);
  }

  // ---------------------------------------------------------------------
  // get_group_members

  /** A device as the full scan reports it. */
  datatype Device = Device(name: string, host: string, uuid: string, model: string, castType: string)

  /** The full scan: the devices found, or the exception raised. */
  datatype DeviceScan = Scanned(devices: seq<Device>) | ScanRaised(error: string)

  /** The multizone controller's `members`: a dict (its keys are the member
      UUIDs), a list of UUIDs, or anything else (no members). */
  datatype MemberList = MemberDict(keys: seq<string>) | MemberSeq(ids: seq<string>) | NoMembers

  function MemberIds(ml: MemberList): seq<string> {
    match ml
    case MemberDict(keys) => keys
    case MemberSeq(ids) => ids
    case NoMembers => []
  }

  /** A member record: `name`, `ip`, `uuid`, `model`. */
  datatype Member = Member(name: string, ip: string, uuid: string, model: string)

  function MemberOf(d: Device): Member {
    Member(d.name, d.host, d.uuid, d.model)
  }

  /** What get_group_members meets: the device scan, an exception raised
      while connecting to the group and requesting its members (the wait,
      registering the multizone controller, the member request), and the
      member list the controller then holds. */
  datatype GroupWorld = GroupWorld(scan: DeviceScan, setupError: Option<string>, members: MemberList)

  /** `success`, `group_name`, `group_uuid`, `members`, `count`. */
  datatype GroupResult =
    | GroupFound(groupName: string, groupUuid: string, members: seq<Member>, count: nat)
    | GroupFailed(error: string)

  predicate IsGroupNamed(d: Device, group: string) {
    d.name == group && d.castType == "group"
  }

  /** The first device, from `from` on, that is the named group. */
  function FindGroup(devices: seq<Device>, group: string, from: nat): (r: Option<nat>)
    requires from <= |devices|
    ensures r.Some? ==> from <= r.value < |devices| && IsGroupNamed(devices[r.value], group)
    ensures r.Some? ==> forall k :: from <= k < r.value ==> !IsGroupNamed(devices[k], group)
    ensures r.None? ==> forall k :: from <= k < |devices| ==> !IsGroupNamed(devices[k], group)
    decreases |devices| - from
  {
    if from == |devices| then None
    else if IsGroupNamed(devices[from], group) then Some(from)
    else FindGroup(devices, group, from + 1)
  }

  /** The devices whose UUID the group lists, in discovery order. */
  function UuidMembers(devices: seq<Device>, ids: seq<string>): seq<Member> {
    if |devices| == 0 then []
    else
      UuidMembers(devices[..|devices| - 1], ids) +
      (if devices[|devices| - 1].uuid in ids then [MemberOf(devices[|devices| - 1])] else [])
  }

  /** The audio devices sharing the group's host, in discovery order. */
  function HostMembers(devices: seq<Device>, host: string): seq<Member> {
    if |devices| == 0 then []
    else
      HostMembers(devices[..|devices| - 1], host) +
      (if devices[|devices| - 1].host == host && devices[|devices| - 1].castType == "audio"
       then [MemberOf(devices[|devices| - 1])] else [])
  }

  /** A device is a UUID member exactly when the group lists its UUID. */
  lemma {:induction false} UuidMembersIff(devices: seq<Device>, ids: seq<string>, m: Member)
    ensures m in UuidMembers(devices, ids) <==> exists k :: 0 <= k < |devices| && devices[k].uuid in ids && m == MemberOf(devices[k])
    decreases |devices|
  {
    if |devices| > 0 {
      var init := devices[..|devices| - 1];
      UuidMembersIff(init, ids, m);
      if m in UuidMembers(init, ids) {
        var k :| 0 <= k < |init| && init[k].uuid in ids && m == MemberOf(init[k]);
        assert devices[k] == init[k];
      }
      if exists k :: 0 <= k < |devices| && devices[k].uuid in ids && m == MemberOf(devices[k]) {
        var k :| 0 <= k < |devices| && devices[k].uuid in ids && m == MemberOf(devices[k]);
        if k < |init| {
          assert init[k] == devices[k];
        }
      }
    }
  }

  /** A device is a host member exactly when it is an audio device on the
      group's host. */
  lemma {:induction false} HostMembersIff(devices: seq<Device>, host: string, m: Member)
    ensures m in HostMembers(devices, host) <==>
      exists k :: 0 <= k < |devices| && devices[k].host == host && devices[k].castType == "audio" && m == MemberOf(devices[k])
    decreases |devices|
  {
    if |devices| > 0 {
      var init := devices[..|devices| - 1];
      HostMembersIff(init, host, m);
      if m in HostMembers(init, host) {
        var k :| 0 <= k < |init| && init[k].host == host && init[k].castType == "audio" && m == MemberOf(init[k]);
        assert devices[k] == init[k];
      }
      if exists k :: 0 <= k < |devices| && devices[k].host == host && devices[k].castType == "audio" && m == MemberOf(devices[k]) {
        var k :| 0 <= k < |devices| && devices[k].host == host && devices[k].castType == "audio" && m == MemberOf(devices[k]);
        if k < |init| {
          assert init[k] == devices[k];
        }
      }
    }
  }

  /** get_group_members' reply. */
  function GroupOutcome(group: string, w: GroupWorld): GroupResult {
    match w.scan
    case ScanRaised(e) => GroupFailed(e)
    case Scanned(devices) =>
      match FindGroup(devices, group, 0)
      case None => GroupFailed("Group '" + group + "' not found")
      case Some(g) =>
        if w.setupError.Some? then GroupFailed(w.setupError.value)
        else
          var byUuid := UuidMembers(devices, MemberIds(w.members));
          var members := if |byUuid| > 0 then byUuid else HostMembers(devices, devices[g].host);
          GroupFound(group, devices[g].uuid, members, |members|)
  }

  /** The host fallback is used exactly when no UUID matched; the count is
      the number of members. */
  lemma GroupFallback(group: string, w: GroupWorld)
    requires GroupOutcome(group, w).GroupFound?
    ensures GroupOutcome(group, w).count == |GroupOutcome(group, w).members|
    ensures |UuidMembers(w.scan.devices, MemberIds(w.members))| > 0 ==>
      GroupOutcome(group, w).members == UuidMembers(w.scan.devices, MemberIds(w.members))
    ensures |UuidMembers(w.scan.devices, MemberIds(w.members))| == 0 ==>
      exists g :: 0 <= g < |w.scan.devices| && IsGroupNamed(w.scan.devices[g], group) &&
        GroupOutcome(group, w).members == HostMembers(w.scan.devices, w.scan.devices[g].host)
  {
    var g := FindGroup(w.scan.devices, group, 0).value;
    assert IsGroupNamed(w.scan.devices[g], group);
  }

  /** The lookup fails exactly when the scan raises, no group of that name
      is found, or connecting to the group raises; that last error is
      passed on as it is. */
  lemma GroupFailure(group: string, w: GroupWorld)
    ensures GroupOutcome(group, w).GroupFailed? <==>
      w.scan.ScanRaised? || FindGroup(w.scan.devices, group, 0).None? || w.setupError.Some?
    ensures w.scan.Scanned? && FindGroup(w.scan.devices, group, 0).Some? && w.setupError.Some? ==>
      GroupOutcome(group, w) == GroupFailed(w.setupError.value)
  {
  }

  /** get_group_members. */
  method GetGroupMembers(group: string, w: GroupWorld) returns (r: GroupResult)
    ensures r == GroupOutcome(group, w)
  {
    if w.scan.ScanRaised? {
      return GroupFailed(w.scan.error);
    }
    var devices := w.scan.devices;
    var g := FirstGroupIndex(devices, group);
    if g == |devices| {
      return GroupFailed("Group '" + group + "' not found");
    }
    if w.setupError.Some? {
      return GroupFailed(w.setupError.value);
    }
    var members := UuidMatches(devices, MemberIds(w.members));
    if |members| == 0 {
      members := HostMatches(devices, devices[g].host);
    }
    r := GroupFound(group, devices[g].uuid, members, |members|);
  }

  /** The search loop for the group: its index, or |devices| when absent. */
  method FirstGroupIndex(devices: seq<Device>, group: string) returns (g: nat)
    ensures g <= |devices|
    ensures g < |devices| <==> FindGroup(devices, group, 0).Some?
    ensures g < |devices| ==> FindGroup(devices, group, 0) == Some(g)
  {
    g := 0;
    while g < |devices| && !IsGroupNamed(devices[g], group)
      invariant 0 <= g <= |devices|
      invariant FindGroup(devices, group, 0) == FindGroup(devices, group, g)
    {
      g := g + 1;
    }
  }

  /** The loop collecting the devices whose UUID the group lists. */
  method UuidMatches(devices: seq<Device>, ids: seq<string>) returns (members: seq<Member>)
    ensures members == UuidMembers(devices, ids)
  {
    members := [];
    var i := 0;
    while i < |devices|
      invariant 0 <= i <= |devices|
      invariant members == UuidMembers(devices[..i], ids)
    {
      assert devices[..i + 1][..i] == devices[..i];
      if devices[i].uuid in ids {
        members := members + [MemberOf(devices[i])];
      }
      i := i + 1;
    }
    assert devices[..i] == devices;
  }

  /** The fallback loop collecting the audio devices on the group's host. */
  method HostMatches(devices: seq<Device>, host: string) returns (members: seq<Member>)
    ensures members == HostMembers(devices, host)
  {
    members := [];
    var i := 0;
    while i < |devices|
      invariant 0 <= i <= |devices|
      invariant members == HostMembers(devices[..i], host)
    {
      assert devices[..i + 1][..i] == devices[..i];
      if devices[i].host == host && devices[i].castType == "audio" {
        members := members + [MemberOf(devices[i])];
      }
      i := i + 1;
    }
    assert devices[..i] == devices;
  }

  // ---------------------------------------------------------------------
  // webrtc_proxy_connect

  /** MediaMTX's answer to the WHEP POST: the SDP answer, an HTTP error,
      no connection, or any other exception while reading the answer. */
  datatype WhepReply =
    | Answered(sdp: string)
    | HttpError(code: nat, body: string)
    | Unreachable(reason: string)
    | WhepRaised(error: string)

  /** What the outside world answers during proxy signalling. */
  datatype ProxyWorld = ProxyWorld(
    hinted: Lookup,
    scan: Lookup,
    waitError: Option<string>,
    start: AppStart,
    setupError: Option<string>,   // exception raised by registering the controller, the status
                                  // updates or sending the offer request
    appIds: seq<Option<string>>,
    early: seq<Message>,          // messages the receiver sends before the wait for the offer begins
    arrival: Option<Message>,     // the message that arrives during that wait, if any
    whep: WhepReply,
    answerError: Option<string>)  // exception raised by sending the answer to the receiver

  datatype ProxyResult = ProxyFailed(failure: Failure) | ProxyConnected

  /** An HTTP POST: its URL and body. */
  datatype Post = Post(url: string, body: string)

  /** The WHEP endpoint of a stream. */
  function WhepUrl(mediamtx: string, stream: string): string {
    mediamtx + "/" + stream + "/whep"
  }

  function RequestOffer(stream: string): Message {
    map["type" := "request_offer", "stream" := stream]
  }

  function AnswerMessage(sdp: string): Message {
    map["type" := "answer", "sdp" := sdp]
  }

  /** How a missing `type` prints in an f-string. */
  function TypeText(t: Option<string>): string {
    if t.Some? then t.value else "None"
  }

  /** The signalling steps after the receiver is up, given the message the
      wait yields: the reply, the POST made and the messages sent. */
  function Signal(offer: Option<Message>, mediamtx: string, stream: string, whep: WhepReply, answerError: Option<string>): (ProxyResult, Option<Post>, seq<Message>) {
    var requested := [RequestOffer(stream)];
    if offer.None? || offer.value == map[] then
      (ProxyFailed(Plain("Timeout waiting for offer from receiver")), None, requested)
    else if Get(offer.value, "type") != Some("offer") then
      (ProxyFailed(Plain("Unexpected message type: " + TypeText(Get(offer.value, "type")))), None, requested)
    else if !Truthy(Get(offer.value, "sdp")) then
      (ProxyFailed(Plain("No SDP in offer")), None, requested)
    else
      var post := Some(Post(WhepUrl(mediamtx, stream), offer.value["sdp"]));
      match whep
      case HttpError(code, body) => (ProxyFailed(Plain("WHEP error " + DecimalDigits(code) + ": " + body)), post, requested)
      case Unreachable(reason) => (ProxyFailed(Plain("Cannot reach MediaMTX: " + reason)), post, requested)
      case WhepRaised(error) => (ProxyFailed(Plain(error)), post, requested)
      case Answered(sdp) =>
        if answerError.Some? then (ProxyFailed(Plain(answerError.value)), post, requested)
        else (ProxyConnected, post, requested + [AnswerMessage(sdp)])
  }

  /** webrtc_proxy_connect's reply, POST and sent messages. */
  function ProxyOutcome(name: string, mediamtx: string, hint: Option<string>, stream: string, w: ProxyWorld): (ProxyResult, Option<Post>, seq<Message>) {
    match Resolve(name, hint, w.hinted, w.scan).0
    case ResolveRaised(e) => (ProxyFailed(Plain(e)), None, [])
    case Missing => (ProxyFailed(Plain(NotFoundMessage(name))), None, [])
    case Found(_) =>
      if w.waitError.Some? then (ProxyFailed(Plain(w.waitError.value)), None, [])
      else if w.start.AppRaised? then (ProxyFailed(ProxyAppFailure(w.start.typeName, w.start.message)), None, [])
      else if w.setupError.Some? then (ProxyFailed(Plain(w.setupError.value)), None, [])
      else Signal(NextMessage(w.early, w.arrival), mediamtx, stream, w.whep, w.answerError)
  }

  /** The answer goes to the receiver exactly when signalling succeeds, and
      always after the offer request. */
  lemma {:induction false} AnswerOnlyOnSuccess(offer: Option<Message>, mediamtx: string, stream: string, whep: WhepReply, answerError: Option<string>)
    ensures Signal(offer, mediamtx, stream, whep, answerError).0 == ProxyConnected <==>
      |Signal(offer, mediamtx, stream, whep, answerError).2| == 2
    ensures Signal(offer, mediamtx, stream, whep, answerError).2[0] == RequestOffer(stream)
    ensures Signal(offer, mediamtx, stream, whep, answerError).0 == ProxyConnected ==>
      Signal(offer, mediamtx, stream, whep, answerError).2[1] == AnswerMessage(whep.sdp)
    ensures Signal(offer, mediamtx, stream, whep, answerError).0 == ProxyConnected <==>
      Signal(offer, mediamtx, stream, whep, answerError).1.Some? && whep.Answered? && answerError.None?
  {
  }

  /** A POST is made only for an offer of type "offer" carrying an SDP, to
      the stream's WHEP endpoint with that SDP as body. */
  lemma PostOnlyForOffer(offer: Option<Message>, mediamtx: string, stream: string, whep: WhepReply, answerError: Option<string>)
    requires Signal(offer, mediamtx, stream, whep, answerError).1.Some?
    ensures offer.Some? && Get(offer.value, "type") == Some("offer") && Truthy(Get(offer.value, "sdp"))
    ensures Signal(offer, mediamtx, stream, whep, answerError).1.value == Post(WhepUrl(mediamtx, stream), offer.value["sdp"])
  {
  }

  /** Without a message arriving during the wait the proxy times out, even
      when a message was already queued. */
  lemma QueuedMessageIgnoredWithoutArrival(name: string, mediamtx: string, hint: Option<string>, stream: string, w: ProxyWorld)
    requires Resolve(name, hint, w.hinted, w.scan).0.Found? && w.waitError.None? && w.start.AppStarted?
    requires w.setupError.None? && w.arrival.None?
    ensures ProxyOutcome(name, mediamtx, hint, stream, w).0 == ProxyFailed(Plain("Timeout waiting for offer from receiver"))
  {
  }

  /** An exception while the controller is set up, before the offer
      request goes out, fails the connection with its text: nothing is
      sent and nothing is posted. */
  lemma ProxySetupErrorFails(name: string, mediamtx: string, hint: Option<string>, stream: string, w: ProxyWorld)
    requires Resolve(name, hint, w.hinted, w.scan).0.Found? && w.waitError.None? && w.start.AppStarted?
    requires w.setupError.Some?
    ensures ProxyOutcome(name, mediamtx, hint, stream, w) == (ProxyFailed(Plain(w.setupError.value)), None, [])
  {
  }

  /** webrtc_proxy_connect. */
  method WebrtcProxyConnect(name: string, mediamtx: string, hint: Option<string>, stream: string, w: ProxyWorld)
    returns (r: ProxyResult, post: Option<Post>, sent: seq<Message>)
    ensures (r, post, sent) == ProxyOutcome(name, mediamtx, hint, stream, w)
  {
    post, sent := None, [];
    match Resolve(name, hint, w.hinted, w.scan).0 {
      case ResolveRaised(e) =>
        return ProxyFailed(Plain(e)), post, sent;
      case Missing =>
        return ProxyFailed(Plain(NotFoundMessage(name))), post, sent;
      case Found(_) =>
    }
    if w.waitError.Some? {
      return ProxyFailed(Plain(w.waitError.value)), post, sent;
    }
    if w.start.AppRaised? {
      return ProxyFailed(ProxyAppFailure(w.start.typeName, w.start.message)), post, sent;
    }
    if w.setupError.Some? {
      return ProxyFailed(Plain(w.setupError.value)), post, sent;
    }
    var ctl := new WebRtcController();
    var ready, polls := AwaitReceiver(w.appIds);
    ctl.SendMessage(RequestOffer(stream));
    var i := 0;
    while i < |w.early|
      invariant 0 <= i <= |w.early|
      invariant ctl.messages == w.early[..i] && ctl.sent == [RequestOffer(stream)]
    {
      assert w.early[..i + 1] == w.early[..i] + [w.early[i]];
      ctl.ReceiveMessage(w.early[i]);
      i := i + 1;
    }
    assert w.early[..i] == w.early;
    var offer := ctl.WaitForMessage(w.arrival);
    r, post, sent := ExchangeSdp(ctl, offer, mediamtx, stream, w.whep, w.answerError);
  }

  /** The steps of webrtc_proxy_connect after the wait for the offer:
      check the offer, POST it to MediaMTX and relay the answer. */
  method ExchangeSdp(ctl: WebRtcController, offer: Option<Message>, mediamtx: string, stream: string, whep: WhepReply, answerError: Option<string>)
    returns (r: ProxyResult, post: Option<Post>, sent: seq<Message>)
    requires ctl.sent == [RequestOffer(stream)]
    modifies ctl
    ensures (r, post, sent) == Signal(offer, mediamtx, stream, whep, answerError)
  {
    post := None;
    if offer.None? || offer.value == map[] {
      return ProxyFailed(Plain("Timeout waiting for offer from receiver")), post, ctl.sent;
    }
    var kind := Get(offer.value, "type");
    if kind != Some("offer") {
      return ProxyFailed(Plain("Unexpected message type: " + TypeText(kind))), post, ctl.sent;
    }
    var sdp := Get(offer.value, "sdp");
    if !Truthy(sdp) {
      return ProxyFailed(Plain("No SDP in offer")), post, ctl.sent;
    }
    post := Some(Post(WhepUrl(mediamtx, stream), sdp.value));
    match whep {
      case HttpError(code, body) =>
        return ProxyFailed(Plain("WHEP error " + DecimalDigits(code) + ": " + body)), post, ctl.sent;
      case Unreachable(reason) =>
        return ProxyFailed(Plain("Cannot reach MediaMTX: " + reason)), post, ctl.sent;
      case WhepRaised(error) =>
        return ProxyFailed(Plain(error)), post, ctl.sent;
      case Answered(answer) =>
        if answerError.Some? {
          return ProxyFailed(Plain(answerError.value)), post, ctl.sent;
        }
        ctl.SendMessage(AnswerMessage(answer));
    }
    r, sent := ProxyConnected, ctl.sent;
  }

  // ---------------------------------------------------------------------
  // Volume

  /** A volume reply: the level set, or the error. */
  datatype VolumeResult = VolumeOk(volume: real) | VolumeFailed(error: string)

  /** The single lookup set_volume_fast makes: the known host for 3
      seconds, or a 10-second scan; there is no fallback between them. */
  function FastVolumeLookup(name: string, hint: Option<string>): (d: DiscoveryCall)
    ensures Hinted(hint) ==> d == HostLookup(name, hint.value, 3)
    ensures !Hinted(hint) ==> d == ScanLookup(name)
  {
    if Hinted(hint) then HostLookup(name, hint.value, 3) else ScanLookup(name)
  }

  /** set_volume_fast: the level is clamped into [0, 1] before use. `lookup`
      answers FastVolumeLookup; `setError` is what cast.wait or
      cast.set_volume raised. */
  function SetVolumeFast(name: string, level: real, lookup: Lookup, setError: Option<string>): (r: VolumeResult)
    ensures r.VolumeOk? <==> FirstListed(lookup).Some? && setError.None?
    ensures r.VolumeOk? ==> r.volume == Clamp(level) && 0.0 <= r.volume <= 1.0
    ensures lookup == Listed([]) ==> r == VolumeFailed(NotFoundMessage(name))
  {
    var volume := Clamp(level);
    match lookup
    case LookupRaised(e) => VolumeFailed(e)
    case Listed(casts) =>
      if |casts| == 0 then VolumeFailed(NotFoundMessage(name))
      else if setError.Some? then VolumeFailed(setError.value)
      else VolumeOk(volume)
  }

  /** set_volume as the module finally defines it: one lookup by name, and
      the level passed to the device and echoed unchanged. `setError` is what
      cast.wait or cast.set_volume raised. */
  function SetVolume(name: string, level: real, lookup: Lookup, setError: Option<string>): (r: VolumeResult)
    ensures r.VolumeOk? <==> FirstListed(lookup).Some? && setError.None?
    ensures r.VolumeOk? ==> r.volume == level
    ensures lookup == Listed([]) ==> r == VolumeFailed(NotFoundMessage(name))
  {
    match lookup
    case LookupRaised(e) => VolumeFailed(e)
    case Listed(casts) =>
      if |casts| == 0 then VolumeFailed(NotFoundMessage(name))
      else if setError.Some? then VolumeFailed(setError.value)
      else VolumeOk(level)
  }

  /** Only the fast path clamps: a level above 1 reaches the device as is
      through set_volume and as 1 through set_volume_fast. */
  lemma OnlyFastPathClamps(name: string, c: Cast)
    ensures SetVolume(name, 1.5, Listed([c]), None) == VolumeOk(1.5)
    ensures SetVolumeFast(name, 1.5, Listed([c]), None) == VolumeOk(1.0)
  {
  }

  /** `cast.status` volume fields. */
  datatype VolumeStatus = VolumeStatus(level: real, muted: bool)

  /** A get-volume reply. */
  datatype LevelResult = Level(volume: real, muted: bool) | LevelFailed(error: string)

  /** get_volume as the module finally defines it: the device's level and
      mute flag; a device without status raises on the attribute access. */
  function GetVolume(name: string, lookup: Lookup, waitError: Option<string>, status: Option<VolumeStatus>): (r: LevelResult)
    ensures r.Level? <==> FirstListed(lookup).Some? && waitError.None? && status.Some?
    ensures r.Level? ==> r == Level(status.value.level, status.value.muted)
    ensures lookup == Listed([]) ==> r == LevelFailed(NotFoundMessage(name))
  {
    match lookup
    case LookupRaised(e) => LevelFailed(e)
    case Listed(casts) =>
      if |casts| == 0 then LevelFailed(NotFoundMessage(name))
      else if waitError.Some? then LevelFailed(waitError.value)
      else if status.None? then LevelFailed("'NoneType' object has no attribute 'volume_level'")
      else Level(status.value.level, status.value.muted)
  }
}
