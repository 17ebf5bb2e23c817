/** The persistent connection daemon: a registry of open Cast connections
    keyed by speaker name, and a loop that answers one JSON command per
    input line. Device answers (discovery, the liveness probe, the volume
    status, failing device calls) and the clock are inputs; JSON text is
    replaced by pre-classified lines and response values. */
module CastDaemon {
  import opened Common
  import opened CastDevices

  // ---------------------------------------------------------------------
  // Devices and their answers

  /** `cast.status` volume fields. */
  datatype VolumeStatus = VolumeStatus(level: real, muted: bool)

  /** What the outside world answers while one command is handled. */
  datatype Env = Env(
    probe: bool,                  // reading `cast.status` of a cached connection succeeds
    lookup: Lookup,               // discovery, when it is made
    now: real,                    // time.time()
    status: Option<VolumeStatus>, // `cast.status` of the resolved device (None when it is None)
    deviceError: Option<string>,  // exception raised by `cast.set_volume`
    chimeStarts: bool)            // `start_app` of the disconnect chime succeeds

  /** Calls made on a cached connection while it is torn down. */
  datatype DeviceCall =
    | QuitApp(speaker: string)
    | StartApp(speaker: string, appId: string)
    | CloseSocket(speaker: string)
    | StopDiscovery(speaker: string)

  /** The Default Media Receiver, started briefly to play the disconnect chime. */
  const CHIME_APP_ID: string := "CC1AD845"

  // ---------------------------------------------------------------------
  // The registry

  /** One cached connection (`{cast, browser, connected_at, ip}`); the
      discovery browser is implicit: every entry has one. */
  datatype Entry = Entry(cast: Cast, connectedAt: real, ip: string)

  /** The `connections` dict: its entries and, since a dict remembers
      insertion order, the order in which the names were inserted. */
  datatype Registry = Registry(conns: map<string, Entry>, order: seq<string>)

  predicate NoDup(s: seq<string>) {
    forall i, j :: 0 <= i < j < |s| ==> s[i] != s[j]
  }

  /** `s` without `x`: the insertion order after `del connections[x]`. */
  function Without(s: seq<string>, x: string): (r: seq<string>)
    ensures forall y :: y in r <==> y in s && y != x
    ensures NoDup(s) ==> NoDup(r)
    ensures x !in s ==> r == s
  {
    if |s| == 0 then []
    else if s[0] == x then Without(s[1..], x)
    else
      assert NoDup(s) ==> NoDup(s[1..]) && s[0] !in s[1..];
      [s[0]] + Without(s[1..], x)
  }

  /** A registry the daemon can reach: each name is inserted once, the
      order lists exactly the cached names, and each entry's `ip` is the
      host of its device. */
  ghost predicate Wf(st: Registry) {
    && NoDup(st.order)
    && (forall n :: n in st.order <==> n in st.conns)
    && (forall n :: n in st.conns ==> st.conns[n].ip == st.conns[n].cast.host)
  }

  /** A duplicate-free sequence has as many distinct elements as positions. */
  lemma {:induction false} DistinctCard(s: seq<string>)
    requires NoDup(s)
    ensures |set x | x in s| == |s|
  {
    if |s| > 0 {
      var t := s[1..];
      assert NoDup(t);
      DistinctCard(t);
      assert s[0] !in t;
      assert (set x | x in s) == {s[0]} + (set x | x in t);
    }
  }

  /** In a reachable registry there are as many names in the order as entries. */
  lemma RegistrySize(st: Registry)
    requires Wf(st)
    ensures |st.conns| == |st.order|
  {
    DistinctCard(st.order);
    assert st.conns.Keys == set x | x in st.order;
  }

  // ---------------------------------------------------------------------
  // get_or_create_connection

  /** The lookup a hint selects: known hosts and 3 seconds, or a full scan
      of 10 seconds. */
  function DiscoveryFor(name: string, ip: Option<string>): (d: DiscoveryCall)
    ensures d.friendlyNames == [name]
    ensures Hinted(ip) ==> d.knownHosts == [ip.value] && d.timeout == 3
    ensures !Hinted(ip) ==> d.knownHosts == [] && d.timeout == 10
  {
    if Hinted(ip) then HostLookup(name, ip.value, 3) else ScanLookup(name)
  }

  /** A cached connection whose probe succeeds is reused. */
  predicate CacheHit(st: Registry, name: string, env: Env) {
    name in st.conns && env.probe
  }

  /** The device get_or_create_connection returns: the cached one on a hit,
      otherwise the first device discovery lists, if any. */
  function Resolved(st: Registry, name: string, env: Env): Option<Cast> {
    if CacheHit(st, name, env) then Some(st.conns[name].cast)
    else FirstListed(env.lookup)
  }

  /** The discovery call get_or_create_connection makes, if any. */
  function DiscoveryMade(st: Registry, name: string, hint: Option<string>, env: Env): Option<DiscoveryCall> {
    if CacheHit(st, name, env) then None else Some(DiscoveryFor(name, hint))
  }

  /** The registry after get_or_create_connection: unchanged on a hit;
      otherwise a dead entry is gone and a found device is cached last. */
  function Registered(st: Registry, name: string, env: Env): Registry {
    if CacheHit(st, name, env) then st
    else
      var conns := st.conns - {name};
      var order := Without(st.order, name);
      match Resolved(st, name, env)
      case Some(c) => Registry(conns[name := Entry(c, env.now, c.host)], order + [name])
      case None => Registry(conns, order)
  }

  /** A cache hit makes no discovery call and leaves the registry as it is. */
  lemma CacheHitReuses(st: Registry, name: string, hint: Option<string>, env: Env)
    requires CacheHit(st, name, env)
    ensures DiscoveryMade(st, name, hint, env) == None
    ensures Registered(st, name, env) == st
    ensures Resolved(st, name, env) == Some(st.conns[name].cast)
  {
  }

  /** Without a hit exactly one discovery call is made, the one the hint
      selects; a failed hinted lookup is not retried with a scan. */
  lemma MissDiscoversOnce(st: Registry, name: string, hint: Option<string>, env: Env)
    requires !CacheHit(st, name, env)
    ensures DiscoveryMade(st, name, hint, env) == Some(DiscoveryFor(name, hint))
  {
  }

  /** A device is cached exactly when one is returned, and its entry records
      the device's host; every other entry is untouched. */
  lemma RegisteredOutcome(st: Registry, name: string, env: Env)
    ensures name in Registered(st, name, env).conns <==> Resolved(st, name, env).Some?
    ensures !CacheHit(st, name, env) && Resolved(st, name, env).Some? ==>
      Registered(st, name, env).conns[name] == Entry(Resolved(st, name, env).value, env.now, Resolved(st, name, env).value.host)
    ensures forall n :: n != name ==> (n in Registered(st, name, env).conns <==> n in st.conns)
    ensures forall n :: n != name && n in st.conns ==> Registered(st, name, env).conns[n] == st.conns[n]
  {
  }

  /** get_or_create_connection keeps the registry reachable; in particular a
      name never has two entries, since a dead one is deleted first. */
  lemma RegisteredWf(st: Registry, name: string, env: Env)
    requires Wf(st)
    ensures Wf(Registered(st, name, env))
  {
    var r := Registered(st, name, env);
    if !CacheHit(st, name, env) && Resolved(st, name, env).Some? {
      var order := Without(st.order, name);
      assert name !in order;
      forall i, j | 0 <= i < j < |order + [name]|
        ensures (order + [name])[i] != (order + [name])[j]
      {
        if j == |order| {
          assert (order + [name])[i] == order[i];
        } else {
          assert (order + [name])[i] == order[i] && (order + [name])[j] == order[j];
        }
      }
    }
  }

  // ---------------------------------------------------------------------
  // Commands

  /** The `volume` field of a set-volume command: absent, a value `float()`
      accepts, or one it rejects with the given message. */
  datatype VolumeField = Unset | Number(value: real) | NotANumber(error: string)

  /** A JSON object read from one input line; a missing key is None. */
  datatype Request = Request(cmd: Option<string>, speaker: Option<string>, ip: Option<string>, volume: VolumeField)

  /** `cmd_data.get('cmd', '')`. */
  function CmdOf(req: Request): string {
    if req.cmd.Some? then req.cmd.value else ""
  }

  /** `cmd_data.get('speaker', '')`. */
  function SpeakerOf(req: Request): string {
    if req.speaker.Some? then req.speaker.value else ""
  }

  /** One entry of the status listing. */
  datatype ConnInfo = ConnInfo(name: string, ip: string, connectedAt: real, ageSeconds: int)

  /** A reply line, as the dict it serialises. */
  datatype Response =
    | VolumeSet(volume: real)                               // success, volume
    | VolumeLevel(volume: real, muted: bool)                // success, volume, muted
    | Pinged(ip: string, level: Option<real>)               // success, ip, volume
    | Connected(speaker: string, ip: string, model: string) // success, speaker, ip, model
    | Disconnected                                          // success
    | NotConnected                                          // success, message "Not connected"
    | Status(connections: seq<ConnInfo>, count: nat)        // success, running, connections, connection_count
    | ShuttingDown                                          // success, message "Daemon shutting down"
    | Failure(error: string)                                // success false, error

  function NotFound(name: string): Response {
    Failure(NotFoundMessage(name))
  }

  /** Python's `int(x)` on a float: truncation toward zero. */
  function TruncateReal(x: real): (r: int)
    ensures x >= 0.0 ==> 0 <= r && r as real <= x < r as real + 1.0
    ensures x < 0.0 ==> r <= 0 && r as real - 1.0 < x <= r as real
  {
    if x >= 0.0 then x.Floor else -((-x).Floor)
  }

  /** The status record of the connection named `n`, if it is cached. */
  function InfoOf(n: string, conns: map<string, Entry>, now: real): seq<ConnInfo> {
    if n in conns then [ConnInfo(n, conns[n].ip, conns[n].connectedAt, TruncateReal(now - conns[n].connectedAt))]
    else []
  }

  /** The `connections` list of get_status, in dict order. */
  function Listing(order: seq<string>, conns: map<string, Entry>, now: real): seq<ConnInfo> {
    if |order| == 0 then []
    else Listing(order[..|order| - 1], conns, now) + InfoOf(order[|order| - 1], conns, now)
  }

  /** In a reachable registry the listing has one record per cached
      connection, in insertion order, with the cached address. */
  lemma {:induction false} ListingComplete(st: Registry, now: real)
    requires Wf(st)
    ensures |Listing(st.order, st.conns, now)| == |st.order| == |st.conns|
    ensures forall i :: 0 <= i < |st.order| ==>
      Listing(st.order, st.conns, now)[i].name == st.order[i] &&
      Listing(st.order, st.conns, now)[i].ip == st.conns[st.order[i]].ip
  {
    ListingPrefix(st.order, st.conns, now);
    RegistrySize(st);
  }

  lemma {:induction false} ListingPrefix(order: seq<string>, conns: map<string, Entry>, now: real)
    requires forall n :: n in order ==> n in conns
    ensures |Listing(order, conns, now)| == |order|
    ensures forall i :: 0 <= i < |order| ==>
      Listing(order, conns, now)[i].name == order[i] &&
      Listing(order, conns, now)[i].ip == conns[order[i]].ip
    decreases |order|
  {
    if |order| > 0 {
      ListingPrefix(order[..|order| - 1], conns, now);
    }
  }

  function RequestedVolume(v: VolumeField): real
    requires !v.NotANumber?
  {
    if v.Number? then v.value else 0.5
  }

  /** set_volume: the level is clamped before the lookup; a value float()
      rejects fails before any lookup. */
  function SetVolumeAnswer(st: Registry, name: string, volume: VolumeField, env: Env): Response {
    if volume.NotANumber? then Failure(volume.error)
    else
      match Resolved(st, name, env)
      case None => NotFound(name)
      case Some(_) =>
        if env.deviceError.Some? then Failure(env.deviceError.value)
        else VolumeSet(Clamp(RequestedVolume(volume)))
  }

  /** get_volume: the device's level and mute flag, or 0.5 and false when
      it reports no status. */
  function GetVolumeAnswer(st: Registry, name: string, env: Env): Response {
    match Resolved(st, name, env)
    case None => NotFound(name)
    case Some(_) =>
      match env.status
      case Some(s) => VolumeLevel(s.level, s.muted)
      case None => VolumeLevel(0.5, false)
  }

  /** ping_speaker: the device's host and its level, if it reports one. */
  function PingAnswer(st: Registry, name: string, env: Env): Response {
    match Resolved(st, name, env)
    case None => NotFound(name)
    case Some(c) => Pinged(c.host, if env.status.Some? then Some(env.status.value.level) else None)
  }

  /** connect_speaker: the requested name with the device's host and model. */
  function ConnectAnswer(st: Registry, name: string, env: Env): Response {
    match Resolved(st, name, env)
    case None => NotFound(name)
    case Some(c) => Connected(name, c.host, c.model)
  }

  function DisconnectAnswer(st: Registry, name: string): Response {
    if name in st.conns then Disconnected else NotConnected
  }

  function StatusAnswer(st: Registry, now: real): Response {
    var active := Listing(st.order, st.conns, now);
    Status(active, |active|)
  }

  /** The verbs process_command routes. */
  predicate IsVerb(cmd: string) {
    cmd in {"set-volume", "get-volume", "ping", "connect", "disconnect", "status", "quit"}
  }

  /** process_command's reply to `req`. */
  function Answer(st: Registry, req: Request, env: Env): Response {
    var cmd := CmdOf(req);
    var name := SpeakerOf(req);
    if cmd == "set-volume" then SetVolumeAnswer(st, name, req.volume, env)
    else if cmd == "get-volume" then GetVolumeAnswer(st, name, env)
    else if cmd == "ping" then PingAnswer(st, name, env)
    else if cmd == "connect" then ConnectAnswer(st, name, env)
    else if cmd == "disconnect" then DisconnectAnswer(st, name)
    else if cmd == "status" then StatusAnswer(st, env.now)
    else if cmd == "quit" then ShuttingDown
    else Failure("Unknown command: " + cmd)
  }

  /** The registry after process_command handles `req`. */
  function After(st: Registry, req: Request, env: Env): Registry {
    var cmd := CmdOf(req);
    var name := SpeakerOf(req);
    if cmd == "set-volume" then
      (if req.volume.NotANumber? then st else Registered(st, name, env))
    else if cmd == "get-volume" || cmd == "ping" || cmd == "connect" then Registered(st, name, env)
    else if cmd == "disconnect" then Registry(st.conns - {name}, Without(st.order, name))
    else if cmd == "quit" then Registry(map[], [])
    else st
  }

  /** Every command keeps the registry reachable. */
  lemma AfterWf(st: Registry, req: Request, env: Env)
    requires Wf(st)
    ensures Wf(After(st, req, env))
  {
    RegisteredWf(st, SpeakerOf(req), env);
  }

  /** set-volume echoes a level within [0, 1]: the clamped request. */
  lemma SetVolumeClamped(st: Registry, req: Request, env: Env)
    requires CmdOf(req) == "set-volume" && Answer(st, req, env).VolumeSet?
    ensures !req.volume.NotANumber?
    ensures Answer(st, req, env).volume == Clamp(RequestedVolume(req.volume))
    ensures 0.0 <= Answer(st, req, env).volume <= 1.0
    ensures req.volume.Unset? ==> Answer(st, req, env).volume == 0.5
  {
  }

  /** A speaker neither cached alive nor found is reported by name, and
      nothing is cached for it. */
  lemma LookupFailureReported(st: Registry, req: Request, env: Env)
    requires CmdOf(req) in {"get-volume", "ping", "connect"} || (CmdOf(req) == "set-volume" && !req.volume.NotANumber?)
    requires Resolved(st, SpeakerOf(req), env).None?
    ensures Answer(st, req, env) == NotFound(SpeakerOf(req))
    ensures SpeakerOf(req) !in After(st, req, env).conns
  {
    RegisteredOutcome(st, SpeakerOf(req), env);
  }

  /** An unrecognised or missing verb is reported and changes nothing. */
  lemma UnknownCommand(st: Registry, req: Request, env: Env)
    requires !IsVerb(CmdOf(req))
    ensures Answer(st, req, env) == Failure("Unknown command: " + CmdOf(req))
    ensures After(st, req, env) == st
  {
  }

  /** status changes nothing and counts every cached connection. */
  lemma StatusReadOnly(st: Registry, req: Request, env: Env)
    requires Wf(st) && CmdOf(req) == "status"
    ensures After(st, req, env) == st
    ensures Answer(st, req, env).Status?
    ensures Answer(st, req, env).count == |Answer(st, req, env).connections| == |st.conns|
  {
    ListingComplete(st, env.now);
  }

  /** quit empties the registry and says so. */
  lemma QuitEmpties(st: Registry, req: Request, env: Env)
    requires CmdOf(req) == "quit"
    ensures After(st, req, env) == Registry(map[], [])
    ensures Answer(st, req, env) == ShuttingDown
  {
  }

  /** disconnect removes the entry; a second disconnect of the same name
      reports "Not connected" and changes nothing. */
  lemma DisconnectIdempotent(st: Registry, req: Request, env: Env, env': Env)
    requires CmdOf(req) == "disconnect"
    ensures SpeakerOf(req) !in After(st, req, env).conns
    ensures Answer(After(st, req, env), req, env') == NotConnected
    ensures After(After(st, req, env), req, env') == After(st, req, env)
  {
    var name := SpeakerOf(req);
    var once := After(st, req, env);
    assert Without(once.order, name) == once.order;
    assert once.conns - {name} == once.conns;
  }

  // ---------------------------------------------------------------------
  // The main loop

  /** One input line, classified the way main meets it. */
  datatype InputLine =
    | Blank                          // empty after strip()
    | Malformed(detail: string)      // json.loads raised JSONDecodeError
    | NotAnObject(error: string)     // parsed, but `.get` raised (not a JSON object)
    | Command(req: Request, env: Env)

  predicate IsQuitLine(line: InputLine) {
    line.Command? && line.req.cmd == Some("quit")
  }

  /** The reply written for a non-blank line. */
  function Respond(st: Registry, line: InputLine): Response
    requires !line.Blank?
  {
    match line
    case Malformed(d) => Failure("Invalid JSON: " + d)
    case NotAnObject(e) => Failure(e)
    case Command(req, env) => Answer(st, req, env)
  }

  /** The registry after a line. */
  function Step(st: Registry, line: InputLine): Registry {
    if line.Command? then After(st, line.req, line.env) else st
  }

  /** The reply lines main writes for `lines`, from registry `st`: one per
      non-blank line, up to and including the first quit. */
  function Session(st: Registry, lines: seq<InputLine>): seq<Response>
    decreases |lines|
  {
    if |lines| == 0 then []
    else
      (if lines[0].Blank? then [] else [Respond(st, lines[0])]) +
      (if IsQuitLine(lines[0]) then [] else Session(Step(st, lines[0]), lines[1..]))
  }

  /** The registry in force when line `k` is read. */
  function StateAt(st: Registry, lines: seq<InputLine>, k: nat): Registry
    requires k <= |lines|
    decreases k
  {
    if k == 0 then st else StateAt(Step(st, lines[0]), lines[1..], k - 1)
  }

  /** One turn of main's loop keeps its accounting: the replies written so
      far followed by the session still to run are the whole session. */
  lemma SessionAdvance(st: Registry, lines: seq<InputLine>, i: nat, done: seq<Response>, reply: seq<Response>, total: seq<Response>)
    requires i < |lines| && !IsQuitLine(lines[i])
    requires done + Session(st, lines[i..]) == total
    requires reply == if lines[i].Blank? then [] else [Respond(st, lines[i])]
    ensures (done + reply) + Session(Step(st, lines[i]), lines[i + 1..]) == total
  {
    var rest := lines[i..];
    var tail := Session(Step(st, lines[i]), lines[i + 1..]);
    assert rest[0] == lines[i] && rest[1..] == lines[i + 1..];
    assert Session(st, rest) == reply + tail;
    assert (done + reply) + tail == done + (reply + tail);
  }

  /** A quit line ends main's accounting: nothing follows its reply. */
  lemma SessionQuit(st: Registry, lines: seq<InputLine>, i: nat, done: seq<Response>, reply: seq<Response>, total: seq<Response>)
    requires i < |lines| && IsQuitLine(lines[i])
    requires done + Session(st, lines[i..]) == total
    requires reply == [Respond(st, lines[i])]
    ensures done + reply == total
  {
    assert lines[i..][0] == lines[i];
  }

  function CountNonBlank(lines: seq<InputLine>): nat {
    if |lines| == 0 then 0 else (if lines[0].Blank? then 0 else 1) + CountNonBlank(lines[1..])
  }

  /** Reply order: a non-blank line `k` before any quit gets exactly the
      reply at position "non-blank lines before it", computed in the registry
      the earlier lines left. */
  lemma {:induction false} SessionAt(st: Registry, lines: seq<InputLine>, k: nat)
    requires k < |lines| && !lines[k].Blank?
    requires forall j :: 0 <= j < k ==> !IsQuitLine(lines[j])
    ensures CountNonBlank(lines[..k]) < |Session(st, lines)|
    ensures Session(st, lines)[CountNonBlank(lines[..k])] == Respond(StateAt(st, lines, k), lines[k])
    decreases k
  {
    if k > 0 {
      var next := Step(st, lines[0]);
      assert lines[..k][1..] == lines[1..][..k - 1];
      SessionAt(next, lines[1..], k - 1);
      SessionShift(st, lines, CountNonBlank(lines[1..][..k - 1]));
    }
  }

  /** Past the first line's reply, a session continues as the session of
      the remaining lines. */
  lemma SessionShift(st: Registry, lines: seq<InputLine>, c: nat)
    requires |lines| > 0 && !IsQuitLine(lines[0])
    requires c < |Session(Step(st, lines[0]), lines[1..])|
    ensures (if lines[0].Blank? then 0 else 1) + c < |Session(st, lines)|
    ensures Session(st, lines)[(if lines[0].Blank? then 0 else 1) + c] == Session(Step(st, lines[0]), lines[1..])[c]
  {
  }

  /** Nothing after a quit is processed. */
  lemma {:induction false} SessionStopsAtQuit(st: Registry, lines: seq<InputLine>, k: nat)
    requires k < |lines| && IsQuitLine(lines[k])
    ensures Session(st, lines) == Session(st, lines[..k + 1])
    decreases k
  {
    if k > 0 {
      assert lines[..k + 1][1..] == lines[1..][..k];
      if !IsQuitLine(lines[0]) {
        SessionStopsAtQuit(Step(st, lines[0]), lines[1..], k - 1);
      }
    }
  }

  /** Without a quit, every non-blank line gets exactly one reply. */
  lemma {:induction false} SessionLength(st: Registry, lines: seq<InputLine>)
    requires forall j :: 0 <= j < |lines| ==> !IsQuitLine(lines[j])
    ensures |Session(st, lines)| == CountNonBlank(lines)
    decreases |lines|
  {
    if |lines| > 0 {
      SessionLength(Step(st, lines[0]), lines[1..]);
    }
  }

  /** A session with a quit ends with the shutdown reply. */
  lemma {:induction false} SessionEndsWithShutdown(st: Registry, lines: seq<InputLine>, k: nat)
    requires k < |lines| && IsQuitLine(lines[k])
    requires forall j :: 0 <= j < k ==> !IsQuitLine(lines[j])
    ensures |Session(st, lines)| > 0
    ensures Session(st, lines)[|Session(st, lines)| - 1] == ShuttingDown
    decreases k
  {
    if k == 0 {
      assert Session(st, lines) == [Respond(st, lines[0])];
    } else {
      SessionEndsWithShutdown(Step(st, lines[0]), lines[1..], k - 1);
    }
  }

  /** The registry main's loop ends with: after the first quit line, or
      after the last line when there is none. */
  function Final(st: Registry, lines: seq<InputLine>): Registry
    decreases |lines|
  {
    if |lines| == 0 then st
    else if IsQuitLine(lines[0]) then Step(st, lines[0])
    else Final(Step(st, lines[0]), lines[1..])
  }

  /** After a quit the loop's registry is empty, so the final cleanup has
      nothing left to close; without one it closes what the lines left. */
  lemma {:induction false} FinalAfterQuit(st: Registry, lines: seq<InputLine>, k: nat)
    requires k < |lines| && IsQuitLine(lines[k])
    ensures Final(st, lines) == Registry(map[], [])
    ensures CleanupCalls(Final(st, lines).order) == []
    decreases k
  {
    if IsQuitLine(lines[0]) {
      QuitEmpties(st, lines[0].req, lines[0].env);
    } else {
      FinalAfterQuit(Step(st, lines[0]), lines[1..], k - 1);
    }
  }

  /** Teardown calls for one cached connection on disconnect: quit the app,
      play the chime (start the Default Media Receiver and quit it again,
      unless starting it fails), close the socket, stop discovery. Failures
      of the other calls are swallowed and change nothing. */
  function TeardownCalls(name: string, chimeStarts: bool): seq<DeviceCall> {
    [QuitApp(name), StartApp(name, CHIME_APP_ID)]
    + (if chimeStarts then [QuitApp(name)] else [])
    + [CloseSocket(name), StopDiscovery(name)]
  }

  /** Calls cleanup_all makes: close and stop discovery for each entry, in
      dict order. */
  function CleanupCalls(order: seq<string>): seq<DeviceCall> {
    if |order| == 0 then []
    else CleanupCalls(order[..|order| - 1]) + [CloseSocket(order[|order| - 1]), StopDiscovery(order[|order| - 1])]
  }

  // ---------------------------------------------------------------------
  // The daemon

  class Daemon {
    /** The cached connections, by speaker name. */
    var connections: map<string, Entry>
    /** The dict's insertion order of those names. */
    var order: seq<string>

    function State(): Registry
      reads this
    {
      Registry(connections, order)
    }

    ghost predicate Valid()
      reads this
    {
      Wf(State())
    }

    constructor ()
      ensures Valid() && State() == Registry(map[], [])
    {
      connections := map[];
      order := [];
    }

    /** get_or_create_connection. */
    method GetOrCreateConnection(name: string, hint: Option<string>, env: Env)
      returns (cast: Option<Cast>, discovery: Option<DiscoveryCall>)
      requires Valid()
      modifies this
      ensures Valid()
      ensures cast == Resolved(old(State()), name, env)
      ensures discovery == DiscoveryMade(old(State()), name, hint, env)
      ensures State() == Registered(old(State()), name, env)
    {
      ghost var st := State();
      var conns, names := connections, order;
      if name in conns {
        if env.probe {
          return Some(conns[name].cast), None;
        }
        conns := conns - {name};
        names := Without(names, name);
      } else {
        assert name !in names;
        assert conns == st.conns - {name};
      }
      assert conns == st.conns - {name} && names == Without(st.order, name);
      discovery := Some(DiscoveryFor(name, hint));
      cast := None;
      if env.lookup.Listed? && |env.lookup.casts| > 0 {
        var c := env.lookup.casts[0];
        conns := conns[name := Entry(c, env.now, c.host)];
        names := names + [name];
        cast := Some(c);
      }
      connections, order := conns, names;
      RegisteredWf(st, name, env);
    }

    /** set_volume. */
    method SetVolume(name: string, volume: VolumeField, hint: Option<string>, env: Env) returns (resp: Response)
      requires Valid()
      modifies this
      ensures Valid()
      ensures resp == SetVolumeAnswer(old(State()), name, volume, env)
      ensures State() == if volume.NotANumber? then old(State()) else Registered(old(State()), name, env)
    {
      if volume.NotANumber? {
        return Failure(volume.error);
      }
      var level := Clamp(if volume.Number? then volume.value else 0.5);
      var cast, _ := GetOrCreateConnection(name, hint, env);
      if cast.None? {
        return NotFound(name);
      }
      if env.deviceError.Some? {
        return Failure(env.deviceError.value);
      }
      resp := VolumeSet(level);
    }

    /** get_volume. */
    method GetVolume(name: string, hint: Option<string>, env: Env) returns (resp: Response)
      requires Valid()
      modifies this
      ensures Valid()
      ensures resp == GetVolumeAnswer(old(State()), name, env)
      ensures State() == Registered(old(State()), name, env)
    {
      var cast, _ := GetOrCreateConnection(name, hint, env);
      if cast.None? {
        return NotFound(name);
      }
      resp := if env.status.Some? then VolumeLevel(env.status.value.level, env.status.value.muted)
              else VolumeLevel(0.5, false);
    }

    /** ping_speaker. */
    method Ping(name: string, hint: Option<string>, env: Env) returns (resp: Response)
      requires Valid()
      modifies this
      ensures Valid()
      ensures resp == PingAnswer(old(State()), name, env)
      ensures State() == Registered(old(State()), name, env)
    {
      var cast, _ := GetOrCreateConnection(name, hint, env);
      if cast.None? {
        return NotFound(name);
      }
      var volume := if env.status.Some? then Some(env.status.value.level) else None;
      resp := Pinged(cast.value.host, volume);
    }

    /** connect_speaker. */
    method Connect(name: string, hint: Option<string>, env: Env) returns (resp: Response)
      requires Valid()
      modifies this
      ensures Valid()
      ensures resp == ConnectAnswer(old(State()), name, env)
      ensures State() == Registered(old(State()), name, env)
    {
      var cast, _ := GetOrCreateConnection(name, hint, env);
      if cast.None? {
        return NotFound(name);
      }
      resp := Connected(name, cast.value.host, cast.value.model);
    }

    /** disconnect_speaker: the entry goes whatever its teardown calls do. */
    method Disconnect(name: string, chimeStarts: bool) returns (resp: Response, calls: seq<DeviceCall>)
      requires Valid()
      modifies this
      ensures Valid()
      ensures resp == DisconnectAnswer(old(State()), name)
      ensures connections == old(connections) - {name} && order == Without(old(order), name)
      ensures calls == if name in old(connections) then TeardownCalls(name, chimeStarts) else []
    {
      if name !in connections {
        return NotConnected, [];
      }
      var chimeQuit: seq<DeviceCall> := [];
      if chimeStarts {
        chimeQuit := [QuitApp(name)];
      }
      calls := [QuitApp(name), StartApp(name, CHIME_APP_ID)] + chimeQuit + [CloseSocket(name), StopDiscovery(name)];
      connections := connections - {name};
      order := Without(order, name);
      resp := Disconnected;
    }

    /** get_status: one record per connection, in dict order. */
    method GetStatus(now: real) returns (resp: Response)
      ensures resp == StatusAnswer(State(), now)
      ensures Valid() ==> resp.count == |connections|
    {
      var active: seq<ConnInfo> := [];
      var i := 0;
      while i < |order|
        invariant 0 <= i <= |order|
        invariant active == Listing(order[..i], connections, now)
      {
        var name := order[i];
        assert order[..i + 1][..i] == order[..i];
        if name in connections {
          var conn := connections[name];
          active := active + [ConnInfo(name, conn.ip, conn.connectedAt, TruncateReal(now - conn.connectedAt))];
        }
        i := i + 1;
      }
      assert order[..i] == order;
      resp := Status(active, |active|);
      if Valid() {
        ListingComplete(State(), now);
      }
    }

    /** cleanup_all: every entry is closed, then the dict is cleared. */
    method CleanupAll() returns (calls: seq<DeviceCall>)
      requires Valid()
      modifies this
      ensures Valid() && State() == Registry(map[], [])
      ensures calls == CleanupCalls(old(order))
    {
      calls := [];
      var i := 0;
      while i < |order|
        invariant 0 <= i <= |order|
        invariant calls == CleanupCalls(order[..i])
      {
        assert order[..i + 1][..i] == order[..i];
        calls := calls + [CloseSocket(order[i]), StopDiscovery(order[i])];
        i := i + 1;
      }
      assert order[..i] == order;
      connections := map[];
      order := [];
    }

    /** process_command. */
    method ProcessCommand(req: Request, env: Env) returns (resp: Response)
      requires Valid()
      modifies this
      ensures Valid()
      ensures resp == Answer(old(State()), req, env)
      ensures State() == After(old(State()), req, env)
    {
      var cmd := CmdOf(req);
      var name := SpeakerOf(req);
      if cmd == "set-volume" {
        resp := SetVolume(name, req.volume, req.ip, env);
      } else if cmd == "get-volume" {
        resp := GetVolume(name, req.ip, env);
      } else if cmd == "ping" {
        resp := Ping(name, req.ip, env);
      } else if cmd == "connect" {
        resp := Connect(name, req.ip, env);
      } else if cmd == "disconnect" {
        var calls;
        resp, calls := Disconnect(name, env.chimeStarts);
      } else if cmd == "status" {
        resp := GetStatus(env.now);
      } else if cmd == "quit" {
        var calls := CleanupAll();
        resp := ShuttingDown;
      } else {
        resp := Failure("Unknown command: " + cmd);
      }
    }

    /** The body of main's loop for one line: the reply it writes, if any. */
    method HandleLine(line: InputLine) returns (reply: seq<Response>)
      requires Valid()
      modifies this
      ensures Valid()
      ensures reply == if line.Blank? then [] else [Respond(old(State()), line)]
      ensures State() == Step(old(State()), line)
    {
      match line {
        case Blank =>
          reply := [];
        case Malformed(d) =>
          reply := [Failure("Invalid JSON: " + d)];
        case NotAnObject(e) =>
          reply := [Failure(e)];
        case Command(req, env) =>
          var resp := ProcessCommand(req, env);
          reply := [resp];
      }
    }

    /** main: answer each line in turn, stop after quit, clean up at the end. */
    method Run(lines: seq<InputLine>) returns (out: seq<Response>, cleanup: seq<DeviceCall>)
      requires Valid()
      modifies this
      ensures out == Session(old(State()), lines)
      ensures cleanup == CleanupCalls(Final(old(State()), lines).order)
      ensures Valid() && State() == Registry(map[], [])
    {
      ghost var total := Session(State(), lines);
      ghost var last := Final(State(), lines);
      out := [];
      var i := 0;
      while i < |lines|
        invariant 0 <= i <= |lines|
        invariant Valid()
        invariant out + Session(State(), lines[i..]) == total
        invariant Final(State(), lines[i..]) == last
      {
        ghost var before := State();
        var reply := HandleLine(lines[i]);
        assert lines[i..][0] == lines[i] && lines[i..][1..] == lines[i + 1..];
        if IsQuitLine(lines[i]) {
          SessionQuit(before, lines, i, out, reply, total);
          out := out + reply;
          break;
        }
        SessionAdvance(before, lines, i, out, reply, total);
        out := out + reply;
        i := i + 1;
      }
      assert i == |lines| ==> lines[i..] == [];
      cleanup := CleanupAll();
    }
  }
}
