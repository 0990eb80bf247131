/**
 * One iteration of the serial-to-HTTP bridge's main loop: reconnecting to
 * the sensor, admitting a line, sending it (or caching it), draining the
 * cache, and re-checking the API URL.
 */
module Bridge {
  import opened Wrappers
  import opened Http
  import opened Admission
  import opened ApiCheck
  import opened PortDiscovery
  import opened OutboundCache

  /** Failed opens tolerated before the port is re-detected. */
  const MAX_CONNECTION_ATTEMPTS: nat := 10

  /** With no API URL, it is re-checked whenever the cache length reaches a multiple of this. */
  const REPROBE_EVERY: nat := 5

  /** The main loop's variables between two iterations. */
  datatype State = State(
    connected: bool,          // `ser` holds an open port
    attempts: nat,            // `connection_attempts`
    port: Option<string>,     // `serial_port`, as the last detection left it
    apiUrl: Option<string>,   // `working_api_url`
    cache: seq<string>)       // `local_readings`, oldest first

  /**
   * The outcomes of every I/O operation one iteration may perform: the port
   * re-detection, opening the port, the serial read, the GETs of the URL
   * check made before sending and of the one made after caching, the POST
   * of the fresh reading, and the POST of the `i`-th cached reading.
   */
  datatype Event = Event(
    scan: PortScan,
    opens: bool,
    line: LineRead,
    probe: string -> Reply,
    freshReply: Reply,
    cachedReplies: nat -> Reply,
    reprobe: string -> Reply)

  /** What an iteration does to the outside world. */
  datatype Action =
    | Redetect                            // `find_arduino_port()`
    | OpenSerial(port: Option<string>)    // `serial.Serial(serial_port, ...)`
    | ProbeApi                            // `check_api_connection()`
    | Post(url: string, reading: string)  // `send_data_to_api(reading, url)`

  /** The state after an iteration, its actions in order, and the reading it admitted, if any. */
  datatype Transition = Transition(next: State, actions: seq<Action>, reading: Option<string>)

  /** Python's truth value of an optional string such as `serial_port` or `working_api_url`: present and not empty. */
  predicate Known(name: Option<string>) {
    name.Some? && name.value != ""
  }

  /** One POST per reading, in order. */
  function Posts(url: string, readings: seq<string>): seq<Action> {
    if readings == [] then [] else [Post(url, readings[0])] + Posts(url, readings[1..])
  }

  /** The readings posted by `actions`, in order. */
  function Posted(actions: seq<Action>): seq<string> {
    if actions == [] then []
    else (if actions[0].Post? then [actions[0].reading] else []) + Posted(actions[1..])
  }

  /** How many URL checks `actions` makes. */
  function Probes(actions: seq<Action>): nat {
    if actions == [] then 0
    else (if actions[0].ProbeApi? then 1 else 0) + Probes(actions[1..])
  }

  lemma {:induction false} PostedAppend(a: seq<Action>, b: seq<Action>)
    ensures Posted(a + b) == Posted(a) + Posted(b)
    ensures Probes(a + b) == Probes(a) + Probes(b)
  {
    if a == [] {
      assert a + b == b;
    } else {
      assert (a + b)[0] == a[0];
      assert (a + b)[1..] == a[1..] + b;
      PostedAppend(a[1..], b);
    }
  }

  lemma {:induction false} PostedPosts(url: string, readings: seq<string>)
    ensures Posted(Posts(url, readings)) == readings
    ensures Probes(Posts(url, readings)) == 0
  {
    if readings != [] {
      PostedAppend([Post(url, readings[0])], Posts(url, readings[1..]));
      PostedPosts(url, readings[1..]);
    }
  }

  function Prefix(a: seq<Action>, t: Transition): Transition {
    t.(actions := a + t.actions)
  }

  /** Main loop, lines after a port is open: read one line and act on it. */
  function Handle(primary: string, s: State, ev: Event): Transition {
    if ev.line.ReadFailed? then Transition(s.(connected := false), [], None)
    else
      match Admit(ev.line)
      case None => Transition(s, [], None)
      case Some(data) => Forward(primary, s, data, ev)
  }

  /** Main loop, an admitted reading: send it, drain the cache, or cache it. */
  function Forward(primary: string, s: State, data: string, ev: Event): Transition {
    var checked := if Known(s.apiUrl) then [] else [ProbeApi];
    var url := if Known(s.apiUrl) then s.apiUrl else WorkingApiUrl(primary, ev.probe);
    if Known(url) then
      if Created(ev.freshReply) then
        var k := SentCount(|s.cache|, ev.cachedReplies);
        var tried := if k < |s.cache| then k + 1 else k;
        Transition(s.(apiUrl := url, cache := s.cache[k..]),
                   checked + [Post(url.value, data)] + Posts(url.value, s.cache[..tried]), Some(data))
      else
        Transition(s.(apiUrl := WorkingApiUrl(primary, ev.reprobe), cache := s.cache + [data]),
                   checked + [Post(url.value, data), ProbeApi], Some(data))
    else
      var cache := s.cache + [data];
      if |cache| % REPROBE_EVERY == 0 then
        Transition(s.(apiUrl := WorkingApiUrl(primary, ev.reprobe), cache := cache), checked + [ProbeApi], Some(data))
      else
        Transition(s.(apiUrl := url, cache := cache), checked, Some(data))
  }

  /**
   * The outcome of the connection block at the top of an iteration: the
   * state, the actions taken, and whether the iteration goes on to read a
   * line (false: it ended with `continue`).
   */
  datatype Link = Link(state: State, actions: seq<Action>, proceeds: bool)

  /**
   * Opening the serial port, after the actions `before`. A port with no
   * name (a re-detection found none) never opens: the attempt counts as a
   * failed one.
   */
  function Open(s: State, ev: Event, before: seq<Action>): Link {
    var actions := before + [OpenSerial(s.port)];
    if ev.opens && Known(s.port) then Link(s.(connected := true, attempts := 0), actions, true)
    else Link(s.(attempts := s.attempts + 1), actions, false)
  }

  /**
   * The connection block: re-detect the port once the counter has run out,
   * then open it. The detection result replaces the port even when it is
   * empty; the counter then restarts and the iteration ends.
   */
  function Reconnect(s: State, ev: Event): Link {
    if s.connected then Link(s, [], true)
    else if s.attempts >= MAX_CONNECTION_ATTEMPTS then
      var found := FindSensorPort(ev.scan);
      if !Known(found) then Link(s.(port := found, attempts := 0), [Redetect], false)
      else Open(s.(port := found), ev, [Redetect])
    else Open(s, ev, [])
  }

  /** One iteration of the main loop, `primary` being the configured API URL. */
  function Step(primary: string, s: State, ev: Event): Transition {
    var c := Reconnect(s, ev);
    if c.proceeds then Prefix(c.actions, Handle(primary, c.state, ev))
    else Transition(c.state, c.actions, None)
  }

  /** Successive iterations. */
  function Run(primary: string, s: State, evs: seq<Event>): State
    decreases |evs|
  {
    if evs == [] then s else Run(primary, Step(primary, s, evs[0]).next, evs[1..])
  }

  /** The state `main` enters the loop with, or None when it exits because no port is found. */
  function Startup(primary: string, configuredPort: string, scan: PortScan, get: string -> Reply): Option<State> {
    var port := if scan.present(configuredPort) then Some(configuredPort) else FindSensorPort(scan);
    if !Known(port) then None
    else Some(State(false, 0, port, WorkingApiUrl(primary, get), []))
  }

  /**
   * The iteration finds the port open or opens it: the one it opens is the
   * current one, or the re-detected one once the counter has run out.
   */
  predicate ReadsConnected(s: State, ev: Event) {
    || s.connected
    || (ev.opens && Known(if s.attempts >= MAX_CONNECTION_ATTEMPTS then FindSensorPort(ev.scan) else s.port))
  }

  /** The iteration gets as far as reading a line from an open port without a serial error. */
  predicate ReadsLine(s: State, ev: Event) {
    ReadsConnected(s, ev) && !ev.line.ReadFailed?
  }

  /** The fresh reading of this iteration was sent and answered 201. */
  predicate FreshDelivered(t: Transition, ev: Event) {
    Posted(t.actions) != [] && Created(ev.freshReply)
  }

  /**
   * What holds between iterations: an open port has a name and a zeroed
   * counter, the API URL is one of the candidates, and every cached entry
   * is a reading.
   */
  predicate Valid(primary: string, s: State) {
    && (s.connected ==> Known(s.port) && s.attempts == 0)
    && (s.apiUrl.Some? ==> s.apiUrl.value in Candidates(primary))
    && (forall i :: 0 <= i < |s.cache| ==> IsReading(s.cache[i]))
  }
}
