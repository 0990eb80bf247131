/**
 * `main` of the serial reader, written as the loop it is: its local
 * variables are the fields of a `Reader`, and each iteration of
 * `while running` is one call of `Iterate`, proved to do what `Bridge.Step`
 * says.
 */
module SerialReader {
  import opened Wrappers
  import opened Http
  import opened Text
  import opened Admission
  import opened ApiCheck
  import opened PortDiscovery
  import opened OutboundCache
  import opened Bridge
  import BridgeProperties

  class Reader {
    /** `API_URL`, the configured URL the API check starts from. */
    const primaryUrl: string
    /** `ser is not None`. */
    var connected: bool
    var connectionAttempts: nat
    /** `serial_port`, as the last detection left it. */
    var serialPort: Option<string>
    var workingApiUrl: Option<string>
    /** Unsent readings, oldest first. */
    var localReadings: seq<string>

    /** The loop variables as a value. */
    function Snapshot(): State
      reads this
    {
      State(connected, connectionAttempts, serialPort, workingApiUrl, localReadings)
    }

    /** The loop variables just before `while running` is entered. */
    constructor (primary: string, port: Option<string>, apiUrl: Option<string>)
      ensures primaryUrl == primary
      ensures Snapshot() == State(false, 0, port, apiUrl, [])
    {
      primaryUrl := primary;
      connected := false;
      connectionAttempts := 0;
      serialPort := port;
      workingApiUrl := apiUrl;
      localReadings := [];
    }

    /**
     * The connection block: re-detect the port once the counter has run
     * out, then open it. `proceeds` is false when the iteration ends here.
     */
    method Connect(ev: Event) returns (actions: seq<Action>, proceeds: bool)
      modifies this
      ensures Link(Snapshot(), actions, proceeds) == Reconnect(old(Snapshot()), ev)
    {
      actions := [];
      proceeds := true;
      if !connected {
        if connectionAttempts >= MAX_CONNECTION_ATTEMPTS {
          actions := [Redetect];
          serialPort := FindArduinoPort(ev.scan);
          if !Known(serialPort) {
            connectionAttempts := 0;
            proceeds := false;
            return;
          }
        }
        actions := actions + [OpenSerial(serialPort)];
        if ev.opens && Known(serialPort) {
          connected := true;
          connectionAttempts := 0;
        } else {
          connectionAttempts := connectionAttempts + 1;
          proceeds := false;
        }
      }
    }

    /** Sending an admitted reading, draining the cache, or caching it. */
    method Deliver(data: string, ev: Event) returns (actions: seq<Action>)
      modifies this
      ensures Transition(Snapshot(), actions, Some(data)) == Forward(primaryUrl, old(Snapshot()), data, ev)
    {
      actions := [];
      if !Known(workingApiUrl) {
        actions := [ProbeApi];
        workingApiUrl := CheckApiConnection(primaryUrl, ev.probe);
      }
      if Known(workingApiUrl) {
        var url := workingApiUrl.value;
        actions := actions + [Post(url, data)];
        if Created(ev.freshReply) {
          if localReadings != [] {
            var drained := Drain(url, ev.cachedReplies);
            actions := actions + drained;
          }
        } else {
          localReadings := localReadings + [data];
          actions := actions + [ProbeApi];
          workingApiUrl := CheckApiConnection(primaryUrl, ev.reprobe);
        }
      } else {
        localReadings := localReadings + [data];
        if |localReadings| % REPROBE_EVERY == 0 {
          actions := actions + [ProbeApi];
          workingApiUrl := CheckApiConnection(primaryUrl, ev.reprobe);
        }
      }
    }

    /**
     * Re-sending the cache after a delivered reading: the readings tried are
     * posted oldest first, and the ones sent are removed.
     */
    method Drain(url: string, replies: nat -> Reply) returns (actions: seq<Action>)
      modifies this
      ensures var k := SentCount(|old(localReadings)|, replies);
        && localReadings == old(localReadings)[k..]
        && actions == Posts(url, old(localReadings)[..if k < |old(localReadings)| then k + 1 else k])
      ensures connected == old(connected) && connectionAttempts == old(connectionAttempts)
      ensures serialPort == old(serialPort) && workingApiUrl == old(workingApiUrl)
    {
      var sent, tried := SendCached(localReadings, replies);
      actions := Posts(url, localReadings[..tried]);
      DrainLeavesSuffix(localReadings, replies, sent);
      localReadings := RemoveSent(localReadings, sent);
    }

    /** One iteration of `while running`. */
    method Iterate(ev: Event) returns (actions: seq<Action>, reading: Option<string>)
      modifies this
      ensures Transition(Snapshot(), actions, reading) == Step(primaryUrl, old(Snapshot()), ev)
    {
      var proceeds;
      actions, proceeds := Connect(ev);
      reading := None;
      if !proceeds {
        return;
      }
      if ev.line.ReadFailed? {
        connected := false;
        return;
      }
      if !ev.line.Decoded? {
        return;
      }
      var data := Strip(ev.line.text);
      if data == "" || !LooksLikeSensorData(data) {
        return;
      }
      var more := Deliver(data, ev);
      actions := actions + more;
      reading := Some(data);
    }

    /** Iterations, one per event; the loop invariant is kept throughout. */
    method Serve(evs: seq<Event>)
      requires Valid(primaryUrl, Snapshot())
      modifies this
      ensures Snapshot() == Run(primaryUrl, old(Snapshot()), evs)
      ensures Valid(primaryUrl, Snapshot())
    {
      var i := 0;
      while i < |evs|
        invariant i <= |evs|
        invariant Run(primaryUrl, old(Snapshot()), evs) == Run(primaryUrl, Snapshot(), evs[i..])
        invariant Valid(primaryUrl, Snapshot())
      {
        ghost var before := Snapshot();
        var _, _ := Iterate(evs[i]);
        BridgeProperties.StepPreservesValid(primaryUrl, before, evs[i]);
        assert evs[i..][1..] == evs[i + 1..];
        i := i + 1;
      }
    }
  }

  /**
   * The start of `main`: keep the configured port when it exists and
   * detect one otherwise, give up without a port, then check the API URL.
   */
  method Start(primary: string, configuredPort: string, scan: PortScan, get: string -> Reply)
    returns (reader: Reader?)
    ensures reader == null <==> Startup(primary, configuredPort, scan, get).None?
    ensures reader != null ==>
      && fresh(reader) && reader.primaryUrl == primary
      && reader.Snapshot() == Startup(primary, configuredPort, scan, get).value
  {
    var port := Some(configuredPort);
    if !scan.present(configuredPort) {
      port := FindArduinoPort(scan);
    }
    if !Known(port) {
      return null;
    }
    var working := CheckApiConnection(primary, get);
    reader := new Reader(primary, port, working);
  }
}
