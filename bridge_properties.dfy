/** Properties of one main-loop iteration and of runs of them. */
module BridgeProperties {
  import opened Wrappers
  import opened Http
  import opened Text
  import opened Admission
  import opened Search
  import opened ApiCheck
  import opened PortDiscovery
  import opened OutboundCache
  import opened Bridge

  /** The connection block touches neither the cache nor the API URL, and makes no HTTP request. */
  lemma ReconnectIsQuiet(s: State, ev: Event)
    ensures var c := Reconnect(s, ev);
      && c.state.cache == s.cache && c.state.apiUrl == s.apiUrl
      && Posted(c.actions) == [] && Probes(c.actions) == 0
      && (c.proceeds <==> ReadsConnected(s, ev))
  {
    var c := Reconnect(s, ev);
    if !s.connected {
      if s.attempts >= MAX_CONNECTION_ATTEMPTS && !Known(FindSensorPort(ev.scan)) {
        SerialActionsQuiet(c.actions);
      } else {
        assert forall a :: a in c.actions ==> a.Redetect? || a.OpenSerial?;
        SerialActionsQuiet(c.actions);
      }
    }
  }

  /** Serial-port actions post nothing and check no URL. */
  lemma {:induction false} SerialActionsQuiet(actions: seq<Action>)
    requires forall a :: a in actions ==> a.Redetect? || a.OpenSerial?
    ensures Posted(actions) == [] && Probes(actions) == 0
  {
    if actions != [] {
      assert actions[0] in actions;
      assert forall a :: a in actions[1..] ==> a in actions;
      SerialActionsQuiet(actions[1..]);
    }
  }

  /** An iteration's HTTP traffic and outcome are those of its line handling. */
  lemma StepViaHandle(primary: string, s: State, ev: Event)
    ensures var c := Reconnect(s, ev);
      var t := Step(primary, s, ev);
      && (c.proceeds ==>
            var h := Handle(primary, c.state, ev);
            && t.next == h.next && t.reading == h.reading
            && Posted(t.actions) == Posted(h.actions) && Probes(t.actions) == Probes(h.actions)
            && (h.actions != [] ==> t.actions[|t.actions| - 1] == h.actions[|h.actions| - 1]))
      && (!c.proceeds ==>
            && t.next.cache == s.cache && t.next.apiUrl == s.apiUrl && t.reading == None
            && Posted(t.actions) == [] && Probes(t.actions) == 0)
  {
    var c := Reconnect(s, ev);
    ReconnectIsQuiet(s, ev);
    if c.proceeds {
      PostedAppend(c.actions, Handle(primary, c.state, ev).actions);
    }
  }

  /** Forwarding once a URL is known and the fresh reading was answered 201: the cache is drained. */
  lemma ForwardDelivered(primary: string, s: State, data: string, ev: Event)
    requires Known(if Known(s.apiUrl) then s.apiUrl else WorkingApiUrl(primary, ev.probe))
    requires Created(ev.freshReply)
    ensures var h := Forward(primary, s, data, ev);
      var posted := Posted(h.actions);
      var k := SentCount(|s.cache|, ev.cachedReplies);
      && h.reading == Some(data)
      && posted == [data] + s.cache[..if k < |s.cache| then k + 1 else k]
      && h.next.cache == s.cache[k..]
      && Probes(h.actions) == (if Known(s.apiUrl) then 0 else 1)
      && h.next.apiUrl == (if Known(s.apiUrl) then s.apiUrl else WorkingApiUrl(primary, ev.probe))
  {
    var checked: seq<Action> := if Known(s.apiUrl) then [] else [ProbeApi];
    var url := if Known(s.apiUrl) then s.apiUrl else WorkingApiUrl(primary, ev.probe);
    var sent := [Post(url.value, data)];
    var k := SentCount(|s.cache|, ev.cachedReplies);
    var tried := if k < |s.cache| then k + 1 else k;
    var drained := Posts(url.value, s.cache[..tried]);
    var h := Forward(primary, s, data, ev);
    assert h.actions == (checked + sent) + drained;
    PostedAppend(checked + sent, drained);
    PostedAppend(checked, sent);
    PostedPosts(url.value, s.cache[..tried]);
    assert Posted(checked) == [] && Posted(sent) == [data];
    assert Probes(checked) == (if Known(s.apiUrl) then 0 else 1) && Probes(sent) == 0;
  }

  /** Forwarding once a URL is known and the fresh reading was not answered 201: it is cached and the URL re-checked. */
  lemma ForwardUndelivered(primary: string, s: State, data: string, ev: Event)
    requires Known(if Known(s.apiUrl) then s.apiUrl else WorkingApiUrl(primary, ev.probe))
    requires !Created(ev.freshReply)
    ensures var h := Forward(primary, s, data, ev);
      && h.reading == Some(data)
      && Posted(h.actions) == [data]
      && h.next.cache == s.cache + [data]
      && h.actions[|h.actions| - 1] == ProbeApi
      && h.next.apiUrl == WorkingApiUrl(primary, ev.reprobe)
  {
    var checked: seq<Action> := if Known(s.apiUrl) then [] else [ProbeApi];
    var url := if Known(s.apiUrl) then s.apiUrl else WorkingApiUrl(primary, ev.probe);
    var sent := [Post(url.value, data)];
    PostedAppend(sent, [ProbeApi]);
    PostedAppend(checked, sent + [ProbeApi]);
    assert Forward(primary, s, data, ev).actions == checked + (sent + [ProbeApi]);
  }

  /** Forwarding with no URL known even after the check: the reading is cached, nothing is posted. */
  lemma ForwardUnsent(primary: string, s: State, data: string, ev: Event)
    requires !Known(if Known(s.apiUrl) then s.apiUrl else WorkingApiUrl(primary, ev.probe))
    ensures var h := Forward(primary, s, data, ev);
      && h.reading == Some(data)
      && !Known(s.apiUrl)
      && Posted(h.actions) == []
      && h.next.cache == s.cache + [data]
      && Probes(h.actions) == (if |h.next.cache| % REPROBE_EVERY == 0 then 2 else 1)
      && h.next.apiUrl ==
           (if |h.next.cache| % REPROBE_EVERY == 0 then WorkingApiUrl(primary, ev.reprobe)
            else WorkingApiUrl(primary, ev.probe))
  {
    PostedAppend([ProbeApi], [ProbeApi]);
  }

  /** Forwarding an admitted reading, spelled out. */
  lemma ForwardOutcome(primary: string, s: State, data: string, ev: Event)
    ensures var h := Forward(primary, s, data, ev);
      var posted := Posted(h.actions);
      var k := SentCount(|s.cache|, ev.cachedReplies);
      && h.reading == Some(data)
      && (posted != [] ==>
            && posted[0] == data
            && 1 <= |posted| <= |s.cache| + 1
            && posted[1..] == s.cache[..|posted| - 1])
      && (posted != [] && Created(ev.freshReply) ==>
            && |posted| - 1 == (if k < |s.cache| then k + 1 else k)
            && h.next.cache == s.cache[k..]
            && Probes(h.actions) == (if Known(s.apiUrl) then 0 else 1)
            && h.next.apiUrl == (if Known(s.apiUrl) then s.apiUrl else WorkingApiUrl(primary, ev.probe)))
      && (posted != [] && !Created(ev.freshReply) ==>
            && |posted| == 1
            && h.next.cache == s.cache + [data]
            && h.actions[|h.actions| - 1] == ProbeApi
            && h.next.apiUrl == WorkingApiUrl(primary, ev.reprobe))
      && (posted == [] ==>
            && !Known(s.apiUrl)
            && h.next.cache == s.cache + [data]
            && Probes(h.actions) == (if |h.next.cache| % REPROBE_EVERY == 0 then 2 else 1)
            && h.next.apiUrl ==
                 (if |h.next.cache| % REPROBE_EVERY == 0 then WorkingApiUrl(primary, ev.reprobe)
                  else WorkingApiUrl(primary, ev.probe)))
  {
    var url := if Known(s.apiUrl) then s.apiUrl else WorkingApiUrl(primary, ev.probe);
    if !Known(url) {
      ForwardUnsent(primary, s, data, ev);
    } else if Created(ev.freshReply) {
      ForwardDelivered(primary, s, data, ev);
      var k := SentCount(|s.cache|, ev.cachedReplies);
      var tried := if k < |s.cache| then k + 1 else k;
      assert ([data] + s.cache[..tried])[1..] == s.cache[..tried];
    } else {
      ForwardUndelivered(primary, s, data, ev);
    }
  }

  /** Line handling, spelled out for a state whose port is open. */
  lemma HandleOutcome(primary: string, s: State, ev: Event)
    ensures var h := Handle(primary, s, ev);
      var posted := Posted(h.actions);
      var k := SentCount(|s.cache|, ev.cachedReplies);
      && h.reading == (if ev.line.ReadFailed? then None else Admit(ev.line))
      && (h.reading.None? ==>
            h.next.cache == s.cache && h.next.apiUrl == s.apiUrl && posted == [] && Probes(h.actions) == 0)
      && (posted != [] ==>
            && h.reading.Some? && posted[0] == h.reading.value
            && 1 <= |posted| <= |s.cache| + 1
            && posted[1..] == s.cache[..|posted| - 1])
      && (posted != [] && Created(ev.freshReply) ==>
            && |posted| - 1 == (if k < |s.cache| then k + 1 else k)
            && h.next.cache == s.cache[k..]
            && Probes(h.actions) == (if Known(s.apiUrl) then 0 else 1)
            && h.next.apiUrl == (if Known(s.apiUrl) then s.apiUrl else WorkingApiUrl(primary, ev.probe)))
      && (posted != [] && !Created(ev.freshReply) ==>
            && |posted| == 1
            && h.next.cache == s.cache + [h.reading.value]
            && h.actions[|h.actions| - 1] == ProbeApi
            && h.next.apiUrl == WorkingApiUrl(primary, ev.reprobe))
      && (h.reading.Some? && posted == [] ==>
            && !Known(s.apiUrl)
            && h.next.cache == s.cache + [h.reading.value]
            && Probes(h.actions) == (if |h.next.cache| % REPROBE_EVERY == 0 then 2 else 1)
            && h.next.apiUrl ==
                 (if |h.next.cache| % REPROBE_EVERY == 0 then WorkingApiUrl(primary, ev.reprobe)
                  else WorkingApiUrl(primary, ev.probe)))
  {
    if !ev.line.ReadFailed? && Admit(ev.line).Some? {
      ForwardOutcome(primary, s, Admit(ev.line).value, ev);
    }
  }

  /**
   * A line changes nothing unless the iteration reads it and it passes the
   * admission filter: the reading an iteration admits is exactly the
   * filtered line when the read happens, and otherwise the cache, the API
   * URL and the HTTP traffic are untouched.
   */
  lemma StepAdmission(primary: string, s: State, ev: Event)
    ensures var t := Step(primary, s, ev);
      && t.reading == (if ReadsLine(s, ev) then Admit(ev.line) else None)
      && (t.reading.None? ==>
            t.next.cache == s.cache && t.next.apiUrl == s.apiUrl && Posted(t.actions) == [] && Probes(t.actions) == 0)
  {
    var c := Reconnect(s, ev);
    StepViaHandle(primary, s, ev);
    ReconnectIsQuiet(s, ev);
    if c.proceeds {
      HandleOutcome(primary, c.state, ev);
    }
  }

  /**
   * The fresh reading is the first one posted; the cached readings follow
   * oldest first, and the drain stops right after the first failed send.
   */
  lemma StepSendOrder(primary: string, s: State, ev: Event)
    ensures var t := Step(primary, s, ev);
      var posted := Posted(t.actions);
      var k := SentCount(|s.cache|, ev.cachedReplies);
      && (posted != [] ==>
            && t.reading.Some? && posted[0] == t.reading.value
            && 1 <= |posted| <= |s.cache| + 1
            && posted[1..] == s.cache[..|posted| - 1])
      && (posted != [] && Created(ev.freshReply) ==> |posted| - 1 == (if k < |s.cache| then k + 1 else k))
      && (posted != [] && !Created(ev.freshReply) ==> |posted| == 1)
  {
    var c := Reconnect(s, ev);
    StepViaHandle(primary, s, ev);
    ReconnectIsQuiet(s, ev);
    if c.proceeds {
      HandleOutcome(primary, c.state, ev);
    }
  }

  /**
   * Only a 201 answer delivers: after any other answer to the fresh POST,
   * 200 included, the reading is cached, no cached reading is posted, and
   * the iteration ends by re-checking the URL; after a 201 the reading is
   * not cached.
   */
  lemma StepSendRule(primary: string, s: State, ev: Event)
    ensures var t := Step(primary, s, ev);
      Posted(t.actions) != [] ==>
        && t.reading.Some?
        && (t.next.cache == s.cache + [t.reading.value] <==> ev.freshReply != Status(201))
        && (ev.freshReply != Status(201) ==>
              && Posted(t.actions) == [t.reading.value]
              && t.actions[|t.actions| - 1] == ProbeApi
              && t.next.apiUrl == WorkingApiUrl(primary, ev.reprobe))
  {
    var t := Step(primary, s, ev);
    SendSucceedsOnlyOn201(ev.freshReply);
    StepSendOrder(primary, s, ev);
    StepCacheUpdate(primary, s, ev);
    StepReprobe(primary, s, ev);
    if Posted(t.actions) != [] && ev.freshReply != Status(201) {
      assert Posted(t.actions) == [Posted(t.actions)[0]];
    }
  }

  /**
   * The fresh reading is appended to the cache exactly when it was not
   * delivered; after a delivery the cache is the old cache without its
   * longest successfully re-sent prefix; an iteration adds at most one entry.
   */
  lemma StepCacheUpdate(primary: string, s: State, ev: Event)
    ensures var t := Step(primary, s, ev);
      && |t.next.cache| <= |s.cache| + 1
      && (t.reading.Some? ==> (t.next.cache == s.cache + [t.reading.value] <==> !FreshDelivered(t, ev)))
      && (FreshDelivered(t, ev) ==> t.reading.Some? && t.next.cache == s.cache[SentCount(|s.cache|, ev.cachedReplies)..])
      && (t.reading.None? ==> t.next.cache == s.cache)
  {
    var c := Reconnect(s, ev);
    StepViaHandle(primary, s, ev);
    ReconnectIsQuiet(s, ev);
    if c.proceeds {
      HandleOutcome(primary, c.state, ev);
    }
  }

  /**
   * With no API URL after the pre-send check, the URL is checked a second
   * time exactly when the new cache length is a multiple of five; a failed
   * send is always followed by a URL check, which sets the new URL.
   */
  lemma StepReprobe(primary: string, s: State, ev: Event)
    ensures var t := Step(primary, s, ev);
      var posted := Posted(t.actions);
      && (t.reading.Some? && posted == [] ==>
            && !Known(s.apiUrl)
            && Probes(t.actions) == (if |t.next.cache| % REPROBE_EVERY == 0 then 2 else 1)
            && t.next.apiUrl ==
                 (if |t.next.cache| % REPROBE_EVERY == 0 then WorkingApiUrl(primary, ev.reprobe)
                  else WorkingApiUrl(primary, ev.probe)))
      && (posted != [] && !Created(ev.freshReply) ==>
            && t.actions[|t.actions| - 1] == ProbeApi
            && t.next.apiUrl == WorkingApiUrl(primary, ev.reprobe))
      && (FreshDelivered(t, ev) ==>
            && Probes(t.actions) == (if Known(s.apiUrl) then 0 else 1)
            && t.next.apiUrl == (if Known(s.apiUrl) then s.apiUrl else WorkingApiUrl(primary, ev.probe)))
  {
    var c := Reconnect(s, ev);
    StepViaHandle(primary, s, ev);
    ReconnectIsQuiet(s, ev);
    if c.proceeds {
      HandleOutcome(primary, c.state, ev);
    }
  }

  /** The connection block on its own: the counter, the port and the serial actions. */
  lemma ReconnectSpec(s: State, ev: Event)
    ensures var c := Reconnect(s, ev);
      var found := FindSensorPort(ev.scan);
      var redetects := !s.connected && s.attempts >= MAX_CONNECTION_ATTEMPTS;
      var port := if redetects then found else s.port;
      && (s.connected ==> c == Link(s, [], true))
      && (!s.connected ==> (Redetect in c.actions <==> redetects))
      && (redetects && !Known(found) ==> c == Link(s.(port := found, attempts := 0), [Redetect], false))
      && (!s.connected && !(redetects && !Known(found)) ==>
            && OpenSerial(port) in c.actions
            && c.proceeds == (ev.opens && Known(port))
            && c.state == if c.proceeds then s.(port := port, connected := true, attempts := 0)
                          else s.(port := port, attempts := s.attempts + 1))
  {
  }

  /** Line handling leaves the counter and the port alone, and closes the port only on a serial error. */
  lemma HandleKeepsConnection(primary: string, s: State, ev: Event)
    ensures var h := Handle(primary, s, ev);
      && h.next.attempts == s.attempts && h.next.port == s.port
      && h.next.connected == (s.connected && !ev.line.ReadFailed?)
  {
  }

  /**
   * The reconnect counter: untouched while the port is open; otherwise one
   * more per failed open, zero after a successful open, and zero when the
   * re-detection, made only once the counter has reached the limit, finds
   * no port; that empty result becomes the port, and a port without a name
   * never opens.
   */
  lemma StepConnection(primary: string, s: State, ev: Event)
    ensures var t := Step(primary, s, ev);
      var found := FindSensorPort(ev.scan);
      var redetects := !s.connected && s.attempts >= MAX_CONNECTION_ATTEMPTS;
      var port := if redetects then found else s.port;
      && (s.connected ==>
            && t.next.attempts == s.attempts && t.next.port == s.port
            && Redetect !in t.actions && OpenSerial(s.port) !in t.actions)
      && (!s.connected ==> (Redetect in t.actions <==> redetects))
      && (redetects && !Known(found) ==>
            t.next == s.(port := found, attempts := 0) && t.actions == [Redetect] && t.reading == None)
      && (!s.connected && !(redetects && !Known(found)) ==>
            && OpenSerial(port) in t.actions
            && t.next.port == port
            && (ev.opens && Known(port) ==> t.next.attempts == 0 && t.next.connected == !ev.line.ReadFailed?)
            && (!(ev.opens && Known(port)) ==>
                  t.next == s.(port := port, attempts := s.attempts + 1) && t.reading == None))
  {
    ReconnectSpec(s, ev);
    StepConnectionParts(primary, s, ev);
  }

  /** What an iteration adds to the connection block: only HTTP actions and, on a serial error, a disconnect. */
  lemma StepConnectionParts(primary: string, s: State, ev: Event)
    ensures var c := Reconnect(s, ev);
      var t := Step(primary, s, ev);
      && t.next.attempts == c.state.attempts && t.next.port == c.state.port
      && (c.proceeds ==> t.next.connected == (c.state.connected && !ev.line.ReadFailed?))
      && (!c.proceeds ==> t.next == c.state && t.actions == c.actions)
      && (forall a :: a in c.actions ==> a in t.actions)
      && (forall a :: a in t.actions && !a.ProbeApi? && !a.Post? ==> a in c.actions)
  {
    var t := Step(primary, s, ev);
    var c := Reconnect(s, ev);
    if c.proceeds {
      var h := Handle(primary, c.state, ev);
      HandleKeepsConnection(primary, c.state, ev);
      HandleNoConnectionActions(primary, c.state, ev);
      assert t.actions == c.actions + h.actions;
    }
  }

  /**
   * Without a port name the loop neither connects nor reads: from a
   * disconnected state whose port has no name, each iteration below the
   * limit is one failed open and nothing else, so after a re-detection
   * that finds nothing the counter climbs back to the limit before the
   * next re-detection.
   */
  lemma {:induction false} RunWithoutPort(primary: string, s: State, evs: seq<Event>)
    requires !s.connected && !Known(s.port)
    requires s.attempts + |evs| <= MAX_CONNECTION_ATTEMPTS
    ensures Run(primary, s, evs) == s.(attempts := s.attempts + |evs|)
    decreases |evs|
  {
    if evs != [] {
      var t := Step(primary, s, evs[0]);
      assert t.next == s.(attempts := s.attempts + 1);
      RunWithoutPort(primary, t.next, evs[1..]);
    }
  }

  /** Forwarding a reading makes no serial-port actions. */
  lemma ForwardNoConnectionActions(primary: string, s: State, data: string, ev: Event)
    ensures var f := Forward(primary, s, data, ev);
      forall a :: a in f.actions ==> a.ProbeApi? || a.Post?
  {
    var url := if Known(s.apiUrl) then s.apiUrl else WorkingApiUrl(primary, ev.probe);
    if Known(url) && Created(ev.freshReply) {
      var k := SentCount(|s.cache|, ev.cachedReplies);
      var tried := if k < |s.cache| then k + 1 else k;
      PostsArePosts(url.value, s.cache[..tried]);
    }
  }

  /** Line handling makes no serial-port actions. */
  lemma HandleNoConnectionActions(primary: string, s: State, ev: Event)
    ensures var h := Handle(primary, s, ev);
      forall a :: a in h.actions ==> a.ProbeApi? || a.Post?
  {
    if !ev.line.ReadFailed? && Admit(ev.line).Some? {
      ForwardNoConnectionActions(primary, s, Admit(ev.line).value, ev);
    }
  }

  lemma {:induction false} PostsArePosts(url: string, readings: seq<string>)
    ensures forall a :: a in Posts(url, readings) ==> a.Post?
  {
    if readings != [] {
      PostsArePosts(url, readings[1..]);
    }
  }

  /** Forwarding keeps the API URL among the candidates and the cache made of readings. */
  lemma ForwardKeepsUrlAndCache(primary: string, s: State, data: string, ev: Event)
    requires Valid(primary, s) && IsReading(data)
    ensures var n := Forward(primary, s, data, ev).next;
      && (n.apiUrl.Some? ==> n.apiUrl.value in Candidates(primary))
      && (forall i :: 0 <= i < |n.cache| ==> IsReading(n.cache[i]))
  {
  }

  /** Forwarding leaves the connection and the counter alone. */
  lemma ForwardKeepsConnection(primary: string, s: State, data: string, ev: Event)
    ensures var n := Forward(primary, s, data, ev).next;
      n.connected == s.connected && n.attempts == s.attempts && n.port == s.port
  {
  }

  /** Forwarding an admitted reading keeps the loop invariant. */
  lemma ForwardPreservesValid(primary: string, s: State, data: string, ev: Event)
    requires Valid(primary, s) && IsReading(data)
    ensures Valid(primary, Forward(primary, s, data, ev).next)
  {
    ForwardKeepsUrlAndCache(primary, s, data, ev);
    ForwardKeepsConnection(primary, s, data, ev);
  }

  /** Line handling keeps the loop invariant. */
  lemma HandlePreservesValid(primary: string, s: State, ev: Event)
    requires Valid(primary, s)
    ensures Valid(primary, Handle(primary, s, ev).next)
  {
    if !ev.line.ReadFailed? && Admit(ev.line).Some? {
      AdmitIffMarkersOccur(ev.line);
      ForwardPreservesValid(primary, s, Admit(ev.line).value, ev);
    }
  }

  /** Every iteration keeps the loop invariant. */
  lemma StepPreservesValid(primary: string, s: State, ev: Event)
    requires Valid(primary, s)
    ensures Valid(primary, Step(primary, s, ev).next)
  {
    var c := Reconnect(s, ev);
    ReconnectSpec(s, ev);
    ReconnectIsQuiet(s, ev);
    assert Valid(primary, c.state);
    if c.proceeds {
      HandlePreservesValid(primary, c.state, ev);
    }
  }

  /** The loop invariant holds after any number of iterations. */
  lemma {:induction false} RunPreservesValid(primary: string, s: State, evs: seq<Event>)
    requires Valid(primary, s)
    ensures Valid(primary, Run(primary, s, evs))
    decreases |evs|
  {
    if evs != [] {
      StepPreservesValid(primary, s, evs[0]);
      RunPreservesValid(primary, Step(primary, s, evs[0]).next, evs[1..]);
    }
  }

  /** The cache grows by at most one entry per iteration. */
  lemma {:induction false} RunCacheGrowth(primary: string, s: State, evs: seq<Event>)
    ensures |Run(primary, s, evs).cache| <= |s.cache| + |evs|
    decreases |evs|
  {
    if evs != [] {
      StepCacheUpdate(primary, s, evs[0]);
      RunCacheGrowth(primary, Step(primary, s, evs[0]).next, evs[1..]);
    }
  }

  /**
   * `main` starts the loop disconnected, with a zeroed counter, an empty
   * cache and the URL the first check found, on the configured port when it
   * exists and on the detected one otherwise; it gives up only when no port
   * is available. The starting state satisfies the loop invariant.
   */
  lemma StartupSpec(primary: string, configuredPort: string, scan: PortScan, get: string -> Reply)
    ensures var r := Startup(primary, configuredPort, scan, get);
      var port := if scan.present(configuredPort) then Some(configuredPort) else FindSensorPort(scan);
      && (r.None? <==> !Known(port))
      && (r.Some? ==>
            && Valid(primary, r.value)
            && !r.value.connected && r.value.attempts == 0 && r.value.cache == []
            && r.value.port == port
            && r.value.apiUrl == WorkingApiUrl(primary, get))
  {
  }
}
