/**
 * Serial-port discovery (`find_arduino_port` and `test_read_from_port`):
 * list the candidate ports, then keep the first that opens and shows a
 * sensor line within a few reads.
 */
module PortDiscovery {
  import opened Wrappers
  import opened Search
  import opened Admission

  /** How many reads the test read makes before giving up on a port. */
  const TEST_READ_ATTEMPTS: nat := 3

  /** `/dev/ttyUSB<i>` for a single-digit index. */
  function UsbPortName(i: nat): string
    requires i < 10
  {
    "/dev/ttyUSB" + [('0' as int + i) as char]
  }

  /** The fixed USB device paths probed, `/dev/ttyUSB0` to `/dev/ttyUSB3`, in index order. */
  const USB_PORTS: seq<string> := ["/dev/ttyUSB0", "/dev/ttyUSB1", "/dev/ttyUSB2", "/dev/ttyUSB3"]

  /** The fixed list is the formatted names for indices 0 to 3. */
  lemma UsbPortNames()
    ensures forall i :: 0 <= i < |USB_PORTS| ==> USB_PORTS[i] == UsbPortName(i)
  {
    assert UsbPortName(0) == "/dev/ttyUSB0";
    assert UsbPortName(1) == "/dev/ttyUSB1";
    assert UsbPortName(2) == "/dev/ttyUSB2";
    assert UsbPortName(3) == "/dev/ttyUSB3";
  }

  /**
   * What the operating system and the devices answer during one discovery:
   * which paths exist, what the ACM glob lists, whether each port opens for
   * the quick open check and for the test read, and the outcome of the
   * test read's `i`-th `readline()` on a port.
   */
  datatype PortScan = PortScan(
    present: string -> bool,
    acmPorts: seq<string>,
    opens: string -> bool,
    testOpens: string -> bool,
    testLine: (string, nat) -> LineRead)

  /** The paths among `paths` that exist, in the order of `paths`. */
  function Present(paths: seq<string>, present: string -> bool): seq<string> {
    if paths == [] then []
    else (if present(paths[0]) then [paths[0]] else []) + Present(paths[1..], present)
  }

  /** `a` is `b` with some elements left out, order kept. */
  predicate SubsequenceOf(a: seq<string>, b: seq<string>)
    decreases |b|
  {
    || a == []
    || (b != [] && ((a[0] == b[0] && SubsequenceOf(a[1..], b[1..])) || SubsequenceOf(a, b[1..])))
  }

  /** Filtering by existence keeps exactly the existing paths, in their original order. */
  lemma {:induction false} PresentSpec(paths: seq<string>, present: string -> bool)
    ensures forall x :: x in Present(paths, present) <==> x in paths && present(x)
    ensures SubsequenceOf(Present(paths, present), paths)
  {
    if paths != [] {
      PresentSpec(paths[1..], present);
      assert forall x :: x in paths <==> x == paths[0] || x in paths[1..];
      var r := Present(paths, present);
      if present(paths[0]) {
        assert r[0] == paths[0] && r[1..] == Present(paths[1..], present);
      } else {
        assert r == Present(paths[1..], present);
      }
    }
  }

  /** Filtering a list extended by one path extends the filtered list by that path when it exists. */
  lemma {:induction false} PresentSnoc(paths: seq<string>, x: string, present: string -> bool)
    ensures Present(paths + [x], present) == Present(paths, present) + (if present(x) then [x] else [])
  {
    if paths != [] {
      assert (paths + [x])[1..] == paths[1..] + [x];
      PresentSnoc(paths[1..], x, present);
    }
  }

  /** The ports discovery tries, in order: the existing USB ports, then the ACM ports. */
  function PortCandidates(scan: PortScan): seq<string> {
    Present(USB_PORTS, scan.present) + scan.acmPorts
  }

  /**
   * The candidates start with the existing USB ports in index order and end
   * with the ACM ports; there are none exactly when no USB port exists and
   * the ACM glob is empty.
   */
  lemma PortCandidatesSpec(scan: PortScan)
    ensures var usb := Present(USB_PORTS, scan.present);
      && PortCandidates(scan) == usb + scan.acmPorts
      && |usb| <= |USB_PORTS|
      && (forall x :: x in usb <==> x in USB_PORTS && scan.present(x))
      && SubsequenceOf(usb, USB_PORTS)
      && (PortCandidates(scan) == [] <==>
            (forall i :: 0 <= i < |USB_PORTS| ==> !scan.present(USB_PORTS[i])) && scan.acmPorts == [])
  {
    PresentSpec(USB_PORTS, scan.present);
    PresentLength(USB_PORTS, scan.present);
  }

  /** Filtering never lengthens a list. */
  lemma {:induction false} PresentLength(paths: seq<string>, present: string -> bool)
    ensures |Present(paths, present)| <= |paths|
  {
    if paths != [] {
      PresentLength(paths[1..], present);
    }
  }

  /** The test read sees a sensor line on `port` within `attempts` reads. */
  predicate SeesSensorData(scan: PortScan, port: string, attempts: nat) {
    scan.testOpens(port) && exists i :: 0 <= i < attempts && Admit(scan.testLine(port, i)).Some?
  }

  /** `port` is accepted by discovery: it opens and its test read sees sensor data. */
  predicate IsSensorPort(scan: PortScan, port: string) {
    scan.opens(port) && SeesSensorData(scan, port, TEST_READ_ATTEMPTS)
  }

  /** The acceptance test of discovery, as a predicate on ports. */
  function SensorPortTest(scan: PortScan): string -> bool {
    p => IsSensorPort(scan, p)
  }

  /** The port `find_arduino_port` returns. */
  function FindSensorPort(scan: PortScan): Option<string> {
    FirstWhere(PortCandidates(scan), SensorPortTest(scan))
  }

  /**
   * Discovery returns the first candidate, in candidate order, that opens and
   * shows sensor data; None when there are no candidates or all of them fail.
   */
  lemma FindSensorPortSpec(scan: PortScan)
    ensures var cs := PortCandidates(scan);
      var r := FindSensorPort(scan);
      && (r.None? <==> forall j :: 0 <= j < |cs| ==> !IsSensorPort(scan, cs[j]))
      && (cs == [] ==> r.None?)
      && (r.Some? ==>
            exists i :: 0 <= i < |cs| && cs[i] == r.value && IsSensorPort(scan, cs[i])
                        && forall j :: 0 <= j < i ==> !IsSensorPort(scan, cs[j]))
  {
    var cs := PortCandidates(scan);
    var p := SensorPortTest(scan);
    var i := IndexOfFirst(cs, p);
    IndexOfFirstSpec(cs, p);
    FirstWhereSpec(cs, p);
    if i < |cs| {
      FirstWhereAt(cs, p, i);
    }
  }

  /** Collects the existing USB ports by checking `/dev/ttyUSB0` to `/dev/ttyUSB3` in turn. */
  method ListUsbPorts(present: string -> bool) returns (usb: seq<string>)
    ensures usb == Present(USB_PORTS, present)
  {
    UsbPortNames();
    usb := [];
    for i := 0 to 4
      invariant usb == Present(USB_PORTS[..i], present)
    {
      var port := UsbPortName(i);
      assert USB_PORTS[..i + 1] == USB_PORTS[..i] + [port];
      PresentSnoc(USB_PORTS[..i], port, present);
      if present(port) {
        usb := usb + [port];
      }
    }
    assert USB_PORTS[..4] == USB_PORTS;
  }

  /** `test_read_from_port`: open the port, then read up to `attempts` lines, succeeding at the first sensor line. */
  method TestReadFromPort(scan: PortScan, port: string, attempts: nat) returns (found: bool)
    ensures found == SeesSensorData(scan, port, attempts)
  {
    if !scan.testOpens(port) {
      return false;
    }
    var i := 0;
    while i < attempts
      invariant 0 <= i <= attempts
      invariant forall j :: 0 <= j < i ==> Admit(scan.testLine(port, j)).None?
    {
      var line := scan.testLine(port, i);
      if Admit(line).Some? {
        return true;
      }
      i := i + 1;
    }
    return false;
  }

  /** `find_arduino_port`: build the candidate list, then return the first port that opens and passes the test read. */
  method FindArduinoPort(scan: PortScan) returns (port: Option<string>)
    ensures port == FindSensorPort(scan)
  {
    var usb := ListUsbPorts(scan.present);
    var ports := usb + scan.acmPorts;
    assert ports == PortCandidates(scan);
    if ports == [] {
      return None;
    }
    var p := SensorPortTest(scan);
    IndexOfFirstSpec(ports, p);
    var i := 0;
    while i < |ports|
      invariant 0 <= i <= IndexOfFirst(ports, p)
    {
      var ok := TryPort(scan, ports[i]);
      assert ok == p(ports[i]);
      if ok {
        return Some(ports[i]);
      }
      assert IndexOfFirst(ports, p) != i;
      i := i + 1;
    }
    return None;
  }

  /** One iteration of the discovery loop: the quick open check, then the test read. */
  method TryPort(scan: PortScan, port: string) returns (ok: bool)
    ensures ok == IsSensorPort(scan, port)
  {
    ok := false;
    if scan.opens(port) {
      ok := TestReadFromPort(scan, port, TEST_READ_ATTEMPTS);
    }
  }
}
