/**
 * The line admission filter of the bridge's main loop: which serial lines
 * are forwarded, and the format check shared with the port test read.
 */
module Admission {
  import opened Wrappers
  import opened Text

  /** One `readline()` on the serial port, with decoding folded in. */
  datatype LineRead =
    | NoData                 // empty bytes: the read timed out
    | Undecodable            // bytes that are not valid UTF-8
    | Decoded(text: string)  // the decoded line, before stripping
    | ReadFailed             // the read raised a serial exception

  const PH_MARKER: string := "pH:"
  const TEMP_MARKER: string := "temp:"

  /** The bridge's format check: both markers occur somewhere in the data. */
  predicate LooksLikeSensorData(data: string) {
    Contains(data, PH_MARKER) && Contains(data, TEMP_MARKER)
  }

  /** What the bridge keeps and forwards: stripped data that passed the format check. */
  predicate IsReading(data: string) {
    Trimmed(data) && LooksLikeSensorData(data)
  }

  /**
   * The admission filter: the stripped line when it is forwarded, None when the
   * bridge drops it (timeout, undecodable, blank after strip, or a marker missing).
   */
  function Admit(line: LineRead): Option<string> {
    match line
    case Decoded(text) =>
      var data := Strip(text);
      if data == [] then None
      else if !LooksLikeSensorData(data) then None
      else Some(data)
    case _ => None
  }

  /** The blank-data check never decides on its own: data passing the format check has at least five characters. */
  lemma SensorDataIsNotBlank(data: string)
    requires LooksLikeSensorData(data)
    ensures |data| >= |TEMP_MARKER| && data != []
  {
    ContainsNeedsRoom(data, TEMP_MARKER);
  }

  /** The format check holds exactly when both markers occur at some position. */
  lemma LooksLikeSensorDataIffOccurs(data: string)
    ensures LooksLikeSensorData(data) <==>
              (exists i :: OccursAt(data, PH_MARKER, i)) && (exists i :: OccursAt(data, TEMP_MARKER, i))
  {
    ContainsIffOccurs(data, PH_MARKER);
    ContainsIffOccurs(data, TEMP_MARKER);
  }

  /**
   * A line is admitted exactly when it decodes and both markers occur in its
   * stripped text; what is admitted is that stripped text, which is a reading.
   */
  lemma AdmitIffMarkersOccur(line: LineRead)
    ensures Admit(line).Some? <==>
              && line.Decoded?
              && (exists i :: OccursAt(Strip(line.text), PH_MARKER, i))
              && (exists i :: OccursAt(Strip(line.text), TEMP_MARKER, i))
    ensures Admit(line).Some? ==> Admit(line).value == Strip(line.text) && IsReading(Admit(line).value)
  {
    if line.Decoded? {
      var data := Strip(line.text);
      LooksLikeSensorDataIffOccurs(data);
      if LooksLikeSensorData(data) {
        SensorDataIsNotBlank(data);
        TrimmedIffStripFixed(line.text);
        assert Admit(line) == Some(data);
      } else {
        assert Admit(line) == None;
      }
    }
  }
}
