/** The fixed deployment contexts: for each beamline, the history event
    definition, the beam-rate channel and the facility's maximum buffer rate. */
module Beamlines {

  datatype Option<T> = None | Some(value: T)

  datatype Beamline = NcSxr | NcHxr | ScBsyd | ScSxr | ScHxr | F2

  /** A beamline's configuration key: a facility prefix of two letters,
      then the line's name when the facility has more than one. */
  function Name(b: Beamline): (n: string)
    ensures 2 <= |n| <= 7
    ensures n[..2] == "NC" || n[..2] == "SC" || n[..2] == "F2"
    ensures (n == "F2") == (b == F2)
  {
    match b
    case NcSxr => "NC_SXR"
    case NcHxr => "NC_HXR"
    case ScBsyd => "SC_BSYD"
    case ScSxr => "SC_SXR"
    case ScHxr => "SC_HXR"
    case F2 => "F2"
  }

  /** The beamline setter's check `value in BEAMLINES`. */
  function ParseBeamline(s: string): (r: Option<Beamline>)
    ensures r.Some? ==> Name(r.value) == s
  {
    if s == "NC_SXR" then Some(NcSxr)
    else if s == "NC_HXR" then Some(NcHxr)
    else if s == "SC_BSYD" then Some(ScBsyd)
    else if s == "SC_SXR" then Some(ScSxr)
    else if s == "SC_HXR" then Some(ScHxr)
    else if s == "F2" then Some(F2)
    else None
  }

  /** A string is accepted exactly when it is some beamline's key, and then
      it names that beamline. */
  lemma ParseBeamlineCorrect(s: string, b: Beamline)
    ensures ParseBeamline(s) == Some(b) <==> s == Name(b)
  {
  }

  lemma ParseRejectsUnknown(s: string)
    requires forall b: Beamline :: s != Name(b)
    ensures ParseBeamline(s) == None
  {
    assert s != Name(NcSxr) && s != Name(NcHxr) && s != Name(ScBsyd);
    assert s != Name(ScSxr) && s != Name(ScHxr) && s != Name(F2);
  }

  /** `HISTORY_EDEFS`: the history-buffer event-definition prefix. Every
      one is a history edef, starting `HST`. */
  function HistoryEdef(b: Beamline): (e: string)
    ensures |e| >= 3 && e[..3] == "HST"
  {
    match b
    case NcSxr => "HSTCUS"
    case NcHxr => "HSTCUH"
    case ScBsyd => "HSTSCD"
    case ScSxr => "HSTSCS"
    case ScHxr => "HSTSCH"
    case F2 => "HST"
  }

  /** `beamline[:2]`: the facility prefix of the key, `NC` for the two
      normal-conducting lines, `F2` for FACET-II and `SC` for the rest. */
  function Facility(b: Beamline): (f: string)
    ensures f == (if b == NcSxr || b == NcHxr then "NC" else if b == F2 then "F2" else "SC")
  {
    Name(b)[..2]
  }

  /** `MAX_BUFRATES[beamline[:2]]`. */
  function MaxRate(b: Beamline): (m: real)
    ensures m >= 10.0
  {
    var f := Facility(b);
    if f == "NC" then 120.0 else if f == "SC" then 102.0 else 30.0
  }

  /** Normal-conducting lines run up to 120 Hz, superconducting ones to
      102 Hz and FACET-II to 30 Hz. */
  lemma MaxRateTable(b: Beamline)
    ensures MaxRate(b) == (if b == NcSxr || b == NcHxr then 120.0
                           else if b == F2 then 30.0 else 102.0)
  {
  }

  /** The history-buffer suffix chosen at initialisation, as written: `1H`,
      replaced by `TH` from 10 Hz, else by `HH`/`BR` at the facility maximum. */
  function HistorySuffix(rate: real, b: Beamline): (s: string)
    ensures |s| == 2
    ensures s == "TH" <==> rate >= 10.0
  {
    if rate >= 10.0 then "TH"
    else if rate >= MaxRate(b) then (if Facility(b) == "SC" then "HH" else "BR")
    else "1H"
  }

  /** Every facility maximum is at least 10 Hz, so the second branch is
      never taken and only two suffixes occur. */
  lemma HistorySuffixTwoBuckets(rate: real, b: Beamline)
    ensures HistorySuffix(rate, b) == (if rate >= 10.0 then "TH" else "1H")
    ensures HistorySuffix(rate, b) != "HH" && HistorySuffix(rate, b) != "BR"
  {
    MaxRateTable(b);
  }

  /** The history channel read at initialisation: the channel, its
      beamline's edef, and `TH` from 10 Hz or `1H` below. */
  function HistoryPvName(channel: string, b: Beamline, rate: real): (name: string)
    ensures |name| == |channel| + |HistoryEdef(b)| + 2
    ensures name[..|channel|] == channel
    ensures name == channel + HistoryEdef(b) + (if rate >= 10.0 then "TH" else "1H")
  {
    HistorySuffixTwoBuckets(rate, b);
    channel + HistoryEdef(b) + HistorySuffix(rate, b)
  }

  /** The channel of the class documentation, read at 120 Hz on the hard
      X-ray line. */
  lemma HistoryPvNameExample()
    ensures HistoryPvName("BLEN:LI21:265:AIMAX", NcHxr, 120.0) == "BLEN:LI21:265:AIMAXHSTCUHTH"
  {
  }
}
