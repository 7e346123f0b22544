/** Which channels a frozen epoch exports and from where (src/activity.rs,
    `FrozenExportDecision::finalize`). */
module ExportDecision {
  import opened Base
  import opened WindowGate

  datatype Mode = Always | Auto | Never

  datatype Disposition = Retain | Omit

  datatype ChannelDecision = ChannelDecision(
    mode: Mode,
    activity: Activity,
    disposition: Disposition,
    evidence: Option<nat>)

  const EMPTY := ChannelDecision(Never, Inactive, Omit, None)

  function Canonical(mode: Mode, activity: Activity): Disposition {
    if mode.Never? || (mode.Auto? && activity.Inactive?) then Omit else Retain
  }

  datatype Error = AlreadyFinal | BadGeometry | Contradiction | EvidenceOutside | CropOutside

  ghost predicate AllCanonical(channels: seq<ChannelDecision>) {
    forall c :: 0 <= c < |channels| ==> channels[c].disposition == Canonical(channels[c].mode, channels[c].activity)
  }

  ghost predicate EvidenceInside(channels: seq<ChannelDecision>, start: nat, end: nat) {
    forall c :: 0 <= c < |channels| && channels[c].evidence.Some? ==> start <= channels[c].evidence.value < end
  }

  ghost predicate AllNever(channels: seq<ChannelDecision>) {
    forall c :: 0 <= c < |channels| ==> channels[c].mode.Never?
  }

  /** The decisions as exported: a whole-export gate omits every channel. */
  function Applied(channels: seq<ChannelDecision>, omitAll: bool): seq<ChannelDecision> {
    seq(|channels|, c requires 0 <= c < |channels| =>
          if omitAll then channels[c].(disposition := Omit) else channels[c])
  }

  /** `first` is the earliest evidence of a retained channel. */
  ghost predicate Earliest(channels: seq<ChannelDecision>, first: Option<nat>) {
    && (forall c :: 0 <= c < |channels| && channels[c].disposition.Retain? && channels[c].evidence.Some? ==>
          first.Some? && first.value <= channels[c].evidence.value)
    && (first.Some? ==>
          exists c :: 0 <= c < |channels| && channels[c].disposition.Retain? && channels[c].evidence == first)
  }

  /** Where the export starts: two seconds before the first evidence, but not
      before the frozen range, when leading silence is to be trimmed. */
  function Crop(start: nat, first: Option<nat>, trim: bool, rate: nat): nat {
    if trim && first.Some? then Max(SatSub(first.value, 2 * rate), start) else start
  }

  /** `begin` is two seconds before the evidence, or the start of the range when
      that is later or nothing is to be trimmed. */
  ghost predicate LeadIn(start: nat, begin: nat, first: Option<nat>, trim: bool, rate: nat) {
    if !trim || first.None? then begin == start
    else start <= begin <= first.value <= begin + 2 * rate && (begin > start ==> first.value == begin + 2 * rate)
  }

  class FrozenExportDecision {
    const sampleRate: nat
    const width: nat
    var channels: seq<ChannelDecision>
    var start: u64
    var end: u64
    var valid: bool

    constructor (sampleRate: nat, width: nat)
      ensures this.sampleRate == sampleRate && this.width == width && IsReset()
    {
      this.sampleRate, this.width := sampleRate, width;
      channels, start, end, valid := seq(width, _ => EMPTY), 0, 0, false;
    }

    predicate IsReset()
      reads this
    {
      !valid && start == end == 0 && channels == seq(width, _ => EMPTY)
    }

    method Reset()
      modifies this
      ensures IsReset()
    {
      channels, start, end, valid := seq(width, _ => EMPTY), 0, 0, false;
    }

    /** Succeeds exactly when the decision is still open and the channel
        decisions are canonical and their evidence lies in the frozen range;
        then every retained channel keeps its evidence inside the export. */
    method Finalize(frozenStart: u64, frozenEnd: u64, decided: seq<ChannelDecision>, trim: bool, gate: bool)
      returns (r: Outcome<Error>)
      modifies this
      ensures r.Pass? <==>
              && !old(valid) && frozenStart <= frozenEnd && |decided| == old(|channels|)
              && AllCanonical(decided) && EvidenceInside(decided, frozenStart, frozenEnd)
      ensures r == Fail(AlreadyFinal) <==> old(valid)
      ensures r.Fail? ==>
                match r.error
                case AlreadyFinal => old(valid)
                case BadGeometry => frozenStart > frozenEnd || |decided| != old(|channels|)
                case Contradiction => !AllCanonical(decided)
                case EvidenceOutside => !EvidenceInside(decided, frozenStart, frozenEnd)
                case CropOutside => false
      ensures r.Fail? ==> channels == old(channels) && valid == old(valid) && start == old(start) && end == old(end)
      ensures r.Pass? ==>
        && valid && frozenStart <= start <= end == frozenEnd
        && channels == Applied(decided, AllNever(decided) || gate)
        && (forall c :: 0 <= c < |channels| && channels[c].disposition.Retain? && channels[c].evidence.Some? ==>
              start <= channels[c].evidence.value < end)
        && exists first :: Earliest(channels, first) && LeadIn(frozenStart, start, first, trim, sampleRate)
    {
      if valid {
        return Fail(AlreadyFinal);
      }
      if frozenStart > frozenEnd || |decided| != |channels| {
        return Fail(BadGeometry);
      }
      var allNever := true;
      var contradiction, outside := false, false;
      for c := 0 to |decided|
        invariant contradiction <==> !AllCanonical(decided[..c])
        invariant outside <==> !EvidenceInside(decided[..c], frozenStart, frozenEnd)
        invariant allNever <==> AllNever(decided[..c])
      {
        var d := decided[c];
        assert decided[..c + 1] == decided[..c] + [d];
        if d.disposition != Canonical(d.mode, d.activity) { contradiction := true; }
        if d.evidence.Some? && !(frozenStart <= d.evidence.value < frozenEnd) { outside := true; }
        if !d.mode.Never? { allNever := false; }
      }
      assert decided[..|decided|] == decided;
      if contradiction {
        return Fail(Contradiction);
      }
      if outside {
        return Fail(EvidenceOutside);
      }
      var applied := Applied(decided, allNever || gate);
      var first := FirstRetained(applied);
      var begin := Crop(frozenStart, first, trim, sampleRate);
      if begin > frozenEnd {
        return Fail(CropOutside);
      }
      channels, start, end, valid := applied, begin, frozenEnd, true;
      assert Earliest(channels, first) && LeadIn(frozenStart, start, first, trim, sampleRate);
      return Pass;
    }
  }

  method FirstRetained(channels: seq<ChannelDecision>) returns (first: Option<nat>)
    ensures Earliest(channels, first)
  {
    first := None;
    for c := 0 to |channels|
      invariant Earliest(channels[..c], first)
    {
      var d := channels[c];
      if d.disposition.Retain? && d.evidence.Some? && (first.None? || d.evidence.value < first.value) {
        first := d.evidence;
        assert channels[..c + 1][c].evidence == first;
      }
    }
    assert channels[..|channels|] == channels;
  }
}
