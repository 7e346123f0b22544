/** The activity gate (src/activity.rs, `evaluate_window`): one window at a time
    it opens, stays open, closes, and remembers the earliest evidence. */
module WindowGate {
  import opened Base

  datatype Activity = Active | Inactive | Ambiguous

  /** One evaluated window, with the levels the meters gave it. */
  datatype Window = Window(start: nat, end: nat, rms: real, peak: real)

  /** `openAt` is the threshold in dBFS, `sustained` the frames a run must span. */
  datatype Setting = Setting(openAt: real, sustained: nat)

  datatype Gate = Gate(openSince: Option<nat>, activity: Activity, evidence: Option<nat>)

  const CLOSED := Gate(None, Inactive, None)

  predicate Transient(c: Setting, w: Window) { w.peak >= c.openAt + 12.0 }

  predicate Opens(c: Setting, w: Window) { w.rms >= c.openAt }

  predicate Holds(c: Setting, w: Window) { w.rms >= c.openAt - 6.0 }

  predicate Qualifies(c: Setting, w: Window) { Holds(c, w) || Transient(c, w) }

  function Evidence(c: Setting, g: Gate, w: Window): Gate {
    if !Qualifies(c, w) then g
    else g.(evidence := Some(if g.evidence.None? then w.start else Min(g.evidence.value, w.start)),
            activity := if g.activity.Inactive? then Ambiguous else g.activity)
  }

  function Judge(c: Setting, gate: Gate, w: Window): Gate {
    var g := Evidence(c, gate, w);
    if Transient(c, w) then g.(activity := Active)
    else if g.openSince.Some? then
      if !Holds(c, w) then g.(openSince := None)
      else if SatSub(w.end, g.openSince.value) >= c.sustained then g.(activity := Active)
      else g
    else if Opens(c, w) then
      g.(openSince := Some(w.start),
         activity := if SatSub(w.end, w.start) >= c.sustained then Active else g.activity)
    else g
  }

  /** The gate after a sequence of windows. */
  function Judged(c: Setting, ws: seq<Window>): Gate {
    if ws == [] then CLOSED else Judge(c, Judged(c, ws[..|ws| - 1]), ws[|ws| - 1])
  }

  // ---- what the gate means ----

  /** Window `i` opens the gate and no window from there to `j` closes it. */
  ghost predicate Run(c: Setting, ws: seq<Window>, i: nat, j: nat) {
    i <= j < |ws| && Opens(c, ws[i]) && forall k :: i <= k <= j ==> Holds(c, ws[k])
  }

  ghost predicate Spans(c: Setting, ws: seq<Window>, i: nat, j: nat) {
    Run(c, ws, i, j) && SatSub(ws[j].end, ws[i].start) >= c.sustained
  }

  ghost predicate AnyTransient(c: Setting, ws: seq<Window>) {
    exists k :: 0 <= k < |ws| && Transient(c, ws[k])
  }

  ghost predicate AnySustained(c: Setting, ws: seq<Window>) {
    exists i: nat, j: nat :: Spans(c, ws, i, j)
  }

  ghost predicate Ordered(ws: seq<Window>) {
    forall i, j :: 0 <= i < j < |ws| ==> ws[i].start < ws[j].start
  }

  /** Window `k` is the first that qualifies. */
  ghost predicate FirstEvidence(c: Setting, ws: seq<Window>, k: nat) {
    k < |ws| && Qualifies(c, ws[k]) && forall i :: 0 <= i < k ==> !Qualifies(c, ws[i])
  }

  ghost predicate OpenAtEnd(c: Setting, ws: seq<Window>, i: nat) {
    i < |ws| && Run(c, ws, i, |ws| - 1)
  }

  /** The gate has been open since the first window from which nothing closed it. */
  ghost predicate OpenSinceRight(c: Setting, ws: seq<Window>, since: Option<nat>) {
    match since
    case None => forall i: nat :: !OpenAtEnd(c, ws, i)
    case Some(s) =>
      exists i: nat :: OpenAtEnd(c, ws, i) && ws[i].start == s && forall h: nat :: h < i ==> !OpenAtEnd(c, ws, h)
  }

  ghost predicate EvidenceRight(c: Setting, ws: seq<Window>, g: Gate) {
    && (g.activity.Inactive? <==> g.evidence.None?)
    && match g.evidence
       case None => forall k :: 0 <= k < |ws| ==> !Qualifies(c, ws[k])
       case Some(s) => exists k: nat :: FirstEvidence(c, ws, k) && ws[k].start == s
  }

  lemma {:induction false} EvidenceIsFirst(c: Setting, ws: seq<Window>)
    requires Ordered(ws)
    ensures EvidenceRight(c, ws, Judged(c, ws))
  {
    if ws != [] {
      var init, w := ws[..|ws| - 1], ws[|ws| - 1];
      var g := Judged(c, init);
      EvidenceIsFirst(c, init);
      assert Judged(c, ws) == Judge(c, g, w);
      EvidenceStep(c, init, w, g);
      assert ws == init + [w];
    }
  }

  lemma EvidenceStep(c: Setting, init: seq<Window>, w: Window, g: Gate)
    requires Ordered(init + [w]) && EvidenceRight(c, init, g)
    ensures EvidenceRight(c, init + [w], Judge(c, g, w))
  {
    var ws := init + [w];
    if g.evidence.Some? {
      var k: nat :| FirstEvidence(c, init, k) && init[k].start == g.evidence.value;
      assert FirstEvidence(c, ws, k) && ws[k].start == g.evidence.value;
      assert ws[k].start < ws[|init|].start;
    } else if Qualifies(c, w) {
      forall i | 0 <= i < |init| ensures !Qualifies(c, ws[i]) { assert ws[i] == init[i]; }
      assert FirstEvidence(c, ws, |init|) && ws[|init|].start == w.start;
    } else {
      forall k | 0 <= k < |ws| ensures !Qualifies(c, ws[k]) { assert k < |init| ==> ws[k] == init[k]; }
    }
  }

  ghost predicate ActivityRight(c: Setting, ws: seq<Window>, g: Gate) {
    && (g.activity.Active? <==> AnyTransient(c, ws) || AnySustained(c, ws))
    && (!AnyTransient(c, ws) ==> OpenSinceRight(c, ws, g.openSince))
  }

  lemma SameRun(c: Setting, init: seq<Window>, w: Window, i: nat, j: nat)
    ensures j < |init| ==> (Run(c, init + [w], i, j) <==> Run(c, init, i, j))
  {
    var ws := init + [w];
    assert forall k :: 0 <= k < |init| ==> ws[k] == init[k];
  }

  lemma LongerRun(c: Setting, init: seq<Window>, w: Window, i: nat)
    ensures i < |init| ==> (OpenAtEnd(c, init + [w], i) <==> OpenAtEnd(c, init, i) && Holds(c, w))
  {
    var ws := init + [w];
    if i < |init| {
      SameRun(c, init, w, i, |init| - 1);
      if OpenAtEnd(c, ws, i) {
        assert Holds(c, ws[|init|]);
        assert Run(c, ws, i, |init| - 1);
      }
      if OpenAtEnd(c, init, i) && Holds(c, w) {
        assert Run(c, ws, i, |init| - 1);
        forall k | i <= k <= |init| ensures Holds(c, ws[k]) {}
      }
    }
  }

  /** One more window: the runs that end at it are the runs open before it, or
      the one it starts. */
  lemma RunsStep(c: Setting, init: seq<Window>, w: Window)
    ensures var ws := init + [w];
      && (forall i: nat :: OpenAtEnd(c, ws, i) <==>
            if i < |init| then OpenAtEnd(c, init, i) && Holds(c, w) else i == |init| && Opens(c, w) && Holds(c, w))
      && (AnySustained(c, ws) <==>
            AnySustained(c, init) || exists i: nat :: OpenAtEnd(c, ws, i) && SatSub(w.end, ws[i].start) >= c.sustained)
  {
    var ws := init + [w];
    forall i: nat, j: nat ensures j < |init| ==> (Run(c, ws, i, j) <==> Run(c, init, i, j)) {
      SameRun(c, init, w, i, j);
    }
    forall i: nat ensures i < |init| ==> (OpenAtEnd(c, ws, i) <==> OpenAtEnd(c, init, i) && Holds(c, w)) {
      LongerRun(c, init, w, i);
    }
    assert Run(c, ws, |init|, |init|) <==> Opens(c, w) && Holds(c, w);
    hide Run, Opens, Holds;
    if AnySustained(c, init) {
      var i: nat, j: nat :| Spans(c, init, i, j);
      assert Spans(c, ws, i, j);
    }
    if AnySustained(c, ws) {
      var i: nat, j: nat :| Spans(c, ws, i, j);
      if j < |init| { assert Spans(c, init, i, j); } else { assert OpenAtEnd(c, ws, i); }
    }
    if i: nat :| OpenAtEnd(c, ws, i) && SatSub(w.end, ws[i].start) >= c.sustained {
      assert Spans(c, ws, i, |ws| - 1);
    }
  }

  lemma TransientStep(c: Setting, init: seq<Window>, w: Window)
    ensures AnyTransient(c, init + [w]) <==> AnyTransient(c, init) || Transient(c, w)
  {
    var ws := init + [w];
    if AnyTransient(c, init) {
      var k :| 0 <= k < |init| && Transient(c, init[k]);
      assert Transient(c, ws[k]);
    }
    if Transient(c, w) { assert Transient(c, ws[|init|]); }
  }

  /** A run ending at the new window is long enough exactly when the longest is,
      the one the gate has been open for. */
  lemma LongestRun(c: Setting, init: seq<Window>, w: Window, i: nat)
    requires Ordered(init + [w]) && OpenAtEnd(c, init, i) && Holds(c, w)
    requires forall h: nat :: h < i ==> !OpenAtEnd(c, init, h)
    ensures var ws := init + [w];
      && OpenAtEnd(c, ws, i) && ws[i] == init[i] && (forall h: nat :: h < i ==> !OpenAtEnd(c, ws, h))
      && (AnySustained(c, ws) <==> AnySustained(c, init) || SatSub(w.end, init[i].start) >= c.sustained)
  {
    var ws := init + [w];
    RunsStep(c, init, w);
    hide Run, AnySustained;
    forall h: nat | OpenAtEnd(c, ws, h) ensures ws[i].start <= ws[h].start {
      assert h >= i;
    }
  }

  lemma ActivityStep(c: Setting, init: seq<Window>, w: Window, g: Gate)
    requires Ordered(init + [w]) && ActivityRight(c, init, g)
    ensures ActivityRight(c, init + [w], Judge(c, g, w))
  {
    var ws := init + [w];
    TransientStep(c, init, w);
    RunsStep(c, init, w);
    if !AnyTransient(c, init) && !Transient(c, w) {
      if g.openSince.Some? && Holds(c, w) {
        var i: nat :| OpenAtEnd(c, init, i) && init[i].start == g.openSince.value
                      && forall h: nat :: h < i ==> !OpenAtEnd(c, init, h);
        LongestRun(c, init, w, i);
      } else if Opens(c, w) {
        assert OpenAtEnd(c, ws, |init|);
      }
      hide Run, AnySustained, AnyTransient, Transient;
    }
  }

  lemma {:induction false} ActivityIsRuns(c: Setting, ws: seq<Window>)
    requires Ordered(ws)
    ensures ActivityRight(c, ws, Judged(c, ws))
  {
    if ws != [] {
      var init, w := ws[..|ws| - 1], ws[|ws| - 1];
      ActivityIsRuns(c, init);
      ActivityStep(c, init, w, Judged(c, init));
      assert ws == init + [w];
    }
  }

  /** The gate's verdict on a sequence of windows, without running it: Active
      exactly when some window is transient or some run of windows opens the
      gate, never closes it and is long enough; the evidence is the start of the
      first qualifying window. */
  lemma GateVerdict(c: Setting, ws: seq<Window>)
    requires Ordered(ws)
    ensures var g := Judged(c, ws);
      && (g.activity.Active? <==> AnyTransient(c, ws) || AnySustained(c, ws))
      && (g.activity.Inactive? <==> forall k :: 0 <= k < |ws| ==> !Qualifies(c, ws[k]))
      && (g.evidence.None? <==> forall k :: 0 <= k < |ws| ==> !Qualifies(c, ws[k]))
      && (g.evidence.Some? ==> exists k: nat :: FirstEvidence(c, ws, k) && ws[k].start == g.evidence.value)
  {
    EvidenceIsFirst(c, ws);
    ActivityIsRuns(c, ws);
    hide Judged, AnyTransient, AnySustained, Transient, Holds;
  }
}
