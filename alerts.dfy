/**
 * The client-side rule engine of the alerts panel (src/components/Alerts.js):
 * three rules over the cached records and the persisted ledger, a severity
 * filter, and the panel whose settings edits are persisted at once.
 */
module Alerts {
  import opened Common
  import opened JsString
  import opened Records
  import opened Api
  import opened Storage
  import opened PairStats

  // ---------------------------------------------------------------- settings

  /** `Number(x || d)`: a falsy setting (0 here) falls back to the default. */
  function OrDefault(x: real, d: real): (r: real)
    ensures x != 0.0 ==> r == x
    ensures x == 0.0 ==> r == d
  {
    if x == 0.0 then d else x
  }

  function RiskThreshold(s: Settings): real { OrDefault(s.risk_threshold, 0.7) }
  function MinCases(s: Settings): real { OrDefault(s.min_cases, 5.0) }
  function SpikeWindowDays(s: Settings): real { OrDefault(s.spike_window_days, 7.0) }
  function SpikePercent(s: Settings): real { OrDefault(s.spike_percent, 50.0) }

  /** The rule engine's fallbacks are the stored defaults. */
  lemma FallbacksAreStoredDefaults(s: Settings)
    requires s.risk_threshold == 0.0 && s.min_cases == 0.0 && s.spike_window_days == 0.0 && s.spike_percent == 0.0
    ensures RiskThreshold(s) == DefaultSettings.risk_threshold
    ensures MinCases(s) == DefaultSettings.min_cases
    ensures SpikeWindowDays(s) == DefaultSettings.spike_window_days
    ensures SpikePercent(s) == DefaultSettings.spike_percent
  {
  }

  // ------------------------------------------------------------------ alerts

  datatype AlertKind =
    | NewSignalUpload(drug: string, event: string)
    | HighRiskNewPair(drug: string, event: string, count: nat, maxScore: real)
    | SuddenSpike(drug: string, event: string, pct: real, prior: nat, recent: nat)

  /** A client-side alert; the message text is rendered from the kind's fields. */
  datatype Alert = Alert(severity: string, kind: AlertKind)

  function TypeOf(k: AlertKind): string
  {
    match k
    case NewSignalUpload(_, _) => "new_signal_upload"
    case HighRiskNewPair(_, _, _, _) => "high_risk_new_pair"
    case SuddenSpike(_, _, _, _, _) => "sudden_spike"
  }

  // ---------------------------------------------- rule 1: new upload signals

  function UploadAlert(p: LedgerEntry): Alert
  {
    Alert("high", NewSignalUpload(p.drug_name, p.adverse_event))
  }

  /** One high alert per ledger entry flagged as new from an upload, in ledger order. */
  function UploadAlerts(persisted: seq<LedgerEntry>): seq<Alert>
  {
    if persisted == [] then []
    else
      var n := |persisted| - 1;
      UploadAlerts(persisted[..n]) + (if persisted[n].isNewFromUpload then [UploadAlert(persisted[n])] else [])
  }

  method EmitUploadAlerts(persistedPairs: seq<LedgerEntry>) returns (alerts: seq<Alert>)
    ensures alerts == UploadAlerts(persistedPairs)
  {
    alerts := [];
    for i := 0 to |persistedPairs|
      invariant alerts == UploadAlerts(persistedPairs[..i])
    {
      assert persistedPairs[..i + 1][..i] == persistedPairs[..i];
      var p := persistedPairs[i];
      if p.isNewFromUpload {
        alerts := alerts + [UploadAlert(p)];
      }
    }
    assert persistedPairs[..|persistedPairs|] == persistedPairs;
  }

  /** Rule 1 fires exactly for the flagged entries, always with severity high. */
  lemma {:induction false} UploadAlertsExact(persisted: seq<LedgerEntry>)
    ensures forall i :: 0 <= i < |persisted| && persisted[i].isNewFromUpload ==> UploadAlert(persisted[i]) in UploadAlerts(persisted)
    ensures forall a :: a in UploadAlerts(persisted) ==>
      a.severity == "high" && a.kind.NewSignalUpload? && LedgerEntry(a.kind.drug, a.kind.event, true) in persisted
    ensures |UploadAlerts(persisted)| <= |persisted|
  {
    if persisted != [] {
      var n := |persisted| - 1;
      var init := persisted[..n];
      UploadAlertsExact(init);
      forall i | 0 <= i < n ensures persisted[i] == init[i] { }
      assert forall x :: x in init ==> x in persisted;
      if persisted[n].isNewFromUpload {
        assert LedgerEntry(persisted[n].drug_name, persisted[n].adverse_event, true) == persisted[n];
      }
    }
  }

  /** Rule 1 follows the ledger: the alerts of a longer ledger are those of its parts, in order. */
  lemma {:induction false} UploadAlertsConcat(a: seq<LedgerEntry>, b: seq<LedgerEntry>)
    ensures UploadAlerts(a + b) == UploadAlerts(a) + UploadAlerts(b)
  {
    if b == [] {
      assert a + b == a;
    } else {
      var n := |b| - 1;
      assert (a + b)[..|a + b| - 1] == a + b[..n];
      assert (a + b)[|a + b| - 1] == b[n];
      UploadAlertsConcat(a, b[..n]);
    }
  }

  /**
   * One alert per flagged entry, duplicates kept: an upload alert occurs as
   * often as the ledger holds the flagged entry of its pair.
   */
  lemma {:induction false} UploadAlertsCount(persisted: seq<LedgerEntry>, entry: LedgerEntry)
    ensures multiset(UploadAlerts(persisted))[UploadAlert(entry)] == multiset(persisted)[entry.(isNewFromUpload := true)]
  {
    if persisted != [] {
      var n := |persisted| - 1;
      var p := persisted[n];
      UploadAlertsCount(persisted[..n], entry);
      assert persisted == persisted[..n] + [p];
      assert multiset(persisted) == multiset(persisted[..n]) + multiset{p};
      assert p.isNewFromUpload ==> (UploadAlert(p) == UploadAlert(entry) <==> p == entry.(isNewFromUpload := true));
    }
  }

  // ---------------------------------------------- rule 2: high-risk new pairs

  predicate HighRisk(p: PairDetail, minCases: real, riskThreshold: real)
  {
    p.count as real >= minCases && p.maxScore >= riskThreshold
  }

  function HighRiskAlert(p: PairDetail): Alert
  {
    Alert("high", HighRiskNewPair(p.drug_name, p.adverse_event, p.count, p.maxScore))
  }

  function HighRiskAlerts(newPairs: seq<PairDetail>, minCases: real, riskThreshold: real): seq<Alert>
  {
    if newPairs == [] then []
    else
      var n := |newPairs| - 1;
      HighRiskAlerts(newPairs[..n], minCases, riskThreshold)
        + (if HighRisk(newPairs[n], minCases, riskThreshold) then [HighRiskAlert(newPairs[n])] else [])
  }

  method EmitHighRiskAlerts(newPairs: seq<PairDetail>, minCases: real, riskThreshold: real) returns (alerts: seq<Alert>)
    ensures alerts == HighRiskAlerts(newPairs, minCases, riskThreshold)
  {
    alerts := [];
    for i := 0 to |newPairs|
      invariant alerts == HighRiskAlerts(newPairs[..i], minCases, riskThreshold)
    {
      assert newPairs[..i + 1][..i] == newPairs[..i];
      var p := newPairs[i];
      if p.count as real >= minCases && p.maxScore >= riskThreshold {
        alerts := alerts + [HighRiskAlert(p)];
      }
    }
    assert newPairs[..|newPairs|] == newPairs;
  }

  /** Rule 2 fires for a new pair exactly when it has enough cases and a high enough score (both bounds inclusive). */
  lemma {:induction false} HighRiskAlertsExact(newPairs: seq<PairDetail>, minCases: real, riskThreshold: real)
    ensures forall i :: 0 <= i < |newPairs| ==>
      (HighRiskAlert(newPairs[i]) in HighRiskAlerts(newPairs, minCases, riskThreshold) <==> HighRisk(newPairs[i], minCases, riskThreshold))
    ensures forall a :: a in HighRiskAlerts(newPairs, minCases, riskThreshold) ==>
      a.severity == "high" && a.kind.HighRiskNewPair?
      && a.kind.count as real >= minCases && a.kind.maxScore >= riskThreshold
      && PairDetail(a.kind.drug, a.kind.event, a.kind.count, a.kind.maxScore) in newPairs
  {
    HighRiskAlertsSound(newPairs, minCases, riskThreshold);
    forall i | 0 <= i < |newPairs|
      ensures HighRiskAlert(newPairs[i]) in HighRiskAlerts(newPairs, minCases, riskThreshold) <==> HighRisk(newPairs[i], minCases, riskThreshold)
    {
      HighRiskAlertsComplete(newPairs, minCases, riskThreshold, i);
    }
  }

  lemma {:induction false} HighRiskAlertsSound(newPairs: seq<PairDetail>, minCases: real, riskThreshold: real)
    ensures forall a :: a in HighRiskAlerts(newPairs, minCases, riskThreshold) ==>
      a.severity == "high" && a.kind.HighRiskNewPair?
      && a.kind.count as real >= minCases && a.kind.maxScore >= riskThreshold
      && PairDetail(a.kind.drug, a.kind.event, a.kind.count, a.kind.maxScore) in newPairs
  {
    if newPairs != [] {
      var n := |newPairs| - 1;
      var init := newPairs[..n];
      HighRiskAlertsSound(init, minCases, riskThreshold);
      assert forall x :: x in init ==> x in newPairs;
      var p := newPairs[n];
      assert PairDetail(p.drug_name, p.adverse_event, p.count, p.maxScore) == p;
    }
  }

  lemma {:induction false} HighRiskAlertsComplete(newPairs: seq<PairDetail>, minCases: real, riskThreshold: real, i: nat)
    requires i < |newPairs|
    ensures HighRisk(newPairs[i], minCases, riskThreshold) ==> HighRiskAlert(newPairs[i]) in HighRiskAlerts(newPairs, minCases, riskThreshold)
  {
    var n := |newPairs| - 1;
    if i < n {
      HighRiskAlertsComplete(newPairs[..n], minCases, riskThreshold, i);
      assert newPairs[..n][i] == newPairs[i];
    }
  }

  // --------------------------------------------------- rule 3: sudden spikes

  const DayMs: real := 86400000.0

  /** `new Date(x)` keeps the integer part of x, truncated toward zero. */
  function TimeClip(x: real): (r: int)
    ensures x >= 0.0 ==> r as real <= x < r as real + 1.0
    ensures x < 0.0 ==> r as real - 1.0 < x <= r as real
  {
    if x >= 0.0 then x.Floor else -((-x).Floor)
  }

  /** start1 (windows 1) and start2 (windows 2): now minus that many spike windows. */
  function WindowStart(now: int, days: real, windows: real): int
  {
    TimeClip(now as real - windows * days * DayMs)
  }

  /** `new Date(date_reported || now)`: a missing date is now, an unparsable one is no time at all. */
  function Moment(e: EventRecord, now: int): Option<int>
  {
    match e.reported
    case Missing => Some(now)
    case At(ms) => Some(ms)
    case Unparsable => None
  }

  predicate InRecent(e: EventRecord, now: int, days: real)
  {
    var m := Moment(e, now);
    m.Some? && m.value >= WindowStart(now, days, 1.0)
  }

  predicate InPrior(e: EventRecord, now: int, days: real)
  {
    var m := Moment(e, now);
    m.Some? && m.value < WindowStart(now, days, 1.0) && m.value >= WindowStart(now, days, 2.0)
  }

  predicate SpikeMatch(e: EventRecord, k: string)
  {
    HasNames(e) && KeyOf(e) == k
  }

  function RecentCount(events: seq<EventRecord>, k: string, now: int, days: real): nat
  {
    if events == [] then 0
    else
      var n := |events| - 1;
      RecentCount(events[..n], k, now, days) + (if SpikeMatch(events[n], k) && InRecent(events[n], now, days) then 1 else 0)
  }

  function PriorCount(events: seq<EventRecord>, k: string, now: int, days: real): nat
  {
    if events == [] then 0
    else
      var n := |events| - 1;
      PriorCount(events[..n], k, now, days) + (if SpikeMatch(events[n], k) && InPrior(events[n], now, days) then 1 else 0)
  }

  datatype Tally = Tally(recent: nat, prior: nat)

  /** byPair after the records so far: each record with both names counts once under its key, as recent, as prior, or not at all. */
  function TalliesOf(events: seq<EventRecord>, now: int, days: real): map<string, Tally>
  {
    if events == [] then map[]
    else
      var n := |events| - 1;
      var t := TalliesOf(events[..n], now, days);
      if HasNames(events[n]) then AddTally(t, events[n], now, days) else t
  }

  /** One record with both names joins the tally of its key. */
  function AddTally(byPair: map<string, Tally>, e: EventRecord, now: int, days: real): map<string, Tally>
    requires HasNames(e)
  {
    var k := KeyOf(e);
    var s := if k in byPair then byPair[k] else Tally(0, 0);
    byPair[k := if InRecent(e, now, days) then s.(recent := s.recent + 1)
                else if InPrior(e, now, days) then s.(prior := s.prior + 1)
                else s]
  }

  /** byPair holds one tally per key of a record with both names: the key's recent and prior counts. */
  lemma {:induction false} TalliesOfSpec(events: seq<EventRecord>, now: int, days: real)
    ensures forall k :: k in TalliesOf(events, now, days) <==> k in KeySet(events)
    ensures forall k :: k in TalliesOf(events, now, days) ==>
      TalliesOf(events, now, days)[k] == Tally(RecentCount(events, k, now, days), PriorCount(events, k, now, days))
  {
    if events != [] {
      var n := |events| - 1;
      var init, e := events[..n], events[n];
      TalliesOfSpec(init, now, days);
      assert events == init + [e];
      forall k | k in TalliesOf(events, now, days)
        ensures TalliesOf(events, now, days)[k] == Tally(RecentCount(events, k, now, days), PriorCount(events, k, now, days))
      {
        TallyStep(init, e, k, now, days);
        if k !in KeySet(init) {
          NoKeyNoTally(init, k, now, days);
        }
      }
    }
  }

  lemma {:induction false} NoKeyNoTally(events: seq<EventRecord>, k: string, now: int, days: real)
    requires k !in KeySet(events)
    ensures RecentCount(events, k, now, days) == 0 && PriorCount(events, k, now, days) == 0
  {
    if events != [] {
      NoKeyNoTally(events[..|events| - 1], k, now, days);
    }
  }

  /** How one more record changes the counts of a key. */
  lemma TallyStep(seen: seq<EventRecord>, e: EventRecord, k: string, now: int, days: real)
    ensures RecentCount(seen + [e], k, now, days)
      == RecentCount(seen, k, now, days) + (if SpikeMatch(e, k) && InRecent(e, now, days) then 1 else 0)
    ensures PriorCount(seen + [e], k, now, days)
      == PriorCount(seen, k, now, days) + (if SpikeMatch(e, k) && InPrior(e, now, days) then 1 else 0)
  {
    assert (seen + [e])[..|seen|] == seen;
  }

  /** The byPair loop: every record with both names counts once, as recent, as prior, or (out of both windows) not at all. */
  method CountSpikes(events: seq<EventRecord>, now: int, spikeWindow: real) returns (order: seq<string>, byPair: map<string, Tally>)
    ensures order == KeyOrder(events)
    ensures byPair == TalliesOf(events, now, spikeWindow)
  {
    var start1 := WindowStart(now, spikeWindow, 1.0);
    var start2 := WindowStart(now, spikeWindow, 2.0);
    order, byPair := [], map[];
    for i := 0 to |events|
      invariant order == KeyOrder(events[..i])
      invariant byPair == TalliesOf(events[..i], now, spikeWindow)
    {
      assert events[..i + 1][..i] == events[..i];
      order, byPair := CountRecord(order, byPair, events[i], now, spikeWindow, start1, start2);
    }
    assert events[..|events|] == events;
  }

  /** The loop body of the spike count: one record joins its key's tally and the key order. */
  method CountRecord(order: seq<string>, byPair: map<string, Tally>, event: EventRecord, now: int, spikeWindow: real, start1: int, start2: int)
    returns (order': seq<string>, byPair': map<string, Tally>)
    requires start1 == WindowStart(now, spikeWindow, 1.0) && start2 == WindowStart(now, spikeWindow, 2.0)
    ensures order' == order + (if HasNames(event) && KeyOf(event) !in order then [KeyOf(event)] else [])
    ensures byPair' == if HasNames(event) then AddTally(byPair, event, now, spikeWindow) else byPair
  {
    order', byPair' := order, byPair;
    if event.drug_name != "" && event.adverse_event != "" {
      var pairKey := PairKey(event.drug_name, event.adverse_event);
      var d := Moment(event, now);
      var s := if pairKey in byPair' then byPair'[pairKey] else Tally(0, 0);
      if d.Some? && d.value >= start1 {
        s := s.(recent := s.recent + 1);
      } else if d.Some? && d.value >= start2 {
        s := s.(prior := s.prior + 1);
      }
      byPair' := byPair'[pairKey := s];
      if pairKey !in order' {
        order' := order' + [pairKey];
      }
    }
  }

  function Percent(t: Tally): real
    requires t.prior > 0
  {
    (t.recent as real - t.prior as real) / t.prior as real * 100.0
  }

  predicate Spikes(t: Tally, minCases: real, pctThreshold: real)
  {
    t.recent as real >= minCases && t.prior > 0 && Percent(t) >= pctThreshold
  }

  /** The alert names the pair by splitting its key at "||". */
  function SpikeAlert(k: string, t: Tally): Alert
    requires t.prior > 0
  {
    Alert("medium", SuddenSpike(UntilSep(k), UntilSep(AfterSep(k)), Percent(t), t.prior, t.recent))
  }

  function SpikeAlerts(order: seq<string>, byPair: map<string, Tally>, minCases: real, pctThreshold: real): seq<Alert>
  {
    if order == [] then []
    else
      var n := |order| - 1;
      var k := order[n];
      SpikeAlerts(order[..n], byPair, minCases, pctThreshold)
        + (if k in byPair && Spikes(byPair[k], minCases, pctThreshold) then [SpikeAlert(k, byPair[k])] else [])
  }

  method EmitSpikeAlerts(order: seq<string>, byPair: map<string, Tally>, minCases: real, pctThreshold: real) returns (alerts: seq<Alert>)
    ensures alerts == SpikeAlerts(order, byPair, minCases, pctThreshold)
  {
    alerts := [];
    for i := 0 to |order|
      invariant alerts == SpikeAlerts(order[..i], byPair, minCases, pctThreshold)
    {
      assert order[..i + 1][..i] == order[..i];
      var key := order[i];
      if key in byPair {
        var v := byPair[key];
        if v.recent as real >= minCases && v.prior > 0 {
          var pct := (v.recent as real - v.prior as real) / v.prior as real * 100.0;
          if pct >= pctThreshold {
            alerts := alerts + [SpikeAlert(key, v)];
          }
        }
      }
    }
    assert order[..|order|] == order;
  }

  /** The spike test without division: recent − prior is at least pct percent of prior. */
  lemma SpikesCrossMultiplied(t: Tally, minCases: real, pctThreshold: real)
    ensures Spikes(t, minCases, pctThreshold) <==>
      t.recent as real >= minCases && t.prior > 0
      && (t.recent as real - t.prior as real) * 100.0 >= pctThreshold * t.prior as real
  {
    if t.prior > 0 {
      var p := t.prior as real;
      var diff := t.recent as real - p;
      assert Percent(t) * p == diff * 100.0;
      if Percent(t) >= pctThreshold {
        assert Percent(t) * p >= pctThreshold * p;
      } else {
        assert Percent(t) * p < pctThreshold * p;
      }
    }
  }

  /** With no prior reports there is no spike, however many recent reports. */
  lemma NoPriorNoSpike(t: Tally, minCases: real, pctThreshold: real)
    requires t.prior == 0
    ensures !Spikes(t, minCases, pctThreshold)
  {
  }

  /** Both bounds are inclusive: 4 prior and 6 recent is exactly +50% and fires with the defaults; 5 → 7 does not. */
  lemma SpikeBoundaryExample()
    ensures Spikes(Tally(6, 4), 5.0, 50.0)
    ensures !Spikes(Tally(7, 5), 5.0, 50.0)
    ensures !Spikes(Tally(4, 2), 5.0, 50.0)
  {
    SpikesCrossMultiplied(Tally(6, 4), 5.0, 50.0);
    SpikesCrossMultiplied(Tally(7, 5), 5.0, 50.0);
  }

  /**
   * A record without a date counts as recent, and so does a future one: the
   * recent window has no upper bound. The windows never overlap.
   */
  lemma RecentWindowOpenEnded(e: EventRecord, now: int, days: real)
    requires days >= 0.0
    ensures e.reported.Missing? ==> InRecent(e, now, days)
    ensures e.reported.At? && e.reported.ms >= now ==> InRecent(e, now, days)
    ensures e.reported.Unparsable? ==> !InRecent(e, now, days) && !InPrior(e, now, days)
    ensures !(InRecent(e, now, days) && InPrior(e, now, days))
  {
    assert WindowStart(now, days, 1.0) <= now;
  }

  /**
   * Rule 3 is sound and complete over byPair: an alert is raised for every
   * spiking key, and every alert raised is a medium one whose percentage is
   * computed from counts that pass the test.
   */
  lemma {:induction false} SpikeAlertsExact(order: seq<string>, byPair: map<string, Tally>, minCases: real, pctThreshold: real)
    ensures forall k :: k in order && k in byPair && Spikes(byPair[k], minCases, pctThreshold) ==>
      SpikeAlert(k, byPair[k]) in SpikeAlerts(order, byPair, minCases, pctThreshold)
    ensures forall a :: a in SpikeAlerts(order, byPair, minCases, pctThreshold) ==>
      a.severity == "medium" && a.kind.SuddenSpike?
      && Spikes(Tally(a.kind.recent, a.kind.prior), minCases, pctThreshold)
      && a.kind.pct == Percent(Tally(a.kind.recent, a.kind.prior))
    ensures forall a :: a in SpikeAlerts(order, byPair, minCases, pctThreshold) ==>
      exists k :: k in order && k in byPair && Spikes(byPair[k], minCases, pctThreshold) && a == SpikeAlert(k, byPair[k])
  {
    if order != [] {
      var n := |order| - 1;
      var init := order[..n];
      SpikeAlertsExact(init, byPair, minCases, pctThreshold);
      assert forall x :: x in order ==> x in init || x == order[n];
      var k := order[n];
      if k in byPair && Spikes(byPair[k], minCases, pctThreshold) {
        var t := byPair[k];
        assert Tally(t.recent, t.prior) == t;
      }
      forall a | a in SpikeAlerts(order, byPair, minCases, pctThreshold)
        ensures exists k :: k in order && k in byPair && Spikes(byPair[k], minCases, pctThreshold) && a == SpikeAlert(k, byPair[k])
      {
        if a in SpikeAlerts(init, byPair, minCases, pctThreshold) {
          var j :| j in init && j in byPair && Spikes(byPair[j], minCases, pctThreshold) && a == SpikeAlert(j, byPair[j]);
          assert j in order;
        } else {
          assert k in order;
        }
      }
    }
  }

  /** The names of a spike alert are the canonical names of the pair whenever the drug name holds no '|'. */
  lemma SpikeAlertNames(d: string, e: string, t: Tally)
    requires t.prior > 0
    requires '|' !in Canon(d) && '|' !in Canon(e)
    ensures SpikeAlert(PairKey(d, e), t).kind.drug == Canon(d)
    ensures SpikeAlert(PairKey(d, e), t).kind.event == Canon(e)
  {
    SplitPairKey(d, e);
  }

  // --------------------------------------------------------- severity filter

  function SeverityRank(severity: string): (r: int)
    ensures 1 <= r <= 3
  {
    if severity == "low" then 1
    else if severity == "medium" then 2
    else if severity == "high" then 3
    else 1
  }

  function MinSeverityRank(s: Settings): int
  {
    SeverityRank(if s.min_severity == "" then "low" else s.min_severity)
  }

  function SeverityFilter(alerts: seq<Alert>, minRank: int): seq<Alert>
  {
    if alerts == [] then []
    else
      var n := |alerts| - 1;
      SeverityFilter(alerts[..n], minRank) + (if SeverityRank(alerts[n].severity) >= minRank then [alerts[n]] else [])
  }

  method FilterBySeverity(alerts: seq<Alert>, minSevRank: int) returns (filteredAlerts: seq<Alert>)
    ensures filteredAlerts == SeverityFilter(alerts, minSevRank)
  {
    filteredAlerts := [];
    for i := 0 to |alerts|
      invariant filteredAlerts == SeverityFilter(alerts[..i], minSevRank)
    {
      assert alerts[..i + 1][..i] == alerts[..i];
      if SeverityRank(alerts[i].severity) >= minSevRank {
        filteredAlerts := filteredAlerts + [alerts[i]];
      }
    }
    assert alerts[..|alerts|] == alerts;
  }

  /** The filter keeps exactly the alerts at or above the minimum rank, as a subsequence. */
  lemma {:induction false} SeverityFilterExact(alerts: seq<Alert>, minRank: int)
    ensures forall a :: a in SeverityFilter(alerts, minRank) <==> a in alerts && SeverityRank(a.severity) >= minRank
    ensures |SeverityFilter(alerts, minRank)| <= |alerts|
  {
    if alerts != [] {
      var n := |alerts| - 1;
      SeverityFilterExact(alerts[..n], minRank);
      assert alerts == alerts[..n] + [alerts[n]];
    }
  }

  lemma {:induction false} SeverityFilterConcat(xs: seq<Alert>, ys: seq<Alert>, minRank: int)
    ensures SeverityFilter(xs + ys, minRank) == SeverityFilter(xs, minRank) + SeverityFilter(ys, minRank)
  {
    if ys != [] {
      var n := |ys| - 1;
      assert (xs + ys)[..|xs + ys| - 1] == xs + ys[..n];
      SeverityFilterConcat(xs, ys[..n], minRank);
    } else {
      assert xs + ys == xs;
    }
  }

  /** A filter at rank 1 (low, or an unknown name) keeps everything. */
  lemma {:induction false} LowestRankKeepsAll(alerts: seq<Alert>)
    ensures SeverityFilter(alerts, 1) == alerts
  {
    if alerts != [] {
      var n := |alerts| - 1;
      LowestRankKeepsAll(alerts[..n]);
      assert alerts == alerts[..n] + [alerts[n]];
    }
  }

  /** With "medium" as the minimum a low alert is dropped and a high one kept. */
  lemma SeverityFilterExample(low: Alert, high: Alert)
    requires low.severity == "low" && high.severity == "high"
    ensures SeverityFilter([low, high], MinSeverityRank(Settings(7.0, 50.0, 0.7, 5.0, "medium"))) == [high]
  {
    assert MinSeverityRank(Settings(7.0, 50.0, 0.7, 5.0, "medium")) == 2;
    assert [low, high][..1] == [low];
    assert [low][..0] == [];
    assert SeverityFilter([low], 2) == [];
  }

  // ------------------------------------------------------ the whole pipeline

  /** Rules 2 and 3, in that order, over the cached records. */
  function PairAlerts(events: seq<EventRecord>, settings: Settings, baseline: set<string>, now: int): seq<Alert>
  {
    var minCases := MinCases(settings);
    var newPairs := NewPairDetails(DetailOrder(events), DetailsOf(events), baseline);
    HighRiskAlerts(newPairs, minCases, RiskThreshold(settings))
      + SpikeAlerts(KeyOrder(events), TalliesOf(events, now, SpikeWindowDays(settings)), minCases, SpikePercent(settings))
  }

  /** computeClientSideAlerts: rule 1, then rules 2 and 3, then the severity filter. */
  function ClientAlerts(events: seq<EventRecord>, settings: Settings, persisted: seq<LedgerEntry>, baseline: set<string>, now: int): seq<Alert>
  {
    SeverityFilter(UploadAlerts(persisted) + PairAlerts(events, settings, baseline, now), MinSeverityRank(settings))
  }

  /**
   * A stored ledger or baseline that is a number or an object: iterating it
   * throws, and the catch of computeClientSideAlerts leaves no alert at all.
   */
  predicate StoredListThrows(cells: map<string, Cell>, readable: bool)
  {
    NotIterable(cells, readable, PairsKey) || NotIterable(cells, readable, BaselineKey)
  }

  /**
   * computeClientSideAlerts as written: both record loops call the missing
   * `api.buildPairKey`, so any record with both names ends in the catch and no
   * alert; otherwise rules 2 and 3 see no pair and only rule 1 remains.
   */
  function ClientAlertsAsWritten(events: seq<EventRecord>, settings: Settings, persisted: seq<LedgerEntry>): seq<Alert>
  {
    if KeyCallThrows(events) then [] else SeverityFilter(UploadAlerts(persisted), MinSeverityRank(settings))
  }

  /**
   * One evaluation of the rules over the cached records, reading the ledger and
   * the baseline from the store, as the code is written; `now` is the clock reading.
   */
  method ComputeClientSideAlerts(latestEvents: seq<EventRecord>, settings: Settings, store: Store, now: int) returns (alerts: seq<Alert>)
    ensures alerts == if StoredListThrows(store.cells, store.readable) then []
      else ClientAlertsAsWritten(latestEvents, settings, store.GetNewSignalPairs())
  {
    if NotIterable(store.cells, store.readable, PairsKey) {
      return [];
    }
    var persistedPairs := store.GetNewSignalPairs();
    var uploadAlerts := EmitUploadAlerts(persistedPairs);
    if NotIterable(store.cells, store.readable, BaselineKey) {
      return [];
    }
    // The aggregation loop throws at its first record with two non-blank names,
    // the spike loop at its first record with two names; the first never throws
    // where the second would not.
    var threw := KeyLoopAsWritten(latestEvents);
    if threw {
      return [];
    }
    // No record has both names: currentPairs and byPair stay empty, so rules 2 and 3 add nothing.
    alerts := FilterBySeverity(uploadAlerts, MinSeverityRank(settings));
  }

  /**
   * computeClientSideAlerts with the exported buildPairKey called in place of
   * `api.buildPairKey`: all three rules run over the records.
   */
  method ComputeClientSideAlertsIntended(latestEvents: seq<EventRecord>, settings: Settings, store: Store, now: int) returns (alerts: seq<Alert>)
    ensures alerts == if StoredListThrows(store.cells, store.readable) then []
      else ClientAlerts(latestEvents, settings, store.GetNewSignalPairs(), store.GetBaselinePairs(), now)
  {
    if NotIterable(store.cells, store.readable, PairsKey) {
      return [];
    }
    var persistedPairs := store.GetNewSignalPairs();
    var riskThreshold := RiskThreshold(settings);
    var minCases := MinCases(settings);
    var uploadAlerts := EmitUploadAlerts(persistedPairs);
    if NotIterable(store.cells, store.readable, BaselineKey) {
      return [];
    }
    var baselinePairs := store.GetBaselinePairs();
    var currentPairs, pairDetails := AggregatePairs(latestEvents);
    var newPairs := CollectNewPairs(currentPairs, pairDetails, baselinePairs);
    var riskAlerts := EmitHighRiskAlerts(newPairs, minCases, riskThreshold);
    var spikeWindow := SpikeWindowDays(settings);
    var pctThreshold := SpikePercent(settings);
    var order, byPair := CountSpikes(latestEvents, now, spikeWindow);
    var spikeAlerts := EmitSpikeAlerts(order, byPair, minCases, pctThreshold);
    assert riskAlerts + spikeAlerts == PairAlerts(latestEvents, settings, baselinePairs, now);
    alerts := FilterBySeverity(uploadAlerts + (riskAlerts + spikeAlerts), MinSeverityRank(settings));
  }

  /** Upload alerts are high, so they pass every filter and always come first. */
  lemma {:induction false} UploadAlertsPassFilter(persisted: seq<LedgerEntry>, minRank: int)
    requires minRank <= 3
    ensures SeverityFilter(UploadAlerts(persisted), minRank) == UploadAlerts(persisted)
  {
    if persisted != [] {
      var n := |persisted| - 1;
      UploadAlertsPassFilter(persisted[..n], minRank);
      var xs := UploadAlerts(persisted[..n]);
      var ys := if persisted[n].isNewFromUpload then [UploadAlert(persisted[n])] else [];
      SeverityFilterConcat(xs, ys, minRank);
      if ys != [] {
        var y := UploadAlert(persisted[n]);
        assert SeverityRank(y.severity) == 3;
        assert [y][..0] == [];
        assert SeverityFilter([y], minRank) == SeverityFilter([], minRank) + [y];
      }
    }
  }

  lemma UploadAlertsLead(events: seq<EventRecord>, settings: Settings, persisted: seq<LedgerEntry>, baseline: set<string>, now: int)
    ensures UploadAlerts(persisted) <= ClientAlerts(events, settings, persisted, baseline, now)
  {
    var m := MinSeverityRank(settings);
    SeverityFilterConcat(UploadAlerts(persisted), PairAlerts(events, settings, baseline, now), m);
    UploadAlertsPassFilter(persisted, m);
  }

  /** Spike alerts are medium: a "high" minimum drops them all, whatever the counts. */
  lemma HighMinimumDropsSpikes(events: seq<EventRecord>, settings: Settings, persisted: seq<LedgerEntry>, baseline: set<string>, now: int)
    requires settings.min_severity == "high"
    ensures forall a :: a in ClientAlerts(events, settings, persisted, baseline, now) ==> a.severity == "high"
  {
    SeverityFilterExact(UploadAlerts(persisted) + PairAlerts(events, settings, baseline, now), 3);
  }

  // ------------------------------------------------------------ the panel

  /** One edit of the settings form: which field, and its new value. */
  datatype SettingChange =
    | SpikeWindowDaysTo(days: real)
    | SpikePercentTo(pct: real)
    | RiskThresholdTo(threshold: real)
    | MinCasesTo(cases: real)
    | MinSeverityTo(severity: string)

  /** `{ ...alertSettings, [key]: value }`. */
  function Apply(s: Settings, c: SettingChange): Settings
  {
    match c
    case SpikeWindowDaysTo(v) => s.(spike_window_days := v)
    case SpikePercentTo(v) => s.(spike_percent := v)
    case RiskThresholdTo(v) => s.(risk_threshold := v)
    case MinCasesTo(v) => s.(min_cases := v)
    case MinSeverityTo(v) => s.(min_severity := v)
  }

  /** An edit changes its own field only: every other setting keeps its value. */
  lemma ApplyChangesOneField(s: Settings, c: SettingChange)
    ensures !c.SpikeWindowDaysTo? ==> Apply(s, c).spike_window_days == s.spike_window_days
    ensures !c.SpikePercentTo? ==> Apply(s, c).spike_percent == s.spike_percent
    ensures !c.RiskThresholdTo? ==> Apply(s, c).risk_threshold == s.risk_threshold
    ensures !c.MinCasesTo? ==> Apply(s, c).min_cases == s.min_cases
    ensures !c.MinSeverityTo? ==> Apply(s, c).min_severity == s.min_severity
  {
  }

  /**
   * As written, the engine raises exactly the upload alerts when no record has
   * both names, and nothing otherwise.
   */
  lemma AsWrittenAlertsAreUploadAlerts(events: seq<EventRecord>, settings: Settings, persisted: seq<LedgerEntry>)
    ensures ClientAlertsAsWritten(events, settings, persisted) == if KeyCallThrows(events) then [] else UploadAlerts(persisted)
  {
    UploadAlertsPassFilter(persisted, MinSeverityRank(settings));
  }

  /**
   * The alerts as written are a prefix of the intended ones, and the same when
   * no record has both names.
   */
  lemma AsWrittenIsPrefixOfIntended(events: seq<EventRecord>, settings: Settings, persisted: seq<LedgerEntry>, baseline: set<string>, now: int)
    ensures ClientAlertsAsWritten(events, settings, persisted) <= ClientAlerts(events, settings, persisted, baseline, now)
    ensures !KeyCallThrows(events) ==> ClientAlertsAsWritten(events, settings, persisted) == ClientAlerts(events, settings, persisted, baseline, now)
  {
    if !KeyCallThrows(events) {
      NoKeyCallNoDetails(events);
      NoKeyCallNoKeys({}, events);
      assert PairAlerts(events, settings, baseline, now) == [];
      assert UploadAlerts(persisted) + [] == UploadAlerts(persisted);
    }
  }

  /**
   * One cached report of a pair and one ledger entry flagged new from the
   * upload: the intended engine raises the upload alert, the code as written
   * raises nothing.
   */
  lemma KeyCallDropsAlerts()
    ensures var e := EventRecord("Aspirin", "Nausea", None, "", Missing);
      var ledger := [LedgerEntry("Aspirin", "Nausea", true)];
      ClientAlertsAsWritten([e], DefaultSettings, ledger) == []
      && ClientAlerts([e], DefaultSettings, ledger, {}, 0) != []
  {
    var e := EventRecord("Aspirin", "Nausea", None, "", Missing);
    var ledger := [LedgerEntry("Aspirin", "Nausea", true)];
    assert HasNames([e][0]);
    assert ledger[..0] == [];
    assert UploadAlerts(ledger) == [UploadAlert(ledger[0])];
    UploadAlertsLead([e], DefaultSettings, ledger, {}, 0);
  }

  /** The alerts panel's state: its settings (seeded from the store) and the last client-side alerts. */
  class AlertsPanel {
    const store: Store
    var alertSettings: Settings
    var clientAlerts: seq<Alert>

    constructor (store: Store)
      ensures this.store == store
      ensures alertSettings == store.GetAlertSettings()
      ensures clientAlerts == []
    {
      this.store := store;
      alertSettings := store.GetAlertSettings();
      clientAlerts := [];
    }

    /** Edits one field and persists the whole new settings object at once. */
    method HandleSettingChange(change: SettingChange)
      modifies this, store
      ensures alertSettings == Apply(old(alertSettings), change)
      ensures store.cells == Write(old(store.cells), old(store.writable), SettingsKey, Config(alertSettings))
      ensures store.readable == old(store.readable) && store.writable == old(store.writable)
      ensures clientAlerts == old(clientAlerts)
    {
      var newSettings := Apply(alertSettings, change);
      alertSettings := newSettings;
      store.SetAlertSettings(newSettings);
    }

    method SaveAlertSettings()
      modifies store
      ensures store.cells == Write(old(store.cells), old(store.writable), SettingsKey, Config(alertSettings))
      ensures store.readable == old(store.readable) && store.writable == old(store.writable)
    {
      store.SetAlertSettings(alertSettings);
    }

    /** The effect that re-runs the rules when the settings or the server alerts change. */
    method RefreshClientAlerts(latestEvents: seq<EventRecord>, now: int)
      modifies this
      ensures clientAlerts == if StoredListThrows(store.cells, store.readable) then []
        else ClientAlertsAsWritten(latestEvents, alertSettings, store.GetNewSignalPairs())
      ensures alertSettings == old(alertSettings)
    {
      clientAlerts := ComputeClientSideAlerts(latestEvents, alertSettings, store, now);
    }
  }

  /** After an edit is persisted, a fresh panel over the same store starts from the edited settings. */
  lemma EditSurvivesReload(cells: map<string, Cell>, s: Settings, c: SettingChange)
    ensures AlertSettingsOf(Write(cells, true, SettingsKey, Config(Apply(s, c))), true) == Apply(s, c)
  {
  }
}
