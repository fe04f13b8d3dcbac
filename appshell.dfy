/**
 * The application shell of src/App.js: one data load (six requests whose
 * answers replace the displayed data and the cached records), the start-up
 * step that seeds an empty baseline, filter application, and the upload flow
 * that diffs the pair keys before and after an upload and persists the result.
 * The network is not modelled: the answers of the requests are parameters.
 */
module AppShell {
  import opened Common
  import opened Records
  import opened Api
  import opened Storage

  /** A server payload the shell only stores and hands on. */
  datatype Blob = Blob(json: string)

  datatype EventsPayload = EventsPayload(items: Option<seq<EventRecord>>)
  datatype SignalsPayload = SignalsPayload(top_new_signals: Option<seq<Blob>>)
  datatype NlpPayload = NlpPayload(insights: Option<seq<Blob>>)
  datatype AlertsPayload = AlertsPayload(alerts: Option<seq<Blob>>)

  /** The answers of one load; None is a request whose fetch failed (fetchJSON resolves to null). */
  datatype Fetched = Fetched(
    kpis: Option<Blob>,
    events: Option<EventsPayload>,
    heatmap: Option<Blob>,
    signals: Option<SignalsPayload>,
    nlp: Option<NlpPayload>,
    alerts: Option<AlertsPayload>)

  /** Failed: a body that is not JSON rejects the whole batch, which loadData swallows. */
  datatype LoadResult = Failed | Loaded(fetched: Fetched)

  /** `field || []`. */
  function ItemsOf<T>(field: Option<seq<T>>): seq<T>
  {
    match field
    case None => []
    case Some(xs) => xs
  }

  /** `if (x) setX(x)`: a failed request leaves the shown value as it was. */
  function KeepOr<T>(current: Option<T>, fetched: Option<T>): Option<T>
  {
    if fetched.Some? then fetched else current
  }

  /** The records shown, and cached for the rule engine, after a load. */
  function EventsAfterLoad(current: seq<EventRecord>, events: Option<EventsPayload>): seq<EventRecord>
  {
    match events
    case None => current
    case Some(p) => ItemsOf(p.items)
  }

  function NlpAfterLoad(current: seq<Blob>, nlp: Option<NlpPayload>): seq<Blob>
  {
    match nlp
    case None => current
    case Some(p) => ItemsOf(p.insights)
  }

  function AlertsAfterLoad(current: seq<Blob>, alerts: Option<AlertsPayload>): seq<Blob>
  {
    match alerts
    case None => current
    case Some(p) => ItemsOf(p.alerts)
  }

  /**
   * The signal list after a load, as written: with preserveSignals the shown
   * list itself stands in for the response, and an array has no
   * `top_new_signals` field, so the list is replaced by [].
   */
  function SignalsAfterLoadAsWritten(preserve: bool, current: seq<Blob>, signals: Option<SignalsPayload>): seq<Blob>
  {
    if preserve then []
    else
      match signals
      case None => current
      case Some(p) => ItemsOf(p.top_new_signals)
  }

  /** The signal list after a load, as intended: with preserveSignals it is kept. */
  function SignalsAfterLoad(preserve: bool, current: seq<Blob>, signals: Option<SignalsPayload>): seq<Blob>
  {
    if preserve then current
    else
      match signals
      case None => current
      case Some(p) => ItemsOf(p.top_new_signals)
  }

  /** As written, applying filters clears any non-empty signal list, whatever the server says. */
  lemma AsWrittenFiltersClearSignals(current: seq<Blob>, signals: Option<SignalsPayload>)
    requires current != []
    ensures SignalsAfterLoadAsWritten(true, current, signals) != current
  {
  }

  /** As intended, applying filters keeps the signal list, and a full load behaves as written. */
  lemma SignalsPreserved(current: seq<Blob>, signals: Option<SignalsPayload>)
    ensures SignalsAfterLoad(true, current, signals) == current
    ensures SignalsAfterLoad(false, current, signals) == SignalsAfterLoadAsWritten(false, current, signals)
  {
  }

  /** What the dashboard shows, and the records it caches for the rule engine. */
  datatype View = View(
    kpis: Option<Blob>,
    events: seq<EventRecord>,
    heatmap: Option<Blob>,
    signals: seq<Blob>,
    nlp: seq<Blob>,
    alerts: seq<Blob>,
    cache: seq<EventRecord>)

  /**
   * loadData(preserveSignals) as written: each answered request replaces what
   * it feeds, an unanswered one leaves it, and a batch that fails as a whole
   * changes nothing.
   */
  function AfterLoad(v: View, preserveSignals: bool, result: LoadResult): View
  {
    match result
    case Failed => v
    case Loaded(f) =>
      View(KeepOr(v.kpis, f.kpis), EventsAfterLoad(v.events, f.events), KeepOr(v.heatmap, f.heatmap),
        SignalsAfterLoadAsWritten(preserveSignals, v.signals, f.signals),
        NlpAfterLoad(v.nlp, f.nlp), AlertsAfterLoad(v.alerts, f.alerts), EventsAfterLoad(v.cache, f.events))
  }

  /**
   * After a load: a request that returned nothing leaves its data as it was,
   * an answered events request makes the table and the cache agree, and a
   * load that preserves signals leaves the signal list empty.
   */
  lemma AfterLoadFields(v: View, preserveSignals: bool, f: Fetched)
    ensures var r := AfterLoad(v, preserveSignals, Loaded(f));
      && (f.kpis.None? ==> r.kpis == v.kpis) && (f.kpis.Some? ==> r.kpis == f.kpis)
      && (f.heatmap.None? ==> r.heatmap == v.heatmap) && (f.heatmap.Some? ==> r.heatmap == f.heatmap)
      && (f.events.None? ==> r.events == v.events && r.cache == v.cache)
      && (f.events.Some? ==> r.events == r.cache == ItemsOf(f.events.value.items))
      && (f.nlp.None? ==> r.nlp == v.nlp)
      && (f.alerts.None? ==> r.alerts == v.alerts)
      && (!preserveSignals && f.signals.None? ==> r.signals == v.signals)
      && (preserveSignals ==> r.signals == [])
    ensures AfterLoad(v, preserveSignals, Failed) == v
  {
  }

  /** Loading twice with the same answers is loading once. */
  lemma AfterLoadIdempotent(v: View, preserveSignals: bool, result: LoadResult)
    ensures AfterLoad(AfterLoad(v, preserveSignals, result), preserveSignals, result) == AfterLoad(v, preserveSignals, result)
  {
  }

  /** The baseline step of start-up: store [] under the baseline key unless it already holds something. */
  function SeedBaseline(cells: map<string, Cell>, writable: bool): map<string, Cell>
  {
    if HasItem(cells, BaselineKey) then cells else Write(cells, writable, BaselineKey, Keys([]))
  }

  /**
   * Start-up never loses a baseline: a stored one is kept as it is, a missing one
   * becomes the empty set, and seeding twice is seeding once.
   */
  lemma SeedBaselineKeeps(cells: map<string, Cell>)
    ensures HasItem(cells, BaselineKey) ==> SeedBaseline(cells, true) == cells
    ensures !HasItem(cells, BaselineKey) ==> BaselineOf(SeedBaseline(cells, true), true) == {}
    ensures HasItem(SeedBaseline(cells, true), BaselineKey)
    ensures SeedBaseline(SeedBaseline(cells, true), true) == SeedBaseline(cells, true)
  {
  }

  /** The ledger entries of an upload: computeNewPairs' new pairs, each flagged as new from the upload. */
  function UploadLedger(pre: set<string>, post: seq<EventRecord>): (r: seq<LedgerEntry>)
    ensures |r| == |FreshPairs(pre, post)|
  {
    var found := FreshPairs(pre, post);
    seq(|found|, i requires 0 <= i < |found| => LedgerEntry(found[i].drug_name, found[i].adverse_event, true))
  }

  lemma UploadLedgerStep(pre: set<string>, events: seq<EventRecord>, i: nat)
    requires i < |events|
    ensures var e := events[i];
      UploadLedger(pre, events[..i + 1]) == UploadLedger(pre, events[..i])
      + (if HasNames(e) && KeyOf(e) !in pre then [LedgerEntry(e.drug_name, e.adverse_event, true)] else [])
  {
    assert events[..i + 1][..i] == events[..i];
    assert FreshPairs(pre, events[..i + 1]) == FreshPairs(pre, events[..i]) + FreshOne(pre, events[i]);
  }

  /** The pre-upload loop: the keys of the cached records. */
  method CapturePairs(events: seq<EventRecord>) returns (preUploadPairs: set<string>)
    ensures preUploadPairs == KeySet(events)
  {
    preUploadPairs := {};
    for i := 0 to |events|
      invariant preUploadPairs == KeySet(events[..i])
    {
      var event := events[i];
      assert events[..i + 1][..i] == events[..i];
      if event.drug_name != "" && event.adverse_event != "" {
        preUploadPairs := preUploadPairs + {PairKey(event.drug_name, event.adverse_event)};
      }
    }
    assert events[..|events|] == events;
  }

  /**
   * The post-upload loop: every key of the reloaded records goes into the new
   * baseline (first-seen order), and every record whose key was not there
   * before the upload adds one ledger entry with its raw names.
   */
  method UploadDiff(preUploadPairs: set<string>, postUploadEvents: seq<EventRecord>)
    returns (postUploadPairs: seq<string>, newSignalPairs: seq<LedgerEntry>)
    ensures postUploadPairs == KeyOrder(postUploadEvents)
    ensures newSignalPairs == UploadLedger(preUploadPairs, postUploadEvents)
  {
    postUploadPairs, newSignalPairs := [], [];
    for i := 0 to |postUploadEvents|
      invariant postUploadPairs == KeyOrder(postUploadEvents[..i])
      invariant newSignalPairs == UploadLedger(preUploadPairs, postUploadEvents[..i])
    {
      assert postUploadEvents[..i + 1][..i] == postUploadEvents[..i];
      UploadLedgerStep(preUploadPairs, postUploadEvents, i);
      var event := postUploadEvents[i];
      if event.drug_name != "" && event.adverse_event != "" {
        var pairKey := PairKey(event.drug_name, event.adverse_event);
        if pairKey !in postUploadPairs {
          postUploadPairs := postUploadPairs + [pairKey];
        }
        if pairKey !in preUploadPairs {
          newSignalPairs := newSignalPairs + [LedgerEntry(event.drug_name, event.adverse_event, true)];
        }
      }
    }
    assert postUploadEvents[..|postUploadEvents|] == postUploadEvents;
  }

  /**
   * Every ledger entry is flagged as new from the upload, names a pair whose
   * key was unknown before the upload and is present after it; the ledger is
   * empty exactly when the upload brought no unknown key.
   */
  lemma UploadLedgerSound(pre: set<string>, post: seq<EventRecord>)
    ensures forall i :: 0 <= i < |UploadLedger(pre, post)| ==>
      var p := UploadLedger(pre, post)[i];
      p.isNewFromUpload && PairKey(p.drug_name, p.adverse_event) !in pre
      && PairKey(p.drug_name, p.adverse_event) in KeySet(post)
    ensures UploadLedger(pre, post) == [] <==> KeySet(post) <= pre
  {
    FreshPairsAreNew(pre, post);
    FreshPairsEmptyIff(pre, post);
    var found := FreshPairs(pre, post);
    forall i | 0 <= i < |found|
      ensures PairKey(UploadLedger(pre, post)[i].drug_name, UploadLedger(pre, post)[i].adverse_event) == NameKey(found[i])
    {
    }
  }

  /** The ledger keeps one entry per record, not per pair: three reports of one new pair give three entries. */
  lemma LedgerKeepsDuplicates(pre: set<string>, e: EventRecord)
    requires HasNames(e) && KeyOf(e) !in pre
    ensures |UploadLedger(pre, [e, e, e])| == 3
  {
    var es := [e, e, e];
    var one := FreshOne(pre, e);
    assert one == [PairName(e.drug_name, e.adverse_event)];
    assert es[..2] == [e, e];
    assert es[..2][..1] == [e];
    assert es[..2][..1][..0] == [];
    assert FreshPairs(pre, [e]) == one;
    assert FreshPairs(pre, [e, e]) == one + one;
    assert FreshPairs(pre, es) == one + one + one;
  }

  /** The message of a failed upload: the server's detail, or "Upload failed" when it gives none. */
  function FailureMessage(detail: string): (r: string)
    ensures r != ""
    ensures detail != "" ==> r == detail
  {
    if detail == "" then "Upload failed" else detail
  }

  /** What the server answers to an upload. */
  datatype UploadResponse = Accepted(rows: int) | Rejected(detail: string)

  /**
   * The notification banner. KeyCallFailed is the message of the TypeError
   * that `api.buildPairKey(...)` throws.
   */
  datatype Notice = UploadComplete(rows: int) | NewSignals(count: nat) | UploadFailed(message: string) | KeyCallFailed

  /** The writes that end a successful upload, in order: count, ledger, baseline. */
  function PersistUpload(cells: map<string, Cell>, writable: bool, ledger: seq<LedgerEntry>, keys: seq<string>): map<string, Cell>
  {
    Write(Write(Write(cells, writable, CountKey, Count(|ledger|)), writable, PairsKey, Ledger(ledger)), writable, BaselineKey, Keys(keys))
  }

  /**
   * After an upload persisted in a working store, the store reads back the new
   * count, the ledger, and the new keys as baseline; the alert settings are
   * untouched.
   */
  lemma PersistUploadReadBack(cells: map<string, Cell>, ledger: seq<LedgerEntry>, keys: seq<string>)
    ensures var after := PersistUpload(cells, true, ledger, keys);
      && NewSignalsCountOf(after, true) == |ledger|
      && NewSignalPairsOf(after, true) == ledger
      && (forall k :: k in BaselineOf(after, true) <==> k in keys)
      && AlertSettingsOf(after, true) == AlertSettingsOf(cells, true)
  {
    var c1 := Write(cells, true, CountKey, Count(|ledger|));
    var c2 := Write(c1, true, PairsKey, Ledger(ledger));
    var c3 := Write(c2, true, BaselineKey, Keys(keys));
    assert c3[CountKey] == Json(Count(|ledger|));
    assert c3[PairsKey] == Json(Ledger(ledger));
    assert c3[BaselineKey] == Json(Keys(keys));
    KeysDiffer();
    SettersAreIndependent(cells, true, true, CountKey, Count(|ledger|));
    SettersAreIndependent(c1, true, true, PairsKey, Ledger(ledger));
    SettersAreIndependent(c2, true, true, BaselineKey, Keys(keys));
  }

  /** The stored baseline after an upload is the key set of the reloaded records, so the same data uploaded again reports nothing new. */
  lemma SecondUploadIsQuiet(cells: map<string, Cell>, pre: set<string>, post: seq<EventRecord>)
    ensures var after := PersistUpload(cells, true, UploadLedger(pre, post), KeyOrder(post));
      BaselineOf(after, true) == KeySet(post) && UploadLedger(BaselineOf(after, true), post) == []
  {
    var after := PersistUpload(cells, true, UploadLedger(pre, post), KeyOrder(post));
    PersistUploadReadBack(cells, UploadLedger(pre, post), KeyOrder(post));
    assert BaselineOf(after, true) == KeySet(post);
    FreshPairsEmptyIff(KeySet(post), post);
  }

  /** The dashboard's state: the displayed data, the cached records and the notification. */
  /**
   * When no reloaded record has both names, the upload as written stores what
   * the intended upload would: no ledger entry and an empty baseline.
   */
  lemma UploadAsWrittenMatchesIntended(cells: map<string, Cell>, writable: bool, pre: seq<EventRecord>, post: seq<EventRecord>)
    requires !KeyCallThrows(post)
    ensures UploadLedger(KeySet(pre), post) == []
    ensures PersistUpload(cells, writable, UploadLedger(KeySet(pre), post), KeyOrder(post)) == PersistUpload(cells, writable, [], [])
  {
    NoKeyCallNoKeys(KeySet(pre), post);
  }

  /**
   * One cached report of a pair stops the upload as written before it starts,
   * while the intended diff against an empty cache would ledger that pair.
   */
  lemma KeyCallBlocksUpload()
    ensures var e := EventRecord("Aspirin", "Nausea", None, "", Missing);
      KeyCallThrows([e])
      && UploadLedger(KeySet([]), [e]) == [LedgerEntry("Aspirin", "Nausea", true)]
  {
    var e := EventRecord("Aspirin", "Nausea", None, "", Missing);
    assert HasNames([e][0]);
    assert [e][..0] == [];
    assert FreshPairs({}, [e]) == [PairName("Aspirin", "Nausea")];
  }

  class App {
    const store: Store
    var latestEvents: seq<EventRecord>   // window.__latestEvents
    var kpiData: Option<Blob>
    var eventsData: seq<EventRecord>
    var heatmapData: Option<Blob>
    var signalsData: seq<Blob>
    var nlpData: seq<Blob>
    var alertsData: seq<Blob>
    var notification: Option<Notice>

    constructor (store: Store)
      ensures this.store == store
      ensures latestEvents == [] && eventsData == [] && signalsData == [] && nlpData == [] && alertsData == []
      ensures kpiData == None && heatmapData == None && notification == None
    {
      this.store := store;
      latestEvents, eventsData, signalsData, nlpData, alertsData := [], [], [], [], [];
      kpiData, heatmapData, notification := None, None, None;
    }

    /** The shown data and the cached records. */
    function Shown(): View
      reads this
    {
      View(kpiData, eventsData, heatmapData, signalsData, nlpData, alertsData, latestEvents)
    }

    /** loadData: the view becomes AfterLoad of the old view; the stores are never written. */
    method LoadData(preserveSignals: bool, result: LoadResult)
      modifies this
      ensures Shown() == AfterLoad(old(Shown()), preserveSignals, result)
      ensures notification == old(notification)
    {
      if result.Loaded? {
        var f := result.fetched;
        kpiData := KeepOr(kpiData, f.kpis);
        eventsData := EventsAfterLoad(eventsData, f.events);
        heatmapData := KeepOr(heatmapData, f.heatmap);
        signalsData := SignalsAfterLoadAsWritten(preserveSignals, signalsData, f.signals);
        nlpData := NlpAfterLoad(nlpData, f.nlp);
        alertsData := AlertsAfterLoad(alertsData, f.alerts);
        latestEvents := EventsAfterLoad(latestEvents, f.events);
      }
    }

    /** Start-up: seed the baseline if the key holds nothing, then load; an unreadable store aborts before both. */
    method Init(result: LoadResult)
      modifies this, store
      ensures store.cells == if old(store.readable) then SeedBaseline(old(store.cells), old(store.writable)) else old(store.cells)
      ensures store.readable == old(store.readable) && store.writable == old(store.writable)
      ensures old(store.readable) ==> Shown() == AfterLoad(old(Shown()), false, result)
      ensures !old(store.readable) ==> Shown() == old(Shown())
      ensures notification == old(notification)
    {
      if !store.readable {
        return;
      }
      if !HasItem(store.cells, BaselineKey) {
        store.SetBaselinePairs([]);
      }
      LoadData(false, result);
    }

    /**
     * Applying filters is loadData(true): everything reloads but the signal
     * list, which, as written, a successful batch empties.
     */
    method ApplyFilters(result: LoadResult)
      modifies this
      ensures Shown() == AfterLoad(old(Shown()), true, result)
      ensures result.Loaded? ==> signalsData == []
      ensures result.Failed? ==> signalsData == old(signalsData)
      ensures notification == old(notification)
    {
      LoadData(true, result);
    }

    /**
     * handleCSVUpload as written. Without a file nothing happens. The pre-upload
     * loop calls the missing `api.buildPairKey` and throws at the first cached
     * record with both names, before the upload. A rejected upload only sets the
     * failure notification. An accepted one announces the row count and
     * reloads; the post-upload loop then throws at the first reloaded record
     * with both names, so nothing is stored. Only when no reloaded record has
     * both names does it store a count of 0, an empty ledger and an empty
     * baseline.
     */
    method HandleCsvUpload(file: Option<Blob>, response: UploadResponse, reload: LoadResult)
      modifies this, store
      ensures store.readable == old(store.readable) && store.writable == old(store.writable)
      ensures file.None? ==> store.cells == old(store.cells) && notification == old(notification) && Shown() == old(Shown())
      ensures file.Some? && KeyCallThrows(old(latestEvents)) ==>
        store.cells == old(store.cells) && Shown() == old(Shown()) && notification == Some(KeyCallFailed)
      ensures file.Some? && !KeyCallThrows(old(latestEvents)) && response.Rejected? ==>
        store.cells == old(store.cells) && Shown() == old(Shown())
        && notification == Some(UploadFailed(FailureMessage(response.detail)))
      ensures file.Some? && !KeyCallThrows(old(latestEvents)) && response.Accepted? ==>
        var shown := AfterLoad(old(Shown()), false, reload);
        && Shown() == shown
        && (KeyCallThrows(shown.cache) ==> store.cells == old(store.cells) && notification == Some(KeyCallFailed))
        && (!KeyCallThrows(shown.cache) ==>
              store.cells == PersistUpload(old(store.cells), old(store.writable), [], [])
              && notification == Some(UploadComplete(response.rows)))
    {
      if file.None? {
        return;
      }
      var threw := KeyLoopAsWritten(latestEvents);
      if threw {
        notification := Some(KeyCallFailed);
        return;
      }
      // No cached record has both names: preUploadPairs stays empty.
      if response.Rejected? {
        notification := Some(UploadFailed(FailureMessage(response.detail)));
        return;
      }
      notification := Some(UploadComplete(response.rows));
      LoadData(false, reload);
      threw := KeyLoopAsWritten(latestEvents);
      if threw {
        notification := Some(KeyCallFailed);
        return;
      }
      // No reloaded record has both names: postUploadPairs and newSignalPairs stay empty.
      store.SetNewSignalsCount(0);
      store.SetNewSignalPairs([]);
      store.SetBaselinePairs([]);
    }
  }
}
