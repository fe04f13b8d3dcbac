/**
 * The first half of computeClientSideAlerts (src/components/Alerts.js):
 * aggregating the cached records into one entry per pair (count, max score)
 * and picking the pairs that are not in the stored baseline.
 */
module PairStats {
  import opened Common
  import opened JsString
  import opened Records
  import opened Api

  /** An entry of the pairDetails Map. */
  datatype PairDetail = PairDetail(drug_name: string, adverse_event: string, count: nat, maxScore: real)

  /** Both names present, and still non-empty once trimmed. */
  predicate Aggregable(e: EventRecord)
  {
    HasNames(e) && Trim(e.drug_name) != "" && Trim(e.adverse_event) != ""
  }

  /** The key of the trimmed names. */
  function DetailKey(e: EventRecord): string
  {
    PairKey(Trim(e.drug_name), Trim(e.adverse_event))
  }

  /** Number(event.signal_score || 0). */
  function ScoreOf(e: EventRecord): real
  {
    match e.signal_score
    case None => 0.0
    case Some(x) => x
  }

  function DetailName(p: PairDetail): string
  {
    PairKey(p.drug_name, p.adverse_event)
  }

  predicate Matches(e: EventRecord, k: string)
  {
    Aggregable(e) && DetailKey(e) == k
  }

  /** The number of aggregable records with key k. */
  function CaseCount(events: seq<EventRecord>, k: string): nat
  {
    if events == [] then 0
    else
      var n := |events| - 1;
      CaseCount(events[..n], k) + (if Matches(events[n], k) then 1 else 0)
  }

  /** The largest score among the records with key k, starting from 0. */
  function MaxScore(events: seq<EventRecord>, k: string): (r: real)
    ensures CaseCount(events, k) == 0 ==> r == 0.0
  {
    if events == [] then 0.0
    else
      var n := |events| - 1;
      if Matches(events[n], k) then Max(MaxScore(events[..n], k), ScoreOf(events[n]))
      else MaxScore(events[..n], k)
  }

  /** The first record with key k. */
  function FirstMatch(events: seq<EventRecord>, k: string): (r: EventRecord)
    requires CaseCount(events, k) > 0
    ensures Matches(r, k)
  {
    var n := |events| - 1;
    if CaseCount(events[..n], k) > 0 then FirstMatch(events[..n], k) else events[n]
  }

  /** The keys of the aggregable records, each once, in first-seen order (currentPairs). */
  function DetailOrder(events: seq<EventRecord>): (r: seq<string>)
    ensures Distinct(r)
    ensures forall k :: k in r <==> CaseCount(events, k) > 0
  {
    if events == [] then []
    else
      var n := |events| - 1;
      var r := DetailOrder(events[..n]);
      if Aggregable(events[n]) && DetailKey(events[n]) !in r then r + [DetailKey(events[n])] else r
  }

  function DetailAt(events: seq<EventRecord>, k: string): PairDetail
    requires CaseCount(events, k) > 0
  {
    var f := FirstMatch(events, k);
    PairDetail(Trim(f.drug_name), Trim(f.adverse_event), CaseCount(events, k), MaxScore(events, k))
  }

  /**
   * pairDetails after the records so far: each aggregable record creates the
   * detail of its key from its own trimmed names on first sight, then counts
   * itself and raises the maximum score.
   */
  function DetailsOf(events: seq<EventRecord>): map<string, PairDetail>
  {
    if events == [] then map[]
    else
      var n := |events| - 1;
      var d := DetailsOf(events[..n]);
      if Aggregable(events[n]) then Bump(d, events[n]) else d
  }

  /** One aggregable record's effect on pairDetails. */
  function Bump(details: map<string, PairDetail>, e: EventRecord): map<string, PairDetail>
    requires Aggregable(e)
  {
    var k := DetailKey(e);
    var d := if k in details then details[k] else PairDetail(Trim(e.drug_name), Trim(e.adverse_event), 0, 0.0);
    details[k := d.(count := d.count + 1, maxScore := Max(d.maxScore, ScoreOf(e)))]
  }

  /**
   * What the aggregation computes: one detail per key seen, holding the trimmed
   * names of the key's first record, its number of records and its largest score.
   */
  lemma {:induction false} DetailsOfSpec(events: seq<EventRecord>)
    ensures forall k :: k in DetailsOf(events) <==> k in DetailOrder(events)
    ensures forall k :: k in DetailsOf(events) ==> DetailsOf(events)[k] == DetailAt(events, k)
  {
    if events != [] {
      var n := |events| - 1;
      var init, e := events[..n], events[n];
      DetailsOfSpec(init);
      assert events == init + [e];
      forall k
        ensures k in DetailsOf(events) <==> k in DetailOrder(events)
        ensures k in DetailsOf(events) ==> DetailsOf(events)[k] == DetailAt(events, k)
      {
        DetailStep(init, e, k);
      }
    }
  }

  /**
   * The aggregation loop: for every record whose names survive trimming, add its
   * key to currentPairs, create its detail on first sight, then count it and
   * raise its maximum score.
   */
  method AggregatePairs(events: seq<EventRecord>) returns (currentPairs: seq<string>, pairDetails: map<string, PairDetail>)
    ensures currentPairs == DetailOrder(events)
    ensures pairDetails == DetailsOf(events)
  {
    currentPairs, pairDetails := [], map[];
    for i := 0 to |events|
      invariant currentPairs == DetailOrder(events[..i])
      invariant pairDetails == DetailsOf(events[..i])
    {
      assert events[..i + 1][..i] == events[..i];
      currentPairs, pairDetails := AddRecord(currentPairs, pairDetails, events[i]);
    }
    assert events[..|events|] == events;
  }

  /** The loop body of the aggregation: one record joins currentPairs and pairDetails. */
  method AddRecord(currentPairs: seq<string>, pairDetails: map<string, PairDetail>, e: EventRecord)
    returns (pairs: seq<string>, details: map<string, PairDetail>)
    ensures pairs == currentPairs + (if Aggregable(e) && DetailKey(e) !in currentPairs then [DetailKey(e)] else [])
    ensures details == if Aggregable(e) then Bump(pairDetails, e) else pairDetails
  {
    pairs, details := currentPairs, pairDetails;
    if e.drug_name != "" && e.adverse_event != "" {
      var drugName := Trim(e.drug_name);
      var adverseEvent := Trim(e.adverse_event);
      if drugName != "" && adverseEvent != "" {
        var pairKey := PairKey(drugName, adverseEvent);
        if pairKey !in pairs {
          pairs := pairs + [pairKey];
        }
        if pairKey !in details {
          details := details[pairKey := PairDetail(drugName, adverseEvent, 0, 0.0)];
        }
        var detail := details[pairKey];
        assert details == pairDetails[pairKey := detail];
        details := details[pairKey := detail.(count := detail.count + 1, maxScore := Max(detail.maxScore, ScoreOf(e)))];
        UpdateTwice(pairDetails, pairKey, detail, details[pairKey]);
      }
    } else {
      assert Trim(e.drug_name) == "" || Trim(e.adverse_event) == "";
    }
  }

  lemma UpdateTwice<K, V>(m: map<K, V>, k: K, a: V, b: V)
    ensures m[k := a][k := b] == m[k := b]
  {
  }

  /** How one more record changes the aggregation. */
  lemma DetailStep(seen: seq<EventRecord>, e: EventRecord, k: string)
    ensures DetailOrder(seen + [e]) == DetailOrder(seen) + (if Aggregable(e) && DetailKey(e) !in DetailOrder(seen) then [DetailKey(e)] else [])
    ensures !Matches(e, k) && CaseCount(seen, k) > 0 ==>
      CaseCount(seen + [e], k) > 0 && DetailAt(seen + [e], k) == DetailAt(seen, k)
    ensures Matches(e, k) && CaseCount(seen, k) > 0 ==>
      DetailAt(seen + [e], k) == DetailAt(seen, k).(count := DetailAt(seen, k).count + 1,
        maxScore := Max(DetailAt(seen, k).maxScore, ScoreOf(e)))
    ensures Matches(e, k) && CaseCount(seen, k) == 0 ==>
      DetailAt(seen + [e], k) == PairDetail(Trim(e.drug_name), Trim(e.adverse_event), 1, Max(0.0, ScoreOf(e)))
  {
    assert (seen + [e])[..|seen|] == seen;
  }

  /** The aggregation key equals the key of the untrimmed names, so both loops of the rule engine agree on identity. */
  lemma DetailKeyIsRawKey(e: EventRecord)
    ensures DetailKey(e) == KeyOf(e)
  {
    CanonOfTrim(e.drug_name);
    CanonOfTrim(e.adverse_event);
  }

  lemma CanonOfTrim(s: string)
    ensures Canon(Trim(s)) == Canon(s)
  {
    LowerTrimCommute(s);
    TrimIdempotent(Lower(s));
  }

  /** maxScore is at least 0 and at least the score of every record of the pair. */
  lemma {:induction false} MaxScoreIsUpperBound(events: seq<EventRecord>, k: string)
    ensures MaxScore(events, k) >= 0.0
    ensures forall i :: 0 <= i < |events| && Matches(events[i], k) ==> MaxScore(events, k) >= ScoreOf(events[i])
  {
    if events != [] {
      var n := |events| - 1;
      var init := events[..n];
      MaxScoreIsUpperBound(init, k);
      assert forall i :: 0 <= i < n ==> events[i] == init[i];
    }
  }

  /** maxScore is 0 or the score of one of the pair's records. */
  lemma {:induction false} MaxScoreIsAttained(events: seq<EventRecord>, k: string)
    ensures MaxScore(events, k) == 0.0
      || exists i :: 0 <= i < |events| && Matches(events[i], k) && MaxScore(events, k) == ScoreOf(events[i])
  {
    if events != [] {
      var n := |events| - 1;
      var init := events[..n];
      MaxScoreIsAttained(init, k);
      var m := MaxScore(events, k);
      if Matches(events[n], k) && m == ScoreOf(events[n]) {
        assert Matches(events[n], k) && m == ScoreOf(events[n]);
      } else if m != 0.0 {
        assert m == MaxScore(init, k);
        var i :| 0 <= i < n && Matches(init[i], k) && MaxScore(init, k) == ScoreOf(init[i]);
        assert events[i] == init[i];
      }
    }
  }

  /** The names of a detail come from the first record of its pair. */
  lemma {:induction false} FirstMatchIsFirst(events: seq<EventRecord>, k: string) returns (i: nat)
    requires CaseCount(events, k) > 0
    ensures i < |events| && events[i] == FirstMatch(events, k)
    ensures forall j :: 0 <= j < i ==> !Matches(events[j], k)
  {
    var n := |events| - 1;
    if CaseCount(events[..n], k) > 0 {
      i := FirstMatchIsFirst(events[..n], k);
      assert events[i] == events[..n][i];
      forall j | 0 <= j < i ensures !Matches(events[j], k) {
        assert events[j] == events[..n][j];
      }
    } else {
      i := n;
      NoMatchBefore(events[..n], k);
      forall j | 0 <= j < n ensures !Matches(events[j], k) {
        assert events[j] == events[..n][j];
      }
    }
  }

  lemma {:induction false} NoMatchBefore(events: seq<EventRecord>, k: string)
    requires CaseCount(events, k) == 0
    ensures forall j :: 0 <= j < |events| ==> !Matches(events[j], k)
  {
    if events != [] {
      var n := |events| - 1;
      NoMatchBefore(events[..n], k);
      forall j | 0 <= j < n ensures !Matches(events[j], k) {
        assert events[j] == events[..n][j];
      }
    }
  }

  /** Every detail is stored under the key of its own names. */
  lemma DetailsAreKeyed(events: seq<EventRecord>)
    ensures forall k :: k in DetailsOf(events) ==> DetailName(DetailsOf(events)[k]) == k
    ensures forall k :: k in DetailsOf(events) ==> DetailsOf(events)[k].count >= 1
  {
    DetailsOfSpec(events);
  }

  /** Two reports of one pair scored 0.3 and 0.9 aggregate to one pair with count 2 and score 0.9. */
  lemma AggregationExample()
    ensures var events := [
        EventRecord("Drug", "EventA", Some(0.3), "", Missing),
        EventRecord("Drug", "EventA", Some(0.9), "", Missing)];
      var k := PairKey("Drug", "EventA");
      k in DetailsOf(events) && DetailsOf(events)[k] == PairDetail("Drug", "EventA", 2, 0.9)
  {
    var e1 := EventRecord("Drug", "EventA", Some(0.3), "", Missing);
    var e2 := EventRecord("Drug", "EventA", Some(0.9), "", Missing);
    var events := [e1, e2];
    assert Trim("Drug") == "Drug";
    assert Trim("EventA") == "EventA";
    var k := PairKey("Drug", "EventA");
    assert [e1, e2][..1] == [e1];
    assert [e1][..0] == [];
    assert CaseCount([e1], k) == 1;
    assert CaseCount(events, k) == 2;
    assert k in DetailOrder(events);
  }

  /** The pairs whose key is not in the baseline, in currentPairs order, never sorted. */
  function NewPairDetails(order: seq<string>, details: map<string, PairDetail>, baseline: set<string>): seq<PairDetail>
  {
    if order == [] then []
    else
      var n := |order| - 1;
      var k := order[n];
      NewPairDetails(order[..n], details, baseline) + (if k !in baseline && k in details then [details[k]] else [])
  }

  /** `currentPairs.forEach`: push the detail of every key missing from the baseline. */
  method CollectNewPairs(currentPairs: seq<string>, pairDetails: map<string, PairDetail>, baselinePairs: set<string>)
    returns (newPairs: seq<PairDetail>)
    ensures newPairs == NewPairDetails(currentPairs, pairDetails, baselinePairs)
  {
    newPairs := [];
    for i := 0 to |currentPairs|
      invariant newPairs == NewPairDetails(currentPairs[..i], pairDetails, baselinePairs)
    {
      assert currentPairs[..i + 1][..i] == currentPairs[..i];
      var pairKey := currentPairs[i];
      if pairKey !in baselinePairs {
        if pairKey in pairDetails {
          newPairs := newPairs + [pairDetails[pairKey]];
        }
      }
    }
    assert currentPairs[..|currentPairs|] == currentPairs;
  }

  /** The keys whose details make up the new pairs. */
  function NewKeys(order: seq<string>, details: map<string, PairDetail>, baseline: set<string>): seq<string>
  {
    if order == [] then []
    else
      var n := |order| - 1;
      var k := order[n];
      NewKeys(order[..n], details, baseline) + (if k !in baseline && k in details then [k] else [])
  }

  lemma {:induction false} NewPairDetailsByKey(order: seq<string>, details: map<string, PairDetail>, baseline: set<string>)
    ensures |NewPairDetails(order, details, baseline)| == |NewKeys(order, details, baseline)|
    ensures forall i :: 0 <= i < |NewKeys(order, details, baseline)| ==>
      NewKeys(order, details, baseline)[i] in details
      && NewPairDetails(order, details, baseline)[i] == details[NewKeys(order, details, baseline)[i]]
  {
    if order != [] {
      NewPairDetailsByKey(order[..|order| - 1], details, baseline);
    }
  }

  lemma {:induction false} NewKeysProps(order: seq<string>, details: map<string, PairDetail>, baseline: set<string>)
    requires Distinct(order)
    ensures forall k :: k in NewKeys(order, details, baseline) <==> k in order && k !in baseline && k in details
    ensures Distinct(NewKeys(order, details, baseline))
  {
    if order != [] {
      var n := |order| - 1;
      assert order == order[..n] + [order[n]];
      NewKeysProps(order[..n], details, baseline);
    }
  }

  /**
   * New pairs of the rule engine: each key of the batch that is not in the
   * baseline appears exactly once, every entry is the aggregated detail of a
   * key outside the baseline, and the list is empty exactly when every
   * current key is in the baseline.
   */
  lemma NewPairsExactlyOnce(events: seq<EventRecord>, baseline: set<string>)
    ensures var details := DetailsOf(events);
      var np := NewPairDetails(DetailOrder(events), details, baseline);
      && (forall i :: 0 <= i < |np| ==>
            DetailName(np[i]) in details && DetailName(np[i]) !in baseline && np[i] == details[DetailName(np[i])])
      && (forall i, j :: 0 <= i < j < |np| ==> DetailName(np[i]) != DetailName(np[j]))
      && (forall k :: k in details && k !in baseline ==> exists i :: 0 <= i < |np| && DetailName(np[i]) == k)
      && (np == [] <==> details.Keys <= baseline)
  {
    DetailsAreKeyed(events);
    DetailsOfSpec(events);
    NewPairsOfKeyed(DetailOrder(events), DetailsOf(events), baseline);
  }

  /** The same, for any key order without repeats over the keys of details filed under their own names. */
  lemma NewPairsOfKeyed(order: seq<string>, details: map<string, PairDetail>, baseline: set<string>)
    requires Distinct(order)
    requires forall k :: k in details <==> k in order
    requires forall k :: k in details ==> DetailName(details[k]) == k
    ensures var np := NewPairDetails(order, details, baseline);
      && (forall i :: 0 <= i < |np| ==>
            DetailName(np[i]) in details && DetailName(np[i]) !in baseline && np[i] == details[DetailName(np[i])])
      && (forall i, j :: 0 <= i < j < |np| ==> DetailName(np[i]) != DetailName(np[j]))
      && (forall k :: k in details && k !in baseline ==> exists i :: 0 <= i < |np| && DetailName(np[i]) == k)
      && (np == [] <==> details.Keys <= baseline)
  {
    var np := NewPairDetails(order, details, baseline);
    var nk := NewKeys(order, details, baseline);
    NewPairDetailsByKey(order, details, baseline);
    NewKeysProps(order, details, baseline);
    forall i | 0 <= i < |np| ensures DetailName(np[i]) == nk[i] && nk[i] in nk {
    }
    forall k | k in details && k !in baseline
      ensures exists i :: 0 <= i < |np| && DetailName(np[i]) == k
    {
      var i :| 0 <= i < |nk| && nk[i] == k;
      assert DetailName(np[i]) == k;
    }
    if np == [] {
      assert details.Keys <= baseline;
    } else {
      assert nk[0] in nk;
    }
  }

  lemma TwoPairsOrder(e1: EventRecord, e2: EventRecord)
    requires Aggregable(e1) && Aggregable(e2) && DetailKey(e1) != DetailKey(e2)
    ensures DetailOrder([e1, e2]) == [DetailKey(e1), DetailKey(e2)]
  {
    OrderSnoc([], e1);
    OrderSnoc([e1], e2);
    assert [] + [e1] == [e1] && [e1] + [e2] == [e1, e2];
  }

  lemma OrderSnoc(seen: seq<EventRecord>, e: EventRecord)
    ensures DetailOrder(seen + [e]) == DetailOrder(seen) + (if Aggregable(e) && DetailKey(e) !in DetailOrder(seen) then [DetailKey(e)] else [])
  {
    assert (seen + [e])[..|seen|] == seen;
  }

  lemma TwoPairsScores(e1: EventRecord, e2: EventRecord)
    requires Aggregable(e1) && Aggregable(e2) && DetailKey(e1) != DetailKey(e2)
    ensures MaxScore([e1, e2], DetailKey(e1)) == Max(0.0, ScoreOf(e1))
    ensures MaxScore([e1, e2], DetailKey(e2)) == Max(0.0, ScoreOf(e2))
  {
    var k1, k2 := DetailKey(e1), DetailKey(e2);
    assert [e1, e2][..1] == [e1];
    assert [e1][..0] == [];
    assert !Matches(e2, k1) && Matches(e2, k2);
    assert !Matches(e1, k2) && Matches(e1, k1);
    assert MaxScore([e1], k2) == 0.0;
  }

  lemma NewPairsOfTwo(k1: string, k2: string, details: map<string, PairDetail>)
    requires k1 in details && k2 in details
    ensures NewPairDetails([k1, k2], details, {}) == [details[k1], details[k2]]
  {
    var order := [k1, k2];
    assert order[..1] == [k1];
    assert order[..1][..0] == [];
    assert NewPairDetails([k1], details, {}) == [details[k1]];
  }

  /**
   * New pairs are listed in first-seen order, not ordered by score: whatever the
   * scores of two different pairs, the one reported first comes first.
   */
  lemma NewPairsKeepFirstSeenOrder(e1: EventRecord, e2: EventRecord)
    requires Aggregable(e1) && Aggregable(e2) && DetailKey(e1) != DetailKey(e2)
    ensures var np := NewPairDetails(DetailOrder([e1, e2]), DetailsOf([e1, e2]), {});
      && |np| == 2
      && DetailName(np[0]) == DetailKey(e1) && np[0].maxScore == Max(0.0, ScoreOf(e1))
      && DetailName(np[1]) == DetailKey(e2) && np[1].maxScore == Max(0.0, ScoreOf(e2))
  {
    var events := [e1, e2];
    var k1, k2 := DetailKey(e1), DetailKey(e2);
    TwoPairsOrder(e1, e2);
    TwoPairsScores(e1, e2);
    DetailsAreKeyed(events);
    DetailsOfSpec(events);
    var details := DetailsOf(events);
    assert k1 in details && k2 in details;
    NewPairsOfTwo(k1, k2, details);
  }

  /** The key order of a prefix of the records is a prefix of the key order: keys are listed as first seen. */
  lemma {:induction false} DetailOrderPrefix(events: seq<EventRecord>, m: nat)
    requires m <= |events|
    ensures DetailOrder(events[..m]) <= DetailOrder(events)
  {
    if m < |events| {
      var n := |events| - 1;
      assert events[..n][..m] == events[..m];
      DetailOrderPrefix(events[..n], m);
    } else {
      assert events[..m] == events;
    }
  }

  lemma {:induction false} NewKeysPrefix(o1: seq<string>, o2: seq<string>, details: map<string, PairDetail>, baseline: set<string>)
    requires o1 <= o2
    ensures NewKeys(o1, details, baseline) <= NewKeys(o2, details, baseline)
  {
    if |o1| < |o2| {
      var n := |o2| - 1;
      assert o1 <= o2[..n];
      NewKeysPrefix(o1, o2[..n], details, baseline);
    } else {
      assert o1 == o2;
    }
  }

  lemma {:induction false} NewKeysSameKeys(order: seq<string>, d1: map<string, PairDetail>, d2: map<string, PairDetail>, baseline: set<string>)
    requires forall k :: k in order ==> (k in d1 <==> k in d2)
    ensures NewKeys(order, d1, baseline) == NewKeys(order, d2, baseline)
  {
    if order != [] {
      var n := |order| - 1;
      assert forall k :: k in order[..n] ==> k in order;
      NewKeysSameKeys(order[..n], d1, d2, baseline);
    }
  }

  /**
   * New pairs come out in first-seen order, whatever their scores: the new
   * pairs of the first m records are, name by name, the start of the new
   * pairs of all records, so a pair first reported earlier is listed before
   * every pair first reported later.
   */
  lemma NewPairsFollowFirstSeen(events: seq<EventRecord>, baseline: set<string>, m: nat)
    requires m <= |events|
    ensures var early := NewPairDetails(DetailOrder(events[..m]), DetailsOf(events[..m]), baseline);
      var all := NewPairDetails(DetailOrder(events), DetailsOf(events), baseline);
      |early| <= |all| && forall i :: 0 <= i < |early| ==> DetailName(early[i]) == DetailName(all[i])
  {
    var o1, d1 := DetailOrder(events[..m]), DetailsOf(events[..m]);
    var o2, d2 := DetailOrder(events), DetailsOf(events);
    DetailOrderPrefix(events, m);
    DetailsOfSpec(events[..m]);
    DetailsOfSpec(events);
    DetailsAreKeyed(events[..m]);
    DetailsAreKeyed(events);
    assert forall k :: k in o1 ==> k in o2;
    NewKeysSameKeys(o1, d1, d2, baseline);
    NewKeysPrefix(o1, o2, d2, baseline);
    NewPairDetailsByKey(o1, d1, baseline);
    NewPairDetailsByKey(o2, d2, baseline);
  }
  /** Without a record that has both names, the aggregation finds no pair at all. */
  lemma {:induction false} NoKeyCallNoDetails(events: seq<EventRecord>)
    requires !KeyCallThrows(events)
    ensures DetailOrder(events) == []
    ensures DetailsOf(events) == map[]
  {
    if events != [] {
      var n := |events| - 1;
      assert !HasNames(events[n]);
      assert forall i :: 0 <= i < n ==> events[..n][i] == events[i];
      NoKeyCallNoDetails(events[..n]);
    }
  }
}
