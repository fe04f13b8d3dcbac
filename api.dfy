/** The pure helpers of src/services/api.js: pair identity, the new-pair diff and the query string. */
module Api {
  import opened Common
  import opened JsString
  import opened Records

  /** One side of a pair key: String(x).toLowerCase().trim(). */
  function Canon(s: string): string
  {
    Trim(Lower(s))
  }

  /** buildPairKey: the canonical drug||event identity of a pair. */
  function PairKey(drug: string, event: string): string
  {
    Canon(drug) + "||" + Canon(event)
  }

  /** `event.drug_name && event.adverse_event`: both names are present and non-empty. */
  predicate HasNames(e: EventRecord)
  {
    e.drug_name != "" && e.adverse_event != ""
  }

  function KeyOf(e: EventRecord): string
  {
    PairKey(e.drug_name, e.adverse_event)
  }

  function NameKey(p: PairName): string
  {
    PairKey(p.drug_name, p.adverse_event)
  }

  /** Names that differ only in letter case or in outer white space give the same key. */
  lemma PairKeyIgnoresCaseAndSpace(d: string, e: string, d2: string, e2: string)
    requires Lower(Trim(d)) == Lower(Trim(d2)) && Lower(Trim(e)) == Lower(Trim(e2))
    ensures PairKey(d, e) == PairKey(d2, e2)
  {
    LowerTrimCommute(d);
    LowerTrimCommute(d2);
    LowerTrimCommute(e);
    LowerTrimCommute(e2);
  }

  /** Surrounding a name with white space leaves its key unchanged. */
  lemma PairKeyIgnoresOuterSpace(d: string, e: string, p1: string, q1: string, p2: string, q2: string)
    requires AllSpace(p1) && AllSpace(q1) && AllSpace(p2) && AllSpace(q2)
    ensures PairKey(p1 + d + q1, p2 + e + q2) == PairKey(d, e)
  {
    CanonIgnoresOuterSpace(p1, d, q1);
    CanonIgnoresOuterSpace(p2, e, q2);
  }

  lemma CanonIgnoresOuterSpace(pre: string, core: string, post: string)
    requires AllSpace(pre) && AllSpace(post)
    ensures Canon(pre + core + post) == Canon(core)
  {
    LowerAppend(pre + core, post);
    LowerAppend(pre, core);
    LowerAllSpace(pre);
    LowerAllSpace(post);
    TrimIgnoresOuterSpace(Lower(pre), Lower(core), Lower(post));
  }

  /** Case and outer spacing do not split a pair: "Aspirin"/"Nausea " and " aspirin"/"nausea" are one pair. */
  lemma PairKeyExample()
    ensures PairKey("Aspirin", "Nausea ") == PairKey(" aspirin", "nausea")
  {
    assert Lower("Aspirin") == "aspirin";
    assert Lower("Nausea") == "nausea";
    assert Lower("aspirin") == "aspirin";
    assert Lower("nausea") == "nausea";
    CanonIgnoresOuterSpace(" ", "aspirin", "");
    assert " " + "aspirin" + "" == " aspirin";
    CanonIgnoresOuterSpace("", "Nausea", " ");
    assert "" + "Nausea" + " " == "Nausea ";
    assert Canon("Aspirin") == Trim("aspirin") == Canon("aspirin");
    assert Canon("Nausea") == Trim("nausea") == Canon("nausea");
  }

  /**
   * When the canonical drug name holds no '|', two keys are equal exactly when
   * both canonical names are: the "||" separator keeps the pair apart.
   */
  lemma PairKeyIff(d: string, e: string, d2: string, e2: string)
    requires '|' !in Canon(d) && '|' !in Canon(d2)
    ensures PairKey(d, e) == PairKey(d2, e2) <==> Canon(d) == Canon(d2) && Canon(e) == Canon(e2)
  {
    SplitJoined(Canon(d), Canon(e));
    SplitJoined(Canon(d2), Canon(e2));
  }

  /** key.split("||") gives back the canonical names when neither holds a '|'. */
  lemma SplitPairKey(d: string, e: string)
    requires '|' !in Canon(d) && '|' !in Canon(e)
    ensures UntilSep(PairKey(d, e)) == Canon(d)
    ensures UntilSep(AfterSep(PairKey(d, e))) == Canon(e)
  {
    SplitJoined(Canon(d), Canon(e));
    UntilSepNoBar(Canon(e));
  }

  /** The keys of the records that carry both names (computeNewPairs' currentPairs). */
  function KeySet(events: seq<EventRecord>): set<string>
  {
    if events == [] then {}
    else
      var n := |events| - 1;
      KeySet(events[..n]) + (if HasNames(events[n]) then {KeyOf(events[n])} else {})
  }

  lemma {:induction false} KeySetMembers(events: seq<EventRecord>, k: string)
    ensures k in KeySet(events) <==>
      exists i :: 0 <= i < |events| && HasNames(events[i]) && KeyOf(events[i]) == k
  {
    if events != [] {
      var n := |events| - 1;
      var init := events[..n];
      KeySetMembers(init, k);
      assert forall i :: 0 <= i < n ==> init[i] == events[i];
    }
  }

  /** The same keys as a JavaScript Set fills them: each once, in first-seen order. */
  function KeyOrder(events: seq<EventRecord>): (r: seq<string>)
    ensures Distinct(r)
    ensures forall k :: k in r <==> k in KeySet(events)
  {
    if events == [] then []
    else
      var n := |events| - 1;
      var r := KeyOrder(events[..n]);
      if HasNames(events[n]) && KeyOf(events[n]) !in r then r + [KeyOf(events[n])] else r
  }

  /** computeNewPairs' newPairs: one entry per record with both names whose key is not known, in input order. */
  function FreshPairs(previous: set<string>, events: seq<EventRecord>): seq<PairName>
  {
    if events == [] then []
    else
      var n := |events| - 1;
      FreshPairs(previous, events[..n]) + FreshOne(previous, events[n])
  }

  /** What one record contributes to newPairs. */
  function FreshOne(previous: set<string>, e: EventRecord): seq<PairName>
  {
    if HasNames(e) && KeyOf(e) !in previous then [PairName(e.drug_name, e.adverse_event)] else []
  }

  /**
   * computeNewPairs: a loop over the records that adds every key to currentPairs
   * and pushes the raw names of every record whose key is not in `previous`.
   */
  method ComputeNewPairs(previous: set<string>, events: seq<EventRecord>)
    returns (currentPairs: set<string>, newPairs: seq<PairName>)
    ensures currentPairs == KeySet(events)
    ensures newPairs == FreshPairs(previous, events)
  {
    currentPairs, newPairs := {}, [];
    for i := 0 to |events|
      invariant currentPairs == KeySet(events[..i])
      invariant newPairs == FreshPairs(previous, events[..i])
    {
      var e := events[i];
      assert events[..i + 1][..i] == events[..i];
      if e.drug_name != "" && e.adverse_event != "" {
        var pairKey := PairKey(e.drug_name, e.adverse_event);
        if pairKey !in currentPairs {
          currentPairs := currentPairs + {pairKey};
        }
        if pairKey !in previous {
          newPairs := newPairs + [PairName(e.drug_name, e.adverse_event)];
        }
      }
    }
    assert events[..|events|] == events;
  }

  /** Every reported pair is new with respect to `previous` and comes from the batch. */
  lemma {:induction false} FreshPairsAreNew(previous: set<string>, events: seq<EventRecord>)
    ensures forall i :: 0 <= i < |FreshPairs(previous, events)| ==>
      NameKey(FreshPairs(previous, events)[i]) !in previous
      && NameKey(FreshPairs(previous, events)[i]) in KeySet(events)
  {
    if events != [] {
      FreshPairsAreNew(previous, events[..|events| - 1]);
    }
  }

  /** No new pair is reported exactly when every current key is already known. */
  lemma {:induction false} FreshPairsEmptyIff(previous: set<string>, events: seq<EventRecord>)
    ensures FreshPairs(previous, events) == [] <==> KeySet(events) <= previous
  {
    if events != [] {
      FreshPairsEmptyIff(previous, events[..|events| - 1]);
    }
  }

  /** The diff of a concatenation is the concatenation of the diffs: input order and duplicates are kept. */
  lemma {:induction false} FreshPairsConcat(previous: set<string>, a: seq<EventRecord>, b: seq<EventRecord>)
    ensures FreshPairs(previous, a + b) == FreshPairs(previous, a) + FreshPairs(previous, b)
  {
    if b == [] {
      assert a + b == a;
    } else {
      var n := |b| - 1;
      var ab := a + b;
      assert ab[..|ab| - 1] == a + b[..n];
      assert ab[|ab| - 1] == b[n];
      FreshPairsConcat(previous, a, b[..n]);
      calc {
        FreshPairs(previous, ab);
        FreshPairs(previous, a + b[..n]) + FreshOne(previous, b[n]);
        FreshPairs(previous, a) + (FreshPairs(previous, b[..n]) + FreshOne(previous, b[n]));
      }
    }
  }

  /** A query-string parameter value as the callers pass it. */
  datatype Param = Undefined | Null | Str(s: string) | Num(x: real) | Bool(b: bool)

  /** `v !== undefined && v !== null && v !== ""`: 0 and false are sent. */
  predicate Sent(v: Param)
  {
    !v.Undefined? && !v.Null? && v != Str("")
  }

  /** The entries buildQueryString appends to its URLSearchParams, in order. */
  function SentEntries(params: seq<(string, Param)>): seq<(string, Param)>
  {
    if params == [] then []
    else
      var n := |params| - 1;
      SentEntries(params[..n]) + (if Sent(params[n].1) then [params[n]] else [])
  }

  /** buildQueryString (and its copy qs in app.js): appends every entry whose value is sent. */
  method BuildQueryString(params: seq<(string, Param)>) returns (query: seq<(string, Param)>)
    ensures query == SentEntries(params)
  {
    query := [];
    for i := 0 to |params|
      invariant query == SentEntries(params[..i])
    {
      assert params[..i + 1][..i] == params[..i];
      var (k, v) := params[i];
      if v != Undefined && v != Null && v != Str("") {
        query := query + [(k, v)];
      }
    }
    assert params[..|params|] == params;
  }

  /** Each entry is sent as often as it occurs when its value is sent, and never otherwise. */
  lemma {:induction false} SentEntriesCount(params: seq<(string, Param)>, entry: (string, Param))
    ensures multiset(SentEntries(params))[entry] == if Sent(entry.1) then multiset(params)[entry] else 0
  {
    if params != [] {
      var n := |params| - 1;
      SentEntriesCount(params[..n], entry);
      assert params == params[..n] + [params[n]];
    }
  }

  /** Sent entries keep their relative order. */
  lemma {:induction false} SentEntriesConcat(a: seq<(string, Param)>, b: seq<(string, Param)>)
    ensures SentEntries(a + b) == SentEntries(a) + SentEntries(b)
  {
    if b == [] {
      assert a + b == a;
    } else {
      var n := |b| - 1;
      assert (a + b)[..|a| + n] == a + b[..n];
      assert (a + b)[|a| + n] == b[n];
      SentEntriesConcat(a, b[..n]);
    }
  }
  // ------------------------------------------- the key calls of the callers

  /**
   * Alerts.js and App.js compute pair keys with `api.buildPairKey(...)`, but
   * buildPairKey is a separate export, not a member of the `api` object: the
   * call throws a TypeError. A loop that makes it throws exactly when some
   * record has both names.
   */
  predicate KeyCallThrows(events: seq<EventRecord>)
  {
    exists i :: 0 <= i < |events| && HasNames(events[i])
  }

  /**
   * The forEach loops that call `api.buildPairKey` (src/components/Alerts.js:43-69
   * and :101-114, src/App.js:128-138 and :162-182): they skip records without
   * both names and stop with the TypeError at the first record with both.
   */
  method KeyLoopAsWritten(events: seq<EventRecord>) returns (threw: bool)
    ensures threw == KeyCallThrows(events)
  {
    for i := 0 to |events|
      invariant forall j :: 0 <= j < i ==> !HasNames(events[j])
    {
      if events[i].drug_name != "" && events[i].adverse_event != "" {
        return true;
      }
    }
    return false;
  }

  /** When no record has both names, those loops finish with no key and no new pair. */
  lemma {:induction false} NoKeyCallNoKeys(previous: set<string>, events: seq<EventRecord>)
    requires !KeyCallThrows(events)
    ensures KeySet(events) == {}
    ensures KeyOrder(events) == []
    ensures FreshPairs(previous, events) == []
  {
    if events != [] {
      var n := |events| - 1;
      assert !HasNames(events[n]);
      assert forall i :: 0 <= i < n ==> events[..n][i] == events[i];
      NoKeyCallNoKeys(previous, events[..n]);
    }
  }
}
