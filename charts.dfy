/**
 * The counting half of loadCharts (app.js): reports per month, with the
 * month labels sorted, and reports per drug, with the first eight drugs as
 * pie labels. Drawing the charts is not modelled.
 */
module Charts {
  import opened Common
  import opened JsString
  import opened Records

  /** The number of occurrences of x in xs. */
  function Occ(xs: seq<string>, x: string): nat
  {
    if xs == [] then 0 else Occ(xs[..|xs| - 1], x) + (if xs[|xs| - 1] == x then 1 else 0)
  }

  /** The distinct elements of xs in first-appearance order: the key order of a counting object. */
  function FirstSeen(xs: seq<string>): (r: seq<string>)
    ensures Distinct(r)
    ensures forall x :: x in r <==> x in xs
  {
    if xs == [] then []
    else
      var n := |xs| - 1;
      var r := FirstSeen(xs[..n]);
      assert forall x :: x in xs <==> x in xs[..n] || x == xs[n];
      if xs[n] in r then r else r + [xs[n]]
  }

  /** A counting object: each key seen, with its number of occurrences. */
  function Tally(xs: seq<string>): map<string, nat>
  {
    map k | k in FirstSeen(xs) :: Occ(xs, k)
  }

  /** The sum of the counts of the given keys. */
  function SumOcc(keys: seq<string>, xs: seq<string>): nat
  {
    if keys == [] then 0 else SumOcc(keys[..|keys| - 1], xs) + Occ(xs, keys[|keys| - 1])
  }

  /** `r.date_reported?.slice(0, 7) || ""`: the year-month prefix of the date text. */
  function MonthOf(r: EventRecord): string
  {
    Slice(r.date_reported, 0, 7)
  }

  /** The month of every record that has one, in record order. */
  function Months(items: seq<EventRecord>): seq<string>
  {
    if items == [] then []
    else
      var n := |items| - 1;
      Months(items[..n]) + (if MonthOf(items[n]) != "" then [MonthOf(items[n])] else [])
  }

  /** The drug name of every record, in record order. */
  function Drugs(items: seq<EventRecord>): (r: seq<string>)
    ensures |r| == |items|
  {
    seq(|items|, i requires 0 <= i < |items| => items[i].drug_name)
  }

  lemma OccSnoc(xs: seq<string>, x: string, k: string)
    ensures Occ(xs + [x], k) == Occ(xs, k) + (if x == k then 1 else 0)
  {
    assert (xs + [x])[..|xs|] == xs;
  }

  lemma FirstSeenSnoc(xs: seq<string>, x: string)
    ensures FirstSeen(xs + [x]) == if x in xs then FirstSeen(xs) else FirstSeen(xs) + [x]
  {
    assert (xs + [x])[..|xs|] == xs;
  }

  /** One counting loop: `obj[key] = (obj[key] || 0) + 1` for every key in turn. */
  method CountKeys(xs: seq<string>) returns (keys: seq<string>, counts: map<string, nat>)
    ensures keys == FirstSeen(xs)
    ensures counts == Tally(xs)
  {
    keys, counts := [], map[];
    for i := 0 to |xs|
      invariant keys == FirstSeen(xs[..i])
      invariant forall k :: k in counts <==> k in keys
      invariant forall k :: k in counts ==> counts[k] == Occ(xs[..i], k)
    {
      var x := xs[i];
      assert xs[..i + 1] == xs[..i] + [x];
      FirstSeenSnoc(xs[..i], x);
      forall k ensures Occ(xs[..i + 1], k) == Occ(xs[..i], k) + (if x == k then 1 else 0) {
        OccSnoc(xs[..i], x, k);
      }
      if x !in counts {
        OccAbsent(xs[..i], x);
      }
      counts := counts[x := (if x in counts then counts[x] else 0) + 1];
      if x !in keys {
        keys := keys + [x];
      }
    }
    assert xs[..|xs|] == xs;
    assert forall k :: k in counts <==> k in Tally(xs);
  }

  /** The byMonth loop: records without a month are skipped. */
  method CountByMonth(items: seq<EventRecord>) returns (months: seq<string>, byMonth: map<string, nat>)
    ensures months == FirstSeen(Months(items))
    ensures byMonth == Tally(Months(items))
  {
    var dated: seq<string> := [];
    for i := 0 to |items|
      invariant dated == Months(items[..i])
    {
      assert items[..i + 1][..i] == items[..i];
      var m := Slice(items[i].date_reported, 0, 7);
      if m != "" {
        dated := dated + [m];
      }
    }
    assert items[..|items|] == items;
    months, byMonth := CountKeys(dated);
  }

  // ------------------------------------------------------------ sorting

  /** Array.prototype.sort's default order on strings: code unit by code unit, a proper prefix first. */
  predicate LexLe(a: string, b: string)
  {
    a == [] || (b != [] && (a[0] < b[0] || (a[0] == b[0] && LexLe(a[1..], b[1..]))))
  }

  lemma {:induction false} LexLeTotal(a: string, b: string)
    ensures LexLe(a, b) || LexLe(b, a)
  {
    if a != [] && b != [] && a[0] == b[0] {
      LexLeTotal(a[1..], b[1..]);
    }
  }

  predicate Sorted(s: seq<string>)
  {
    forall i :: 0 <= i < |s| - 1 ==> LexLe(s[i], s[i + 1])
  }

  function Insert(x: string, s: seq<string>): (r: seq<string>)
    ensures |r| == |s| + 1
    ensures r[0] == x || (s != [] && r[0] == s[0])
    ensures multiset(r) == multiset(s) + multiset{x}
  {
    if s == [] then [x]
    else if LexLe(x, s[0]) then [x] + s
    else
      assert s == [s[0]] + s[1..];
      [s[0]] + Insert(x, s[1..])
  }

  /** The month labels: the keys in ascending order. */
  function Sort(xs: seq<string>): (r: seq<string>)
    ensures multiset(r) == multiset(xs)
  {
    if xs == [] then []
    else
      assert xs == [xs[0]] + xs[1..];
      Insert(xs[0], Sort(xs[1..]))
  }

  lemma {:induction false} InsertSorted(x: string, s: seq<string>)
    requires Sorted(s)
    ensures Sorted(Insert(x, s))
  {
    if s != [] && !LexLe(x, s[0]) {
      var tail := s[1..];
      assert Sorted(tail) by {
        forall i | 0 <= i < |tail| - 1 ensures LexLe(tail[i], tail[i + 1]) {
          assert tail[i] == s[i + 1] && tail[i + 1] == s[i + 2];
        }
      }
      InsertSorted(x, tail);
      LexLeTotal(x, s[0]);
      var r := Insert(x, s);
      var rt := Insert(x, tail);
      assert r == [s[0]] + rt;
      forall i | 0 <= i < |r| - 1 ensures LexLe(r[i], r[i + 1]) {
        if i == 0 {
          assert r[1] == rt[0];
        } else {
          assert r[i] == rt[i - 1] && r[i + 1] == rt[i];
        }
      }
    }
  }

  /** The sorted labels are in ascending order and are the same keys, each as often as before. */
  lemma {:induction false} SortSorts(xs: seq<string>)
    ensures Sorted(Sort(xs))
    ensures multiset(Sort(xs)) == multiset(xs)
  {
    if xs != [] {
      SortSorts(xs[1..]);
      InsertSorted(xs[0], Sort(xs[1..]));
    }
  }

  // ------------------------------------------------------------ the charts

  /** `Object.keys(byDrug).slice(0, 8)`. */
  function FirstEight(keys: seq<string>): (r: seq<string>)
    ensures |r| == if |keys| <= 8 then |keys| else 8
    ensures r == keys[..|r|]
  {
    if |keys| <= 8 then keys else keys[..8]
  }

  /** The line chart's data: the months sorted, and the count of each. */
  method MonthSeries(items: seq<EventRecord>) returns (labels: seq<string>, values: seq<nat>)
    ensures labels == Sort(FirstSeen(Months(items)))
    ensures |values| == |labels| && forall i :: 0 <= i < |labels| ==> values[i] == Occ(Months(items), labels[i])
  {
    var months, byMonth := CountByMonth(items);
    labels := Sort(months);
    forall i | 0 <= i < |labels| ensures labels[i] in byMonth {
      assert labels[i] in multiset(labels);
      assert labels[i] in multiset(months);
    }
    values := seq(|labels|, i requires 0 <= i < |labels| => byMonth[labels[i]]);
  }

  /** The pie chart's data: the first eight drugs, and the count of each. */
  method DrugSeries(items: seq<EventRecord>) returns (drugLabels: seq<string>, drugValues: seq<nat>)
    ensures drugLabels == FirstEight(FirstSeen(Drugs(items)))
    ensures |drugValues| == |drugLabels| && forall i :: 0 <= i < |drugLabels| ==> drugValues[i] == Occ(Drugs(items), drugLabels[i])
  {
    var names := seq(|items|, i requires 0 <= i < |items| => items[i].drug_name);
    assert names == Drugs(items);
    var drugs, byDrug := CountKeys(names);
    drugLabels := FirstEight(drugs);
    assert forall k :: k in drugLabels ==> k in drugs;
    drugValues := seq(|drugLabels|, i requires 0 <= i < |drugLabels| => byDrug[drugLabels[i]]);
  }

  /** loadCharts' counting, once the events have been fetched. */
  method LoadCharts(items: seq<EventRecord>)
    returns (labels: seq<string>, values: seq<nat>, drugLabels: seq<string>, drugValues: seq<nat>)
    ensures labels == Sort(FirstSeen(Months(items)))
    ensures |values| == |labels| && forall i :: 0 <= i < |labels| ==> values[i] == Occ(Months(items), labels[i])
    ensures drugLabels == FirstEight(FirstSeen(Drugs(items)))
    ensures |drugValues| == |drugLabels| && forall i :: 0 <= i < |drugLabels| ==> drugValues[i] == Occ(Drugs(items), drugLabels[i])
  {
    labels, values := MonthSeries(items);
    drugLabels, drugValues := DrugSeries(items);
  }

  // ------------------------------------------------------------ the sums

  lemma {:induction false} SumOccAppend(a: seq<string>, b: seq<string>, xs: seq<string>)
    ensures SumOcc(a + b, xs) == SumOcc(a, xs) + SumOcc(b, xs)
  {
    if b == [] {
      assert a + b == a;
    } else {
      var n := |b| - 1;
      assert (a + b)[..|a + b| - 1] == a + b[..n];
      SumOccAppend(a, b[..n], xs);
    }
  }

  /** A sum of counts depends only on which keys are summed, not on their order. */
  lemma {:induction false} SumOccPermutation(a: seq<string>, b: seq<string>, xs: seq<string>)
    requires multiset(a) == multiset(b)
    ensures SumOcc(a, xs) == SumOcc(b, xs)
  {
    if a != [] {
      var n := |a| - 1;
      var k := a[n];
      assert a == a[..n] + [k];
      assert k in multiset(b);
      var j :| 0 <= j < |b| && b[j] == k;
      var rest := b[..j] + b[j + 1..];
      assert b == b[..j] + [k] + b[j + 1..];
      assert multiset(a) == multiset(a[..n]) + multiset{k};
      assert multiset(b) == multiset(b[..j]) + multiset{k} + multiset(b[j + 1..]);
      assert multiset(rest) == multiset(b[..j]) + multiset(b[j + 1..]);
      assert multiset(a[..n]) == multiset(a) - multiset{k};
      assert multiset(rest) == multiset(b) - multiset{k};
      SumOccPermutation(a[..n], rest, xs);
      SumOccAppend(b[..j] + [k], b[j + 1..], xs);
      SumOccAppend(b[..j], [k], xs);
      SumOccAppend(b[..j], b[j + 1..], xs);
      assert [k][..0] == [];
    }
  }

  lemma {:induction false} SumOccSnoc(keys: seq<string>, xs: seq<string>, x: string)
    requires Distinct(keys)
    ensures SumOcc(keys, xs + [x]) == SumOcc(keys, xs) + (if x in keys then 1 else 0)
  {
    if keys != [] {
      var n := |keys| - 1;
      assert Distinct(keys[..n]);
      SumOccSnoc(keys[..n], xs, x);
      OccSnoc(xs, x, keys[n]);
      assert x in keys <==> x in keys[..n] || x == keys[n];
      assert keys[n] !in keys[..n];
    }
  }

  /** The counts of all keys add up to the number of counted items. */
  lemma {:induction false} CountsAddUp(xs: seq<string>)
    ensures SumOcc(FirstSeen(xs), xs) == |xs|
  {
    if xs != [] {
      var n := |xs| - 1;
      var init := xs[..n];
      var x := xs[n];
      assert xs == init + [x];
      CountsAddUp(init);
      FirstSeenSnoc(init, x);
      SumOccSnoc(FirstSeen(init), init, x);
      if x !in init {
        OccSnoc(init, x, x);
        assert Occ(init, x) == 0 by { OccAbsent(init, x); }
        assert FirstSeen(init) + [x] == FirstSeen(xs);
        assert (FirstSeen(init) + [x])[..|FirstSeen(init)|] == FirstSeen(init);
      }
    }
  }

  lemma {:induction false} OccAbsent(xs: seq<string>, x: string)
    requires x !in xs
    ensures Occ(xs, x) == 0
  {
    if xs != [] {
      OccAbsent(xs[..|xs| - 1], x);
    }
  }

  lemma {:induction false} SumValues(labels: seq<string>, values: seq<nat>, xs: seq<string>)
    requires |values| == |labels| && forall i :: 0 <= i < |labels| ==> values[i] == Occ(xs, labels[i])
    ensures SumNat(values) == SumOcc(labels, xs)
  {
    if labels != [] {
      var n := |labels| - 1;
      SumValues(labels[..n], values[..n], xs);
    }
  }

  function SumNat(s: seq<nat>): nat
  {
    if s == [] then 0 else SumNat(s[..|s| - 1]) + s[|s| - 1]
  }

  /**
   * The month chart: labels distinct and ascending, values adding up to the
   * number of records that have a month.
   */
  lemma MonthChartProps(items: seq<EventRecord>, labels: seq<string>, values: seq<nat>)
    requires labels == Sort(FirstSeen(Months(items)))
    requires |values| == |labels| && forall i :: 0 <= i < |labels| ==> values[i] == Occ(Months(items), labels[i])
    ensures Sorted(labels)
    ensures forall m :: m in labels <==> m in Months(items)
    ensures forall i :: 0 <= i < |labels| ==> labels[i] != ""
    ensures SumNat(values) == |Months(items)|
  {
    var keys := FirstSeen(Months(items));
    SortSorts(keys);
    assert forall m :: m in labels <==> m in multiset(keys);
    SumValues(labels, values, Months(items));
    SumOccPermutation(labels, keys, Months(items));
    CountsAddUp(Months(items));
    MonthsNonEmpty(items);
  }

  lemma {:induction false} MonthsNonEmpty(items: seq<EventRecord>)
    ensures forall m :: m in Months(items) ==> m != "" && |m| <= 7
  {
    if items != [] {
      MonthsNonEmpty(items[..|items| - 1]);
    }
  }

  /**
   * The drug chart: at most eight labels, distinct, each a drug of the
   * records, and all drugs when there are at most eight; the counts of all
   * drugs add up to the number of records.
   */
  lemma DrugChartProps(items: seq<EventRecord>)
    ensures var labels := FirstEight(FirstSeen(Drugs(items)));
      && |labels| <= 8
      && Distinct(labels)
      && (forall d :: d in labels ==> d in Drugs(items))
      && (|FirstSeen(Drugs(items))| <= 8 ==> forall d :: d in Drugs(items) ==> d in labels)
    ensures SumOcc(FirstSeen(Drugs(items)), Drugs(items)) == |items|
  {
    var keys := FirstSeen(Drugs(items));
    var labels := FirstEight(keys);
    assert forall d :: d in labels ==> d in keys;
    CountsAddUp(Drugs(items));
  }

  /** Keys seen in an earlier part of the records come first: the key order of a prefix is a prefix of the key order. */
  lemma {:induction false} FirstSeenPrefix(xs: seq<string>, k: nat)
    requires k <= |xs|
    ensures FirstSeen(xs[..k]) <= FirstSeen(xs)
  {
    if k < |xs| {
      var n := |xs| - 1;
      assert xs[..n][..k] == xs[..k];
      FirstSeenPrefix(xs[..n], k);
    } else {
      assert xs[..k] == xs;
    }
  }
}
