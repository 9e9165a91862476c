/**
 * The analytics section of the user dashboard: the total request count, the
 * requests grouped by AI service and by date (accumulated in insertion-ordered
 * maps), the dates sorted ascending, and the last seven days shown.
 */
module Analytics {
  import opened Wrappers
  import opened UsageRows

  // ---------------------------------------------------------------------
  // Group keys
  // ---------------------------------------------------------------------

  /** `d.ai_service || "Unknown"`: a missing or empty service name groups under "Unknown". */
  function ServiceKey(service: Option<string>): (k: string)
    ensures service.None? ==> k == "Unknown"
    ensures service.Some? && service.value == "" ==> k == "Unknown"
    ensures service.Some? && service.value != "" ==> k == service.value
  {
    match service
    case None => "Unknown"
    case Some(s) => if s == "" then "Unknown" else s
  }

  /** The two groupings of the section. */
  datatype Grouping = ByService | ByDate

  function KeyOf(g: Grouping, u: Row): string {
    match g
    case ByService => ServiceKey(u.service)
    case ByDate => u.recordedAt
  }

  /** The key of each row, in order. */
  function KeysOf(rows: seq<Row>, g: Grouping): seq<string> {
    seq(|rows|, i requires 0 <= i < |rows| => KeyOf(g, rows[i]))
  }

  /** The distinct keys in the order they first occur (a `Map`'s insertion order). */
  function FirstOccurrences(keys: seq<string>): seq<string>
    decreases |keys|
  {
    if keys == [] then []
    else
      var init := FirstOccurrences(keys[..|keys| - 1]);
      var last := keys[|keys| - 1];
      if last in init then init else init + [last]
  }

  predicate Distinct(keys: seq<string>) {
    forall i, j :: 0 <= i < j < |keys| ==> keys[i] != keys[j]
  }

  /** The first occurrences are distinct and are exactly the keys that occur. */
  lemma {:induction false} FirstOccurrencesSpec(keys: seq<string>)
    ensures Distinct(FirstOccurrences(keys))
    ensures forall k :: k in FirstOccurrences(keys) <==> k in keys
    decreases |keys|
  {
    if keys != [] {
      FirstOccurrencesSpec(keys[..|keys| - 1]);
      assert keys == keys[..|keys| - 1] + [keys[|keys| - 1]];
    }
  }

  /** The requests of the rows with key `k`. */
  function GroupSum(rows: seq<Row>, g: Grouping, k: string): nat
    decreases |rows|
  {
    if rows == [] then 0
    else
      var last := rows[|rows| - 1];
      GroupSum(rows[..|rows| - 1], g, k) + (if KeyOf(g, last) == k then Requests(last) else 0)
  }

  // ---------------------------------------------------------------------
  // The accumulation loop
  // ---------------------------------------------------------------------

  /** One entry of `Array.from(map.entries())`. */
  datatype Group = Group(key: string, requests: nat)

  /** The key of each group, in order. */
  function GroupKeys(groups: seq<Group>): seq<string> {
    seq(|groups|, i requires 0 <= i < |groups| => groups[i].key)
  }

  /**
   * The `forEach` over the rows with `map.get(key) || {requests: 0}` and
   * `map.set`, then the map's entries: one group per distinct key, in the
   * order the keys first occur, each holding its rows' summed requests.
   */
  method Accumulate(rows: seq<Row>, g: Grouping) returns (groups: seq<Group>)
    ensures GroupKeys(groups) == FirstOccurrences(KeysOf(rows, g))
    ensures forall i :: 0 <= i < |groups| ==> groups[i].requests == GroupSum(rows, g, groups[i].key)
  {
    var order: seq<string> := [];
    var totals: map<string, nat> := map[];
    var i := 0;
    assert rows[..0] == [];
    while i < |rows|
      invariant 0 <= i <= |rows|
      invariant Accumulated(rows[..i], g, order, totals)
    {
      var key := KeyOf(g, rows[i]);
      var existing := if key in totals then totals[key] else 0;
      ghost var before := order;
      if key !in totals {
        order := order + [key];
      }
      AccumulateStep(rows, i, g, before, totals, order);
      totals := totals[key := existing + Requests(rows[i])];
      i := i + 1;
    }
    assert rows[..i] == rows;
    groups := Entries(order, totals);
  }

  /** The map's entries in its insertion order `order`. */
  function Entries(order: seq<string>, totals: map<string, nat>): (r: seq<Group>)
    requires forall k :: k in order ==> k in totals
    ensures GroupKeys(r) == order
    ensures forall j :: 0 <= j < |r| ==> r[j].requests == totals[order[j]]
  {
    seq(|order|, j requires 0 <= j < |order| => Group(order[j], totals[order[j]]))
  }

  /**
   * The loop's state after the rows `done`: the keys in first-occurrence
   * order, and for each of them the summed requests.
   */
  ghost predicate Accumulated(done: seq<Row>, g: Grouping, order: seq<string>, totals: map<string, nat>) {
    && order == FirstOccurrences(KeysOf(done, g))
    && (forall k :: k in totals <==> k in order)
    && (forall k :: k in totals ==> totals[k] == GroupSum(done, g, k))
  }

  /** One turn of the accumulation loop: row `i` joins the rows before it. */
  lemma AccumulateStep(rows: seq<Row>, i: nat, g: Grouping, order: seq<string>, totals: map<string, nat>,
                       order': seq<string>)
    requires i < |rows|
    requires Accumulated(rows[..i], g, order, totals)
    requires order' == if KeyOf(g, rows[i]) in totals then order else order + [KeyOf(g, rows[i])]
    ensures var key := KeyOf(g, rows[i]);
      Accumulated(rows[..i + 1], g, order', totals[key := (if key in totals then totals[key] else 0) + Requests(rows[i])])
  {
    var done, u := rows[..i], rows[i];
    assert rows[..i + 1] == done + [u];
    StepOrder(done, u, g, order);
    if KeyOf(g, u) !in totals {
      FirstOccurrencesSpec(KeysOf(done, g));
    }
    StepSums(done, u, g, totals);
  }

  /** The insertion order after one more row. */
  lemma StepOrder(done: seq<Row>, u: Row, g: Grouping, order: seq<string>)
    requires order == FirstOccurrences(KeysOf(done, g))
    ensures FirstOccurrences(KeysOf(done + [u], g)) ==
      if KeyOf(g, u) in order then order else order + [KeyOf(g, u)]
  {
    KeysOfSnoc(done, u, g);
    FirstOccurrencesSnoc(KeysOf(done, g), KeyOf(g, u));
  }

  /** The summed requests after one more row, when a new key has no earlier rows. */
  lemma StepSums(done: seq<Row>, u: Row, g: Grouping, totals: map<string, nat>)
    requires forall k :: k in totals ==> totals[k] == GroupSum(done, g, k)
    requires KeyOf(g, u) !in totals ==> KeyOf(g, u) !in KeysOf(done, g)
    ensures var key := KeyOf(g, u);
      var totals' := totals[key := (if key in totals then totals[key] else 0) + Requests(u)];
      forall k :: k in totals' ==> totals'[k] == GroupSum(done + [u], g, k)
  {
    var key := KeyOf(g, u);
    var before := if key in totals then totals[key] else 0;
    var totals' := totals[key := before + Requests(u)];
    assert before == GroupSum(done, g, key) by {
      if key !in totals {
        AbsentKeySum(done, g, key);
      }
    }
    forall k | k in totals'
      ensures totals'[k] == GroupSum(done + [u], g, k)
    {
      GroupSumSnoc(done, u, g, k);
      if k != key {
        assert totals'[k] == totals[k];
      }
    }
  }

  lemma KeysOfSnoc(done: seq<Row>, u: Row, g: Grouping)
    ensures KeysOf(done + [u], g) == KeysOf(done, g) + [KeyOf(g, u)]
  {
    assert forall j :: 0 <= j < |done| ==> (done + [u])[j] == done[j];
  }

  lemma FirstOccurrencesSnoc(keys: seq<string>, k: string)
    ensures FirstOccurrences(keys + [k]) ==
      if k in FirstOccurrences(keys) then FirstOccurrences(keys) else FirstOccurrences(keys) + [k]
  {
    assert (keys + [k])[..|keys|] == keys;
  }

  lemma GroupSumSnoc(done: seq<Row>, u: Row, g: Grouping, k: string)
    ensures GroupSum(done + [u], g, k) == GroupSum(done, g, k) + (if KeyOf(g, u) == k then Requests(u) else 0)
  {
    assert (done + [u])[..|done|] == done;
  }

  /** A key no row carries has no requests. */
  lemma {:induction false} AbsentKeySum(rows: seq<Row>, g: Grouping, k: string)
    requires k !in KeysOf(rows, g)
    ensures GroupSum(rows, g, k) == 0
    decreases |rows|
  {
    if rows != [] {
      var init := rows[..|rows| - 1];
      assert KeysOf(rows, g)[|rows| - 1] == KeyOf(g, rows[|rows| - 1]);
      assert forall j :: 0 <= j < |init| ==> KeysOf(init, g)[j] == KeysOf(rows, g)[j];
      AbsentKeySum(init, g, k);
    }
  }

  // ---------------------------------------------------------------------
  // Group totals
  // ---------------------------------------------------------------------

  /** The summed requests of the groups. */
  function GroupsTotal(groups: seq<Group>): nat {
    if groups == [] then 0 else groups[0].requests + GroupsTotal(groups[1..])
  }

  /** The summed `GroupSum` of the keys `keys`. */
  function KeysTotal(keys: seq<string>, rows: seq<Row>, g: Grouping): nat {
    if keys == [] then 0 else GroupSum(rows, g, keys[0]) + KeysTotal(keys[1..], rows, g)
  }

  lemma {:induction false} GroupsTotalIsKeysTotal(groups: seq<Group>, rows: seq<Row>, g: Grouping)
    requires forall i :: 0 <= i < |groups| ==> groups[i].requests == GroupSum(rows, g, groups[i].key)
    ensures GroupsTotal(groups) == KeysTotal(GroupKeys(groups), rows, g)
    decreases |groups|
  {
    if groups != [] {
      GroupsTotalIsKeysTotal(groups[1..], rows, g);
      assert GroupKeys(groups)[1..] == GroupKeys(groups[1..]);
    }
  }

  /** One more row adds its count to the one key among distinct `keys` it carries, if any. */
  lemma {:induction false} KeysTotalStep(keys: seq<string>, rows: seq<Row>, g: Grouping, u: Row)
    requires Distinct(keys)
    ensures KeysTotal(keys, rows + [u], g) ==
      KeysTotal(keys, rows, g) + (if KeyOf(g, u) in keys then Requests(u) else 0)
    decreases |keys|
  {
    if keys != [] {
      assert (rows + [u])[..|rows + [u]| - 1] == rows;
      assert Distinct(keys[1..]);
      KeysTotalStep(keys[1..], rows, g, u);
      assert keys == [keys[0]] + keys[1..];
      if KeyOf(g, u) == keys[0] {
        assert KeyOf(g, u) !in keys[1..];
      }
    }
  }

  /** Summed over the distinct keys in first-occurrence order, the groups make up the total. */
  lemma {:induction false} FirstOccurrencesTotal(rows: seq<Row>, g: Grouping)
    ensures KeysTotal(FirstOccurrences(KeysOf(rows, g)), rows, g) == SumRequests(rows)
    decreases |rows|
  {
    if rows == [] {
      assert KeysOf(rows, g) == [];
    } else {
      var init, u := rows[..|rows| - 1], rows[|rows| - 1];
      var key := KeyOf(g, u);
      var before := FirstOccurrences(KeysOf(init, g));
      assert rows == init + [u];
      FirstOccurrencesTotal(init, g);
      FirstOccurrencesSpec(KeysOf(init, g));
      KeysOfSnoc(init, u, g);
      FirstOccurrencesSnoc(KeysOf(init, g), key);
      KeysTotalStep(before, init, g, u);
      if key !in before {
        KeysTotalAppend(before, [key], rows, g);
        AbsentKeySum(init, g, key);
        GroupSumSnoc(init, u, g, key);
        assert KeysTotal([key], rows, g) == GroupSum(rows, g, key) by {
          assert [key][1..] == [];
        }
      }
    }
  }

  lemma {:induction false} KeysTotalAppend(a: seq<string>, b: seq<string>, rows: seq<Row>, g: Grouping)
    ensures KeysTotal(a + b, rows, g) == KeysTotal(a, rows, g) + KeysTotal(b, rows, g)
    decreases |a|
  {
    if a == [] {
      assert a + b == b;
    } else {
      KeysTotalAppend(a[1..], b, rows, g);
      assert (a + b)[1..] == a[1..] + b;
    }
  }

  /** The groups of `Accumulate` always add up to the total request count. */
  lemma AccumulatedTotal(rows: seq<Row>, g: Grouping, groups: seq<Group>)
    requires GroupKeys(groups) == FirstOccurrences(KeysOf(rows, g))
    requires forall i :: 0 <= i < |groups| ==> groups[i].requests == GroupSum(rows, g, groups[i].key)
    ensures GroupsTotal(groups) == SumRequests(rows)
  {
    GroupsTotalIsKeysTotal(groups, rows, g);
    FirstOccurrencesTotal(rows, g);
  }

  // ---------------------------------------------------------------------
  // Date order
  // ---------------------------------------------------------------------

  /** `a.localeCompare(b) <= 0`, taken as code-point lexicographic order. */
  predicate StrLeq(a: string, b: string)
    decreases |a|
  {
    |a| == 0 || (|b| > 0 && (a[0] < b[0] || (a[0] == b[0] && StrLeq(a[1..], b[1..]))))
  }

  lemma {:induction false} StrLeqTotal(a: string, b: string)
    ensures StrLeq(a, b) || StrLeq(b, a)
    decreases |a|
  {
    if |a| > 0 && |b| > 0 && a[0] == b[0] {
      StrLeqTotal(a[1..], b[1..]);
    }
  }

  lemma {:induction false} StrLeqTrans(a: string, b: string, c: string)
    requires StrLeq(a, b) && StrLeq(b, c)
    ensures StrLeq(a, c)
    decreases |a|
  {
    if |a| > 0 && a[0] == b[0] && b[0] == c[0] {
      StrLeqTrans(a[1..], b[1..], c[1..]);
    }
  }

  /** Ascending by date. */
  predicate DateAscending(days: seq<Group>) {
    forall i, j :: 0 <= i < j < |days| ==> StrLeq(days[i].key, days[j].key)
  }

  /** Insert `x` before the first entry with a later date. */
  function InsertByDate(x: Group, s: seq<Group>): seq<Group> {
    if s == [] then [x]
    else if StrLeq(s[0].key, x.key) then [s[0]] + InsertByDate(x, s[1..])
    else [x] + s
  }

  /** `.sort((a, b) => a.date.localeCompare(b.date))`, as an insertion sort. */
  function SortByDate(s: seq<Group>): seq<Group>
    decreases |s|
  {
    if s == [] then [] else InsertByDate(s[|s| - 1], SortByDate(s[..|s| - 1]))
  }

  lemma {:induction false} InsertByDatePerm(x: Group, s: seq<Group>)
    ensures multiset(InsertByDate(x, s)) == multiset(s) + multiset{x}
    decreases |s|
  {
    if s != [] && StrLeq(s[0].key, x.key) {
      InsertByDatePerm(x, s[1..]);
      assert s == [s[0]] + s[1..];
    }
  }

  lemma {:induction false} InsertByDateTotal(x: Group, s: seq<Group>)
    ensures GroupsTotal(InsertByDate(x, s)) == x.requests + GroupsTotal(s)
    decreases |s|
  {
    if s != [] && StrLeq(s[0].key, x.key) {
      InsertByDateTotal(x, s[1..]);
      assert ([s[0]] + InsertByDate(x, s[1..]))[1..] == InsertByDate(x, s[1..]);
    }
  }

  lemma HeadBeforeInsert(x: Group, s: seq<Group>, k: nat)
    requires DateAscending(s) && s != [] && StrLeq(s[0].key, x.key)
    requires k < |InsertByDate(x, s[1..])|
    ensures StrLeq(s[0].key, InsertByDate(x, s[1..])[k].key)
  {
    var rest := InsertByDate(x, s[1..]);
    InsertByDatePerm(x, s[1..]);
    assert rest[k] in multiset(s[1..]) + multiset{x};
    if rest[k] != x {
      assert rest[k] in s[1..];
      var m :| 0 <= m < |s[1..]| && s[1..][m] == rest[k];
      assert s[1..][m] == s[1 + m];
    }
  }

  lemma {:induction false} InsertByDateAscending(x: Group, s: seq<Group>)
    requires DateAscending(s)
    ensures DateAscending(InsertByDate(x, s))
    decreases |s|
  {
    if s == [] {
    } else if StrLeq(s[0].key, x.key) {
      var rest := InsertByDate(x, s[1..]);
      InsertByDateAscending(x, s[1..]);
      forall k | 0 <= k < |rest|
        ensures StrLeq(s[0].key, rest[k].key)
      {
        HeadBeforeInsert(x, s, k);
      }
      assert InsertByDate(x, s) == [s[0]] + rest;
    } else {
      StrLeqTotal(s[0].key, x.key);
      forall k | 0 <= k < |s|
        ensures StrLeq(x.key, s[k].key)
      {
        if k > 0 {
          StrLeqTrans(x.key, s[0].key, s[k].key);
        }
      }
      assert InsertByDate(x, s) == [x] + s;
    }
  }

  /** The date sort is a permutation of its input and keeps the total. */
  lemma SortByDateCounts(s: seq<Group>)
    ensures multiset(SortByDate(s)) == multiset(s)
    ensures GroupsTotal(SortByDate(s)) == GroupsTotal(s)
  {
    SortByDatePerm(s);
    SortByDateTotal(s);
  }

  lemma {:induction false} SortByDatePerm(s: seq<Group>)
    ensures multiset(SortByDate(s)) == multiset(s)
    decreases |s|
  {
    if s != [] {
      var init, last := s[..|s| - 1], s[|s| - 1];
      SortByDatePerm(init);
      InsertByDatePerm(last, SortByDate(init));
      assert s == init + [last];
    }
  }

  lemma {:induction false} SortByDateTotal(s: seq<Group>)
    ensures GroupsTotal(SortByDate(s)) == GroupsTotal(s)
    decreases |s|
  {
    if s != [] {
      var init, last := s[..|s| - 1], s[|s| - 1];
      SortByDateTotal(init);
      InsertByDateTotal(last, SortByDate(init));
      assert s == init + [last];
      GroupsTotalAppend(init, [last]);
      assert GroupsTotal([last]) == last.requests by {
        assert [last][1..] == [];
      }
    }
  }

  /** The date sort is ascending. */
  lemma {:induction false} SortByDateAscending(s: seq<Group>)
    ensures DateAscending(SortByDate(s))
    decreases |s|
  {
    if s != [] {
      SortByDateAscending(s[..|s| - 1]);
      InsertByDateAscending(s[|s| - 1], SortByDate(s[..|s| - 1]));
    }
  }

  lemma {:induction false} GroupsTotalAppend(a: seq<Group>, b: seq<Group>)
    ensures GroupsTotal(a + b) == GroupsTotal(a) + GroupsTotal(b)
    decreases |a|
  {
    if a == [] {
      assert a + b == b;
    } else {
      GroupsTotalAppend(a[1..], b);
      assert (a + b)[1..] == a[1..] + b;
    }
  }

  // ---------------------------------------------------------------------
  // The section's data
  // ---------------------------------------------------------------------

  /** The section's usage data over the requests column. */
  datatype UsageData = UsageData(totalRequests: nat, byService: seq<Group>, dailyUsage: seq<Group>)

  /**
   * The aggregation of `fetchUsage` over the fetched rows: the total, the
   * service groups in first-occurrence order, and the date groups sorted by
   * date. Both groupings add up to the total, and each holds one entry per
   * distinct key.
   */
  method FetchUsage(rows: seq<Row>) returns (data: UsageData)
    ensures data.totalRequests == SumRequests(rows)
    ensures GroupKeys(data.byService) == FirstOccurrences(KeysOf(rows, ByService))
    ensures forall i :: 0 <= i < |data.byService| ==>
      data.byService[i].requests == GroupSum(rows, ByService, data.byService[i].key)
    ensures GroupsTotal(data.byService) == SumRequests(rows)
    ensures DateAscending(data.dailyUsage)
    ensures Distinct(GroupKeys(data.dailyUsage))
    ensures forall k :: k in GroupKeys(data.dailyUsage) <==> k in KeysOf(rows, ByDate)
    ensures forall i :: 0 <= i < |data.dailyUsage| ==>
      data.dailyUsage[i].requests == GroupSum(rows, ByDate, data.dailyUsage[i].key)
    ensures GroupsTotal(data.dailyUsage) == SumRequests(rows)
  {
    var byService := Accumulate(rows, ByService);
    var byDate := Accumulate(rows, ByDate);
    AccumulatedTotal(rows, ByService, byService);
    AccumulatedTotal(rows, ByDate, byDate);
    FirstOccurrencesSpec(KeysOf(rows, ByDate));
    var daily := SortByDate(byDate);
    SortByDateCounts(byDate);
    SortByDateAscending(byDate);
    SortedKeysSame(byDate, daily);
    forall i | 0 <= i < |daily|
      ensures daily[i].requests == GroupSum(rows, ByDate, daily[i].key)
    {
      assert daily[i] in daily;
      var j :| 0 <= j < |byDate| && byDate[j] == daily[i];
    }
    data := UsageData(SumRequests(rows), byService, daily);
  }

  /** A permutation keeps the per-group facts and the distinct, same keys. */
  lemma SortedKeysSame(a: seq<Group>, b: seq<Group>)
    requires multiset(a) == multiset(b)
    ensures |a| == |b|
    ensures forall k :: k in GroupKeys(b) <==> k in GroupKeys(a)
    ensures forall x :: x in b ==> x in a
    ensures Distinct(GroupKeys(a)) ==> Distinct(GroupKeys(b))
  {
    assert |a| == |multiset(a)| == |multiset(b)| == |b|;
    forall k | k in GroupKeys(b)
      ensures k in GroupKeys(a)
    {
      var i :| 0 <= i < |b| && GroupKeys(b)[i] == k;
      assert b[i] in multiset(a);
      var j :| 0 <= j < |a| && a[j] == b[i];
      assert GroupKeys(a)[j] == k;
    }
    forall k | k in GroupKeys(a)
      ensures k in GroupKeys(b)
    {
      var i :| 0 <= i < |a| && GroupKeys(a)[i] == k;
      assert a[i] in multiset(b);
      var j :| 0 <= j < |b| && b[j] == a[i];
      assert GroupKeys(b)[j] == k;
    }
    forall x | x in b
      ensures x in a
    {
      assert x in multiset(a);
    }
    if Distinct(GroupKeys(a)) {
      DistinctUnderPermutation(a, b);
    }
  }

  lemma DistinctUnderPermutation(a: seq<Group>, b: seq<Group>)
    requires multiset(a) == multiset(b) && Distinct(GroupKeys(a))
    ensures Distinct(GroupKeys(b))
  {
    forall i, j | 0 <= i < j < |b|
      ensures b[i].key != b[j].key
    {
      SameKeyIsSame(a, b, i, j);
      TwiceInSeq(b, i, j);
    }
  }

  /** In a permutation of groups with distinct keys, two entries with one key are the same group. */
  lemma SameKeyIsSame(a: seq<Group>, b: seq<Group>, i: nat, j: nat)
    requires multiset(a) == multiset(b) && Distinct(GroupKeys(a))
    requires i < |b| && j < |b|
    ensures b[i].key == b[j].key ==> b[i] == b[j] && multiset(b)[b[i]] == 1
  {
    assert b[i] in multiset(a) && b[j] in multiset(a);
    var p :| 0 <= p < |a| && a[p] == b[i];
    var q :| 0 <= q < |a| && a[q] == b[j];
    if p != q {
      assert GroupKeys(a)[p] == a[p].key && GroupKeys(a)[q] == a[q].key;
    }
    OnceInDistinct(a, p);
  }

  /** An entry at two positions occurs at least twice. */
  lemma TwiceInSeq(b: seq<Group>, i: nat, j: nat)
    requires i < j < |b|
    ensures b[i] == b[j] ==> multiset(b)[b[i]] >= 2
  {
    assert b == b[..i] + [b[i]] + b[i + 1..j] + [b[j]] + b[j + 1..];
  }

  lemma OnceInDistinct(a: seq<Group>, p: nat)
    requires p < |a| && Distinct(GroupKeys(a))
    ensures multiset(a)[a[p]] == 1
  {
    assert forall q :: 0 <= q < |a| ==> GroupKeys(a)[q] == a[q].key;
    assert a == a[..p] + [a[p]] + a[p + 1..];
    assert a[p] !in a[..p];
    assert a[p] !in a[p + 1..];
  }

  /** `daily_usage.slice(-7)`: the last seven entries, or all of them. */
  function Recent(days: seq<Group>): (shown: seq<Group>)
    ensures |shown| == if |days| < 7 then |days| else 7
    ensures shown == days[|days| - |shown|..]
  {
    if |days| < 7 then days else days[|days| - 7..]
  }

  /** On ascending dates the recent view shows the latest dates: none left out comes after one shown. */
  lemma RecentIsLatest(days: seq<Group>)
    requires DateAscending(days)
    ensures forall i, j :: 0 <= i < |days| - |Recent(days)| <= j < |days| ==> StrLeq(days[i].key, days[j].key)
  {
  }
}
