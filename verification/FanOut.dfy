/** One client page split over several provider calls: the shares, the results
    and the cursors for the next page. */
module FanOut {
  import opened Option
  import opened Json
  import opened Cursors
  import opened Paging

  datatype Call = Call(key: string, cursor: Option<string>)

  /** An emitted SIM and the call it came from. */
  datatype Item = Item(key: string, sim: Sim)

  type Fetcher = (string, Option<string>, nat) -> Fetch

  predicate DistinctKeys(calls: seq<Call>) {
    forall i, j | 0 <= i < j < |calls| :: calls[i].key != calls[j].key
  }

  // ---------- Shares ----------

  function Share(page: nat, n: nat, i: nat): nat
    requires i < n
  {
    page / n + if i < page % n then 1 else 0
  }

  function CallLimits(page: nat, n: nat): (limits: seq<nat>)
    ensures |limits| == n
  {
    seq(n, i requires 0 <= i < n => Share(page, n, i))
  }

  function Sum(limits: seq<nat>): nat {
    if limits == [] then 0 else Sum(limits[..|limits| - 1]) + limits[|limits| - 1]
  }

  lemma OneMore(k: nat, share: nat)
    requires k > 0
    ensures k * share == (k - 1) * share + share
  {
  }

  lemma {:induction false} SumOfShares(page: nat, n: nat, k: nat)
    requires 0 < n && k <= n
    ensures Sum(CallLimits(page, n)[..k]) == k * (page / n) + Min(k, page % n)
  {
    var limits := CallLimits(page, n);
    if k > 0 {
      SumOfShares(page, n, k - 1);
      assert limits[..k][..k - 1] == limits[..k - 1];
      OneMore(k, page / n);
    }
  }

  /** The shares add up to the page exactly and differ by at most one. */
  lemma SharesAreFair(page: nat, n: nat)
    ensures n > 0 ==> Sum(CallLimits(page, n)) == page
    ensures forall i, j | 0 <= i < n && 0 <= j < n :: CallLimits(page, n)[i] <= CallLimits(page, n)[j] + 1
    ensures forall i, j | 0 <= i <= j < n :: CallLimits(page, n)[j] <= CallLimits(page, n)[i]
  {
    if n > 0 {
      SumOfShares(page, n, n);
      assert CallLimits(page, n)[..n] == CallLimits(page, n);
      assert n * (page / n) + page % n == page;
    }
  }

  /** A call has no share exactly when the page ran out before it. */
  lemma ZeroShare(page: nat, n: nat, i: nat)
    requires i < n
    ensures CallLimits(page, n)[i] == 0 <==> page <= i
  {
    if page < n {
      assert page / n == 0 && page % n == page;
    } else {
      assert page / n >= 1;
    }
  }

  lemma QuotientIsPart(n: nat, q: nat)
    requires n >= 1
    ensures n * q >= q
  {
  }

  lemma ShareAtMost(page: nat, n: nat, i: nat)
    requires i < n
    ensures Share(page, n, i) <= page
  {
    QuotientIsPart(n, page / n);
  }

  // ---------- Results ----------

  /** What a call emits: nothing if it had no share or failed. */
  function Got(fetch: Fetcher, call: Call, limit: nat): seq<Sim> {
    if limit == 0 then []
    else match fetch(call.key, call.cursor, limit)
      case Failed => []
      case Page(items, _) => items
  }

  /** Where a call leaves its stream: untouched if it had no share. */
  function Outcome(fetch: Fetcher, call: Call, limit: nat): Live {
    if limit == 0 then At(call.cursor) else After(fetch(call.key, call.cursor, limit))
  }

  lemma MadeCall(fetch: Fetcher, call: Call, limit: nat)
    requires limit > 0
    ensures var f := fetch(call.key, call.cursor, limit);
            Got(fetch, call, limit) == (if f.Page? then f.items else []) && Outcome(fetch, call, limit) == After(f)
  {
  }

  function Tag(key: string, sims: seq<Sim>): (items: seq<Item>)
    ensures |items| == |sims|
  {
    seq(|sims|, i requires 0 <= i < |sims| => Item(key, sims[i]))
  }

  function Items(fetch: Fetcher, calls: seq<Call>, limits: seq<nat>): seq<Item>
    requires |calls| == |limits|
  {
    if calls == [] then []
    else
      var n := |calls| - 1;
      Items(fetch, calls[..n], limits[..n]) + Tag(calls[n].key, Got(fetch, calls[n], limits[n]))
  }

  /** Calls without a share keep their cursor for the next page. */
  function Carried(calls: seq<Call>, limits: seq<nat>): Dict
    requires |calls| == |limits|
  {
    if calls == [] then []
    else
      var n := |calls| - 1;
      Carried(calls[..n], limits[..n]) + if limits[n] == 0 then [Member(calls[n].key, calls[n].cursor)] else []
  }

  /** Calls that returned a cursor. */
  function Advanced(fetch: Fetcher, calls: seq<Call>, limits: seq<nat>): Dict
    requires |calls| == |limits|
  {
    if calls == [] then []
    else
      var n := |calls| - 1;
      Advanced(fetch, calls[..n], limits[..n]) +
      if limits[n] > 0 && Outcome(fetch, calls[n], limits[n]).At?
      then [Member(calls[n].key, Outcome(fetch, calls[n], limits[n]).cursor)] else []
  }

  function Next(fetch: Fetcher, calls: seq<Call>, limits: seq<nat>): Dict
    requires |calls| == |limits|
  {
    Carried(calls, limits) + Advanced(fetch, calls, limits)
  }

  function FailedKeys(fetch: Fetcher, calls: seq<Call>, limits: seq<nat>): set<string>
    requires |calls| == |limits|
  {
    if calls == [] then {}
    else
      var n := |calls| - 1;
      FailedKeys(fetch, calls[..n], limits[..n]) +
      if limits[n] > 0 && fetch(calls[n].key, calls[n].cursor, limits[n]).Failed? then {calls[n].key} else {}
  }

  /** The failed keys are those of the calls that were made and failed. */
  lemma {:induction false} FailedKeysHas(fetch: Fetcher, calls: seq<Call>, limits: seq<nat>, key: string)
    requires |calls| == |limits|
    ensures key in FailedKeys(fetch, calls, limits)
       <==> exists i :: 0 <= i < |calls| && calls[i].key == key && limits[i] > 0
                        && fetch(calls[i].key, calls[i].cursor, limits[i]).Failed?
  {
    if calls != [] {
      var n := |calls| - 1;
      FailedKeysHas(fetch, calls[..n], limits[..n], key);
      if i :| 0 <= i < |calls| && calls[i].key == key && limits[i] > 0
              && fetch(calls[i].key, calls[i].cursor, limits[i]).Failed? {
        if i < n { assert calls[..n][i].key == key && limits[..n][i] > 0; }
      }
      if i :| 0 <= i < n && calls[..n][i].key == key && limits[..n][i] > 0
              && fetch(calls[..n][i].key, calls[..n][i].cursor, limits[..n][i]).Failed? {
        assert calls[i].key == key && limits[i] > 0;
      }
    }
  }

  /** The items come call by call: those of the first k calls, and then the rest. */
  lemma {:induction false} ItemsInCallOrder(fetch: Fetcher, calls: seq<Call>, limits: seq<nat>, k: nat)
    requires |calls| == |limits| && k <= |calls|
    ensures Items(fetch, calls, limits) ==
              Items(fetch, calls[..k], limits[..k]) + Items(fetch, calls[k..], limits[k..])
  {
    if k == |calls| {
      assert calls[..k] == calls && limits[..k] == limits;
      assert Items(fetch, calls, limits) + [] == Items(fetch, calls, limits);
    } else {
      var n := |calls| - 1;
      ItemsInCallOrder(fetch, calls[..n], limits[..n], k);
      assert calls[..n][..k] == calls[..k] && limits[..n][..k] == limits[..k];
      assert calls[k..][..n - k] == calls[..n][k..] && limits[k..][..n - k] == limits[..n][k..];
      Reassociate(Items(fetch, calls[..k], limits[..k]), Items(fetch, calls[..n][k..], limits[..n][k..]),
                  Tag(calls[n].key, Got(fetch, calls[n], limits[n])));
    }
  }

  lemma Reassociate(a: seq<Item>, b: seq<Item>, c: seq<Item>)
    ensures a + b + c == a + (b + c)
  {
  }

  // ---------- One call seen on its own ----------

  /** The SIMs of one key, in the order they were emitted. */
  function Of(key: string, items: seq<Item>): seq<Sim> {
    if items == [] then []
    else Of(key, items[..|items| - 1]) + if items[|items| - 1].key == key then [items[|items| - 1].sim] else []
  }

  lemma {:induction false} OfConcat(key: string, a: seq<Item>, b: seq<Item>)
    ensures Of(key, a + b) == Of(key, a) + Of(key, b)
  {
    if b == [] {
      assert a + b == a;
    } else {
      assert (a + b)[..|a + b| - 1] == a + b[..|b| - 1];
      OfConcat(key, a, b[..|b| - 1]);
    }
  }

  lemma {:induction false} OfMember(key: string, items: seq<Item>, sim: Sim)
    ensures sim in Of(key, items) <==> Item(key, sim) in items
  {
    if items != [] {
      OfMember(key, items[..|items| - 1], sim);
      assert items == items[..|items| - 1] + [items[|items| - 1]];
    }
  }

  lemma {:induction false} OfTag(key: string, tag: string, sims: seq<Sim>)
    ensures Of(key, Tag(tag, sims)) == if key == tag then sims else []
  {
    if sims != [] {
      var n := |sims| - 1;
      assert Tag(tag, sims)[..n] == Tag(tag, sims[..n]);
      OfTag(key, tag, sims[..n]);
      assert sims == sims[..n] + [sims[n]];
    }
  }

  lemma ItemsOfLast(fetch: Fetcher, calls: seq<Call>, limits: seq<nat>, key: string)
    requires |calls| == |limits| && calls != []
    ensures var n := |calls| - 1;
            Of(key, Items(fetch, calls, limits)) == Of(key, Items(fetch, calls[..n], limits[..n])) +
              if calls[n].key == key then Got(fetch, calls[n], limits[n]) else []
  {
    var n := |calls| - 1;
    var sims := Got(fetch, calls[n], limits[n]);
    OfConcat(key, Items(fetch, calls[..n], limits[..n]), Tag(calls[n].key, sims));
    OfTag(key, calls[n].key, sims);
  }

  lemma {:induction false} NoItemsWithoutCall(fetch: Fetcher, calls: seq<Call>, limits: seq<nat>, key: string)
    requires |calls| == |limits| && forall i | 0 <= i < |calls| :: calls[i].key != key
    ensures Of(key, Items(fetch, calls, limits)) == []
  {
    if calls != [] {
      var n := |calls| - 1;
      NoItemsWithoutCall(fetch, calls[..n], limits[..n], key);
      ItemsOfLast(fetch, calls, limits, key);
    }
  }

  /** Splitting the page does not mix the calls up. */
  lemma {:induction false} ItemsOfCall(fetch: Fetcher, calls: seq<Call>, limits: seq<nat>, i: nat)
    requires |calls| == |limits| && DistinctKeys(calls) && i < |calls|
    ensures Of(calls[i].key, Items(fetch, calls, limits)) == Got(fetch, calls[i], limits[i])
  {
    var n := |calls| - 1;
    ItemsOfLast(fetch, calls, limits, calls[i].key);
    if i < n {
      ItemsOfCall(fetch, calls[..n], limits[..n], i);
    } else {
      NoItemsWithoutCall(fetch, calls[..n], limits[..n], calls[i].key);
    }
  }

  lemma {:induction false} CarriedHas(calls: seq<Call>, limits: seq<nat>, m: Member)
    requires |calls| == |limits|
    ensures m in Carried(calls, limits)
       <==> exists i :: 0 <= i < |calls| && limits[i] == 0 && m == Member(calls[i].key, calls[i].cursor)
  {
    if calls != [] {
      var n := |calls| - 1;
      CarriedHas(calls[..n], limits[..n], m);
      if m in Carried(calls[..n], limits[..n]) {
        var i :| 0 <= i < n && limits[..n][i] == 0 && m == Member(calls[..n][i].key, calls[..n][i].cursor);
        assert limits[i] == 0 && m == Member(calls[i].key, calls[i].cursor);
      }
      if i :| 0 <= i < |calls| && limits[i] == 0 && m == Member(calls[i].key, calls[i].cursor) {
        if i < n {
          assert limits[..n][i] == 0 && m == Member(calls[..n][i].key, calls[..n][i].cursor);
        }
      }
    }
  }

  predicate Advances(fetch: Fetcher, call: Call, limit: nat, m: Member) {
    limit > 0 && m.key == call.key && Outcome(fetch, call, limit) == At(m.value)
  }

  /** Some call advances with m, if it is the last one or one before. */
  lemma {:induction false} OneMoreAdvances(fetch: Fetcher, calls: seq<Call>, limits: seq<nat>, m: Member)
    requires |calls| == |limits| && calls != []
    ensures var n := |calls| - 1;
            (exists i :: 0 <= i < |calls| && Advances(fetch, calls[i], limits[i], m))
            <==> Advances(fetch, calls[n], limits[n], m)
                 || exists i :: 0 <= i < n && Advances(fetch, calls[..n][i], limits[..n][i], m)
  {
    var n := |calls| - 1;
    if i :| 0 <= i < |calls| && Advances(fetch, calls[i], limits[i], m) {
      if i < n { assert Advances(fetch, calls[..n][i], limits[..n][i], m); }
    }
    if i :| 0 <= i < n && Advances(fetch, calls[..n][i], limits[..n][i], m) {
      assert Advances(fetch, calls[i], limits[i], m);
    }
  }

  lemma {:induction false} AdvancedHas(fetch: Fetcher, calls: seq<Call>, limits: seq<nat>, m: Member)
    requires |calls| == |limits|
    ensures m in Advanced(fetch, calls, limits)
       <==> exists i :: 0 <= i < |calls| && Advances(fetch, calls[i], limits[i], m)
  {
    if calls != [] {
      var n := |calls| - 1;
      AdvancedHas(fetch, calls[..n], limits[..n], m);
      OneMoreAdvances(fetch, calls, limits, m);
    }
  }

  /** The next page's dictionary holds exactly the calls that are still live,
      each with the cursor its own outcome gives it. */
  lemma NextHas(fetch: Fetcher, calls: seq<Call>, limits: seq<nat>, m: Member)
    requires |calls| == |limits|
    ensures m in Next(fetch, calls, limits)
       <==> exists i :: 0 <= i < |calls| && calls[i].key == m.key && Outcome(fetch, calls[i], limits[i]) == At(m.value)
  {
    CarriedHas(calls, limits, m);
    AdvancedHas(fetch, calls, limits, m);
    if i :| 0 <= i < |calls| && calls[i].key == m.key && Outcome(fetch, calls[i], limits[i]) == At(m.value) {
      assert limits[i] == 0 ==> m == Member(calls[i].key, calls[i].cursor);
      assert limits[i] > 0 ==> Advances(fetch, calls[i], limits[i], m);
    }
  }

  lemma {:induction false} CarriedIsDistinct(calls: seq<Call>, limits: seq<nat>)
    requires |calls| == |limits| && DistinctKeys(calls)
    ensures Distinct(Carried(calls, limits))
  {
    if calls != [] {
      var n := |calls| - 1;
      CarriedIsDistinct(calls[..n], limits[..n]);
      forall m | m in Carried(calls[..n], limits[..n]) ensures m.key != calls[n].key {
        CarriedHas(calls[..n], limits[..n], m);
      }
    }
  }

  lemma {:induction false} AdvancedIsDistinct(fetch: Fetcher, calls: seq<Call>, limits: seq<nat>)
    requires |calls| == |limits| && DistinctKeys(calls)
    ensures Distinct(Advanced(fetch, calls, limits))
  {
    if calls != [] {
      var n := |calls| - 1;
      AdvancedIsDistinct(fetch, calls[..n], limits[..n]);
      forall m | m in Advanced(fetch, calls[..n], limits[..n]) ensures m.key != calls[n].key {
        AdvancedHas(fetch, calls[..n], limits[..n], m);
      }
    }
  }

  lemma NextIsDistinct(fetch: Fetcher, calls: seq<Call>, limits: seq<nat>)
    requires |calls| == |limits| && DistinctKeys(calls)
    ensures Distinct(Next(fetch, calls, limits))
  {
    CarriedIsDistinct(calls, limits);
    AdvancedIsDistinct(fetch, calls, limits);
    forall x, y | x in Carried(calls, limits) && y in Advanced(fetch, calls, limits) ensures x.key != y.key {
      CarriedHas(calls, limits, x);
      AdvancedHas(fetch, calls, limits, y);
    }
  }

  /** The next page's dictionary, one key at a time: the key of call i is there
      exactly when the call left its stream live, and with that cursor. */
  lemma NextOfCall(fetch: Fetcher, calls: seq<Call>, limits: seq<nat>, i: nat)
    requires |calls| == |limits| && DistinctKeys(calls) && i < |calls|
    ensures var m, key, out := ToMap(Next(fetch, calls, limits)), calls[i].key, Outcome(fetch, calls[i], limits[i]);
            (key in m <==> out.At?) && (out.At? ==> m[key] == out.cursor)
  {
    var m, key, out := ToMap(Next(fetch, calls, limits)), calls[i].key, Outcome(fetch, calls[i], limits[i]);
    NextIsDistinct(fetch, calls, limits);
    if out.At? {
      NextHas(fetch, calls, limits, Member(key, out.cursor));
      ToMapHas(Next(fetch, calls, limits), key, out.cursor);
    }
    if key in m {
      ToMapHas(Next(fetch, calls, limits), key, m[key]);
      NextHas(fetch, calls, limits, Member(key, m[key]));
    }
  }

  lemma NextNeedsCall(fetch: Fetcher, calls: seq<Call>, limits: seq<nat>, key: string)
    requires |calls| == |limits| && DistinctKeys(calls) && forall i | 0 <= i < |calls| :: calls[i].key != key
    ensures key !in ToMap(Next(fetch, calls, limits))
  {
    NextIsDistinct(fetch, calls, limits);
    var m := ToMap(Next(fetch, calls, limits));
    if key in m {
      ToMapHas(Next(fetch, calls, limits), key, m[key]);
      NextHas(fetch, calls, limits, Member(key, m[key]));
    }
  }

  /** A page never holds more than the shares allow. */
  lemma {:induction false} ItemsFitShares(fetch: Fetcher, calls: seq<Call>, limits: seq<nat>)
    requires |calls| == |limits|
    requires forall i | 0 <= i < |calls| :: |Got(fetch, calls[i], limits[i])| <= limits[i]
    ensures |Items(fetch, calls, limits)| <= Sum(limits)
  {
    if calls != [] {
      var n := |calls| - 1;
      ItemsFitShares(fetch, calls[..n], limits[..n]);
    }
  }

  lemma {:induction false} NobodyFailed(fetch: Fetcher, calls: seq<Call>, limits: seq<nat>)
    requires |calls| == |limits| && forall i | 0 <= i < |calls| :: fetch(calls[i].key, calls[i].cursor, limits[i]).Page?
    ensures FailedKeys(fetch, calls, limits) == {}
  {
    if calls != [] {
      NobodyFailed(fetch, calls[..|calls| - 1], limits[..|calls| - 1]);
    }
  }

  lemma NextOfOne(fetch: Fetcher, calls: seq<Call>, limits: seq<nat>)
    requires |calls| == |limits| == 1 && limits[0] > 0
    ensures var out := Outcome(fetch, calls[0], limits[0]);
            Next(fetch, calls, limits) == if out.At? then [Member(calls[0].key, out.cursor)] else []
  {
    assert calls[..0] == [] && limits[..0] == [];
    assert Carried(calls, limits) == [];
    assert Advanced(fetch, calls[..0], limits[..0]) == [];
  }
}
