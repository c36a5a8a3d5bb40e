/**
 * Per-person statistics: every name in the days' entries once, with the
 * sum of its amounts, ordered from the largest total down.
 */
module Statistics {
  import opened Folds
  import opened Records
  import opened Sorting

  datatype PersonTotal = PersonTotal(name: string, total: real)

  function TotalOf(p: PersonTotal): real {
    p.total
  }

  /** Σ of the amounts of the entries carrying that name. */
  function NameTotal(es: seq<Entry>, name: string): real {
    if es == [] then 0.0
    else NameTotal(es[..|es| - 1], name) + (if es[|es| - 1].name == name then es[|es| - 1].amount else 0.0)
  }

  ghost predicate DistinctNames(ps: seq<PersonTotal>) {
    forall i, j :: 0 <= i < j < |ps| ==> ps[i].name != ps[j].name
  }

  ghost predicate NoRepeats(ns: seq<string>) {
    forall i, j :: 0 <= i < j < |ns| ==> ns[i] != ns[j]
  }

  /** The names the entries carry. */
  function Names(es: seq<Entry>): set<string> {
    if es == [] then {} else Names(es[..|es| - 1]) + {es[|es| - 1].name}
  }

  lemma {:induction false} NamesMember(es: seq<Entry>, n: string)
    ensures n in Names(es) <==> exists e :: e in es && e.name == n
    decreases |es|
  {
    if es != [] {
      var init := es[..|es| - 1];
      NamesMember(init, n);
      assert es == init + [es[|es| - 1]];
    }
  }

  /** The running state of the loops: the names in first-seen order and their totals so far. */
  ghost predicate Tallied(seen: seq<Entry>, totals: map<string, real>, order: seq<string>) {
    && NoRepeats(order)
    && totals.Keys == Names(seen)
    && (forall n :: n in order <==> n in Names(seen))
    && (forall n :: n in totals ==> totals[n] == NameTotal(seen, n))
  }

  /** `Object.entries(personTotals).map(...)`: one pair per name, in insertion order. */
  function Pairs(totals: map<string, real>, order: seq<string>): (ps: seq<PersonTotal>)
    requires forall k :: 0 <= k < |order| ==> order[k] in totals
    ensures |ps| == |order|
    ensures forall k :: 0 <= k < |order| ==> ps[k] == PersonTotal(order[k], totals[order[k]])
  {
    seq(|order|, k requires 0 <= k < |order| => PersonTotal(order[k], totals[order[k]]))
  }

  /**
   * `statistics`: the nested loops tally `personTotals`; its entries, in
   * insertion order, are then sorted by total, largest first.
   */
  method PersonTotals(days: seq<Day>) returns (stats: seq<PersonTotal>)
    ensures DistinctNames(stats)
    ensures forall e :: e in AllEntries(days) ==> exists p :: p in stats && p.name == e.name
    ensures forall p :: p in stats ==> exists e :: e in AllEntries(days) && e.name == p.name
    ensures forall p :: p in stats ==> p.total == NameTotal(AllEntries(days), p.name)
    ensures SortedDesc(stats, TotalOf)
    ensures stats == [] <==> AllEntries(days) == []
    ensures SumOver(stats, TotalOf) == Sum(AllEntries(days))
  {
    var totals, order := TallyDays(days);
    var pairs := Pairs(totals, order);
    stats := SortDesc(pairs, TotalOf);
    Listed(AllEntries(days), totals, order);
    Reported(AllEntries(days), pairs, stats);
  }

  /** `days.forEach(...)`: the outer loop, tallying every day's entries. */
  method TallyDays(days: seq<Day>) returns (totals: map<string, real>, order: seq<string>)
    ensures Tallied(AllEntries(days), totals, order)
  {
    totals, order := map[], [];
    var i := 0;
    while i < |days|
      invariant 0 <= i <= |days|
      invariant Tallied(AllEntries(days[..i]), totals, order)
    {
      ghost var seen := AllEntries(days[..i]);
      AllEntriesStep(days, i);
      if days[i].entries.Some? {
        totals, order := TallyEntries(days[i].entries.value, totals, order, seen);
      } else {
        assert seen + [] == seen;
      }
      i := i + 1;
    }
    assert days[..i] == days;
  }

  /** `day.entries?.forEach(...)`: adds one day's entries to the tally. */
  method TallyEntries(es: seq<Entry>, totals0: map<string, real>, order0: seq<string>, ghost seen: seq<Entry>)
    returns (totals: map<string, real>, order: seq<string>)
    requires Tallied(seen, totals0, order0)
    ensures Tallied(seen + es, totals, order)
  {
    totals, order := totals0, order0;
    var j := 0;
    assert seen + es[..0] == seen;
    while j < |es|
      invariant 0 <= j <= |es|
      invariant Tallied(seen + es[..j], totals, order)
    {
      var e := es[j];
      ghost var before := seen + es[..j];
      ghost var totals0, order0 := totals, order;
      if e.name !in totals || totals[e.name] == 0.0 {
        if e.name !in totals {
          order := order + [e.name];
        }
        totals := totals[e.name := 0.0];
      }
      totals := totals[e.name := totals[e.name] + e.amount];
      TallyStep(before, e, totals0, order0, totals, order);
      assert seen + es[..j + 1] == before + [e];
      j := j + 1;
    }
    assert es[..j] == es;
  }

  /** What the finished tally, listed in insertion order, says about the entries. */
  lemma Listed(seen: seq<Entry>, totals: map<string, real>, order: seq<string>)
    requires Tallied(seen, totals, order)
    ensures DistinctNames(Pairs(totals, order))
    ensures forall p :: p in Pairs(totals, order) ==> p.name in Names(seen) && p.total == NameTotal(seen, p.name)
    ensures forall n :: n in Names(seen) ==> exists p :: p in Pairs(totals, order) && p.name == n
    ensures SumOver(Pairs(totals, order), TotalOf) == Sum(seen)
  {
    var pairs := Pairs(totals, order);
    forall n | n in Names(seen)
      ensures exists p :: p in pairs && p.name == n
    {
      var k :| 0 <= k < |order| && order[k] == n;
      assert pairs[k] in pairs;
    }
    PairsSum(pairs, order, seen);
    forall e | e in seen
      ensures e.name in order
    {
      NamesMember(seen, e.name);
    }
    NamesSum(seen, order);
  }

  /** What the finished tally, listed and sorted, says about the entries. */
  lemma Reported(seen: seq<Entry>, pairs: seq<PersonTotal>, stats: seq<PersonTotal>)
    requires DistinctNames(pairs)
    requires forall p :: p in pairs ==> p.name in Names(seen) && p.total == NameTotal(seen, p.name)
    requires forall n :: n in Names(seen) ==> exists p :: p in pairs && p.name == n
    requires SumOver(pairs, TotalOf) == Sum(seen)
    requires stats == SortDesc(pairs, TotalOf)
    ensures DistinctNames(stats)
    ensures forall e :: e in seen ==> exists p :: p in stats && p.name == e.name
    ensures forall p :: p in stats ==> exists e :: e in seen && e.name == p.name
    ensures forall p :: p in stats ==> p.total == NameTotal(seen, p.name)
    ensures SortedDesc(stats, TotalOf)
    ensures stats == [] <==> seen == []
    ensures SumOver(stats, TotalOf) == Sum(seen)
  {
    forall p ensures p in stats <==> p in pairs {
      assert p in stats <==> p in multiset(stats);
    }
    DistinctPermutation(pairs, stats);
    forall e | e in seen
      ensures exists p :: p in stats && p.name == e.name
    {
      NamesMember(seen, e.name);
    }
    forall p | p in stats
      ensures exists e :: e in seen && e.name == p.name
    {
      NamesMember(seen, p.name);
    }
    if seen != [] {
      assert seen[0] in seen;
      NamesMember(seen, seen[0].name);
    }
    SumOverPermutation(stats, pairs, TotalOf);
  }

  /** One entry added to the tally. */
  lemma TallyStep(seen: seq<Entry>, e: Entry, totals0: map<string, real>, order0: seq<string>,
                  totals: map<string, real>, order: seq<string>)
    requires Tallied(seen, totals0, order0)
    requires order == if e.name in totals0 then order0 else order0 + [e.name]
    requires totals == totals0[e.name := (if e.name in totals0 then totals0[e.name] else 0.0) + e.amount]
    ensures Tallied(seen + [e], totals, order)
  {
    var seen' := seen + [e];
    assert seen'[..|seen'| - 1] == seen;
    assert Names(seen') == Names(seen) + {e.name};
    forall n | n in totals
      ensures totals[n] == NameTotal(seen', n)
    {
      assert NameTotal(seen', n) == NameTotal(seen, n) + (if e.name == n then e.amount else 0.0);
      if n !in totals0 {
        NameTotalAbsent(seen, n);
      }
    }
  }

  /** A name no entry carries totals 0. */
  lemma {:induction false} NameTotalAbsent(es: seq<Entry>, n: string)
    requires n !in Names(es)
    ensures NameTotal(es, n) == 0.0
    decreases |es|
  {
    if es != [] {
      NameTotalAbsent(es[..|es| - 1], n);
    }
  }

  /** The totals listed in key order sum like the totals of the keys. */
  lemma {:induction false} PairsSum(pairs: seq<PersonTotal>, order: seq<string>, seen: seq<Entry>)
    requires |pairs| == |order|
    requires forall k :: 0 <= k < |order| ==> pairs[k].total == NameTotal(seen, order[k])
    ensures SumOver(pairs, TotalOf) == SumOver(order, n => NameTotal(seen, n))
    decreases |order|
  {
    if order != [] {
      PairsSum(pairs[..|pairs| - 1], order[..|order| - 1], seen);
    }
  }

  /** Summing every name's total over a list holding each name once gives the sum of all amounts. */
  lemma {:induction false} NamesSum(es: seq<Entry>, names: seq<string>)
    requires NoRepeats(names)
    requires forall e :: e in es ==> e.name in names
    ensures SumOver(names, n => NameTotal(es, n)) == Sum(es)
    decreases |es|
  {
    if es == [] {
      SumOverZero(names, n => NameTotal(es, n));
    } else {
      var init, last := es[..|es| - 1], es[|es| - 1];
      NamesSum(init, names);
      var spike := (n: string) => if n == last.name then last.amount else 0.0;
      SumOverAdd(names, n => NameTotal(init, n), spike, n => NameTotal(es, n));
      SumOverSpike(names, last.name, last.amount, spike);
    }
  }

  lemma CountTwo<T>(s: seq<T>, i: nat, j: nat)
    requires i < j < |s|
    ensures s[i] == s[j] ==> multiset(s)[s[i]] >= 2
  {
    assert s == s[..i] + [s[i]] + s[i + 1..j] + [s[j]] + s[j + 1..];
  }

  lemma CountOne(a: seq<PersonTotal>, p: nat)
    requires DistinctNames(a) && p < |a|
    ensures multiset(a)[a[p]] == 1
  {
    assert a == a[..p] + [a[p]] + a[p + 1..];
    assert a[p] !in a[..p] && a[p] !in a[p + 1..];
  }

  /** Reordering a list whose names are distinct keeps them distinct. */
  lemma DistinctPermutation(a: seq<PersonTotal>, b: seq<PersonTotal>)
    requires DistinctNames(a) && multiset(a) == multiset(b)
    ensures DistinctNames(b)
  {
    forall i, j | 0 <= i < j < |b|
      ensures b[i].name != b[j].name
    {
      assert b[i] in multiset(a) && b[j] in multiset(a);
      var p :| 0 <= p < |a| && a[p] == b[i];
      var q :| 0 <= q < |a| && a[q] == b[j];
      CountOne(a, p);
      CountTwo(b, i, j);
      assert b[i] != b[j];
      assert p != q;
    }
  }
}
