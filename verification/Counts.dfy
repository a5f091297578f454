/** The three numbers reported for a config set, and their sums over lists of such records. */
module Counts {

  datatype CsetCounts = CsetCounts(setName: string, total: int, used: int, requests: int)

  datatype Counter = Total | Used | Requests

  function Get(c: CsetCounts, k: Counter): int {
    match k
    case Total => c.total
    case Used => c.used
    case Requests => c.requests
  }

  function SumOf(cs: seq<CsetCounts>, k: Counter): int {
    if cs == [] then 0 else SumOf(cs[..|cs| - 1], k) + Get(cs[|cs| - 1], k)
  }

  /** The sum over the records of one set. */
  function SumNamed(cs: seq<CsetCounts>, setName: string, k: Counter): int {
    if cs == [] then 0
    else
      var c := cs[|cs| - 1];
      SumNamed(cs[..|cs| - 1], setName, k) + if c.setName == setName then Get(c, k) else 0
  }

  ghost function Names(cs: seq<CsetCounts>): set<string> {
    set c | c in cs :: c.setName
  }

  ghost predicate DistinctNames(cs: seq<CsetCounts>) {
    forall i, j :: 0 <= i < j < |cs| ==> cs[i].setName != cs[j].setName
  }

  lemma SumOfAppend(cs: seq<CsetCounts>, c: CsetCounts, k: Counter)
    ensures SumOf(cs + [c], k) == SumOf(cs, k) + Get(c, k)
  {
    assert (cs + [c])[..|cs|] == cs;
  }

  lemma SumNamedAppend(cs: seq<CsetCounts>, c: CsetCounts, setName: string, k: Counter)
    ensures SumNamed(cs + [c], setName, k)
         == SumNamed(cs, setName, k) + if c.setName == setName then Get(c, k) else 0
  {
    assert (cs + [c])[..|cs|] == cs;
  }

  lemma {:induction false} SumOfConcat(cs: seq<CsetCounts>, ds: seq<CsetCounts>, k: Counter)
    ensures SumOf(cs + ds, k) == SumOf(cs, k) + SumOf(ds, k)
  {
    if ds == [] {
      assert cs + ds == cs;
    } else {
      var init, d := ds[..|ds| - 1], ds[|ds| - 1];
      SumOfConcat(cs, init, k);
      assert cs + ds == (cs + init) + [d];
      SumOfAppend(cs + init, d, k);
    }
  }

  lemma {:induction false} SumNamedConcat(cs: seq<CsetCounts>, ds: seq<CsetCounts>, setName: string, k: Counter)
    ensures SumNamed(cs + ds, setName, k) == SumNamed(cs, setName, k) + SumNamed(ds, setName, k)
  {
    if ds == [] {
      assert cs + ds == cs;
    } else {
      var init, d := ds[..|ds| - 1], ds[|ds| - 1];
      SumNamedConcat(cs, init, setName, k);
      assert cs + ds == (cs + init) + [d];
      SumNamedAppend(cs + init, d, setName, k);
    }
  }

  lemma {:induction false} SumNamedAbsent(cs: seq<CsetCounts>, setName: string, k: Counter)
    requires setName !in Names(cs)
    ensures SumNamed(cs, setName, k) == 0
  {
    if cs == [] {
    } else {
      assert cs[|cs| - 1] in cs;
      SumNamedAbsent(cs[..|cs| - 1], setName, k);
    }
  }
}
