/**
 The crypto configuration: what a configuration file holds after parsing, which configurations
 are accepted, and the two lookups in an accepted one.
 */
module CryptoConfig {
  import opened Wrappers

  /** One entry of the "apqns" list of a set; an empty machine id stands for every machine. */
  datatype ApqnDef = ApqnDef(adapter: int, domain: int, machineId: string)

  /** One parsed config set; overcommit and livesysfs are optional in the file. */
  datatype SetDef = SetDef(
    setName: string,
    project: string,
    cexMode: string,
    minCexGen: string,
    overcommit: Option<int>,
    livesysfs: Option<int>,
    apqns: seq<ApqnDef>)

  /** The environment's limits for sets that leave overcommit or livesysfs out. */
  datatype Limits = Limits(overcommit: int, livesysfs: int)

  type Defaults = l: Limits | 1 <= l.overcommit <= 100 && 0 <= l.livesysfs <= 1 witness Limits(1, 1)

  /** Two definitions may both stand in one configuration. */
  predicate Compatible(a1: ApqnDef, a2: ApqnDef) {
    a1.adapter == a2.adapter && a1.domain == a2.domain ==>
      a1.machineId != a2.machineId && a1.machineId != "" && a2.machineId != ""
  }

  /** The definition assigns this queue of this machine. */
  predicate Covers(a: ApqnDef, machineId: string, adapter: int, domain: int) {
    a.adapter == adapter && a.domain == domain && (a.machineId == "" || a.machineId == machineId)
  }

  /** Compatible definitions are those that no queue of any machine falls under twice. */
  lemma CompatibleIffNoCommonQueue(a1: ApqnDef, a2: ApqnDef)
    ensures Compatible(a1, a2) <==>
            !exists m: string, ap: int, dom: int :: Covers(a1, m, ap, dom) && Covers(a2, m, ap, dom)
  {
    if !Compatible(a1, a2) {
      var m := if a1.machineId == "" then a2.machineId else a1.machineId;
      assert Covers(a1, m, a1.adapter, a1.domain) && Covers(a2, m, a1.adapter, a1.domain);
    }
  }

  predicate ValidMode(mode: string) {
    mode in {"", "ep11", "cca", "accel"}
  }

  /** Empty, or "cex4" to "cex9". */
  predicate ValidMinGen(gen: string) {
    gen == "" || (|gen| == 4 && gen[..3] == "cex" && '4' <= gen[3] <= '9')
  }

  predicate ValidOptional(v: Option<int>) {
    v.Some? ==> v.value >= 0
  }

  predicate InRange(a: ApqnDef) {
    0 <= a.adapter <= 255 && 0 <= a.domain <= 255
  }

  /** The checks that look at one set alone, its queue definitions aside. */
  predicate ValidHeader(s: SetDef, isQualifiedName: string -> bool) {
    && isQualifiedName(s.setName)
    && s.project != ""
    && ValidMode(s.cexMode)
    && ValidMinGen(s.minCexGen)
    && ValidOptional(s.overcommit)
    && ValidOptional(s.livesysfs)
  }

  /** Definition k of set i is compatible with every other definition of the configuration. */
  ghost predicate NoConflict(defs: seq<SetDef>, i: nat, k: nat)
    requires i < |defs| && k < |defs[i].apqns|
  {
    forall j, n :: 0 <= j < |defs| && 0 <= n < |defs[j].apqns| && !(i == j && k == n) ==>
      Compatible(defs[i].apqns[k], defs[j].apqns[n])
  }

  ghost predicate UniqueName(defs: seq<SetDef>, i: nat)
    requires i < |defs|
  {
    forall j :: 0 <= j < |defs| && i != j ==> defs[i].setName != defs[j].setName
  }

  ghost predicate ValidSet(defs: seq<SetDef>, i: nat, isQualifiedName: string -> bool)
    requires i < |defs|
  {
    && ValidHeader(defs[i], isQualifiedName)
    && UniqueName(defs, i)
    && forall k :: 0 <= k < |defs[i].apqns| ==> InRange(defs[i].apqns[k]) && NoConflict(defs, i, k)
  }

  /** The configurations the plug-in accepts. */
  ghost predicate Verified(defs: seq<SetDef>, isQualifiedName: string -> bool) {
    forall i :: 0 <= i < |defs| ==> ValidSet(defs, i, isQualifiedName)
  }

  /** The first set of that name. */
  function Lookup(defs: seq<SetDef>, name: string): (r: Option<SetDef>)
    ensures r.Some? ==> r.value in defs && r.value.setName == name
    ensures r.None? ==> forall d :: d in defs ==> d.setName != name
  {
    if defs == [] then None
    else if defs[0].setName == name then Some(defs[0])
    else Lookup(defs[1..], name)
  }

  predicate CoveredBySet(s: SetDef, machineId: string, adapter: int, domain: int) {
    exists c :: c in s.apqns && Covers(c, machineId, adapter, domain)
  }

  /** The first set with a definition that covers the queue. */
  function LookupForApqn(defs: seq<SetDef>, adapter: int, domain: int, machineId: string): (r: Option<SetDef>)
    ensures r.Some? ==> r.value in defs && CoveredBySet(r.value, machineId, adapter, domain)
    ensures r.None? ==> forall d :: d in defs ==> !CoveredBySet(d, machineId, adapter, domain)
  {
    if defs == [] then None
    else if CoveredBySet(defs[0], machineId, adapter, domain) then Some(defs[0])
    else LookupForApqn(defs[1..], adapter, domain, machineId)
  }

  /** Looking a set of an accepted configuration up by its name finds that set. */
  lemma LookupFinds(defs: seq<SetDef>, i: nat, isQualifiedName: string -> bool)
    requires Verified(defs, isQualifiedName) && i < |defs|
    ensures Lookup(defs, defs[i].setName) == Some(defs[i])
  {
    var r := Lookup(defs, defs[i].setName);
    var j :| 0 <= j < |defs| && defs[j] == r.value;
    assert ValidSet(defs, i, isQualifiedName) && UniqueName(defs, i);
  }

  /** In an accepted configuration a queue of a machine belongs to at most one definition. */
  lemma CoverIsUnique(defs: seq<SetDef>, isQualifiedName: string -> bool,
                      i: nat, k: nat, j: nat, n: nat, machineId: string, adapter: int, domain: int)
    requires Verified(defs, isQualifiedName)
    requires i < |defs| && k < |defs[i].apqns| && j < |defs| && n < |defs[j].apqns|
    requires Covers(defs[i].apqns[k], machineId, adapter, domain)
    requires Covers(defs[j].apqns[n], machineId, adapter, domain)
    ensures i == j && k == n
  {
    assert ValidSet(defs, i, isQualifiedName);
    CompatibleIffNoCommonQueue(defs[i].apqns[k], defs[j].apqns[n]);
  }

  /** The reverse lookup finds the one set that covers the queue. */
  lemma LookupForApqnFinds(defs: seq<SetDef>, isQualifiedName: string -> bool,
                           i: nat, machineId: string, adapter: int, domain: int)
    requires Verified(defs, isQualifiedName) && i < |defs|
    requires CoveredBySet(defs[i], machineId, adapter, domain)
    ensures LookupForApqn(defs, adapter, domain, machineId) == Some(defs[i])
  {
    var r := LookupForApqn(defs, adapter, domain, machineId);
    var j :| 0 <= j < |defs| && defs[j] == r.value;
    var k :| 0 <= k < |defs[i].apqns| && Covers(defs[i].apqns[k], machineId, adapter, domain);
    var n :| 0 <= n < |defs[j].apqns| && Covers(defs[j].apqns[n], machineId, adapter, domain);
    CoverIsUnique(defs, isQualifiedName, i, k, j, n, machineId, adapter, domain);
  }

  /** The accepted configurations in terms of the file: its fields, its names and its queues. */
  lemma VerifiedMeans(defs: seq<SetDef>, isQualifiedName: string -> bool)
    ensures Verified(defs, isQualifiedName) <==>
            && (forall i :: 0 <= i < |defs| ==> FieldsAccepted(defs[i], isQualifiedName))
            && (forall i, j :: 0 <= i < |defs| && 0 <= j < |defs| && i != j ==> defs[i].setName != defs[j].setName)
            && (forall i, k, j, n | 0 <= i < |defs| && 0 <= k < |defs[i].apqns| && 0 <= j < |defs|
                   && 0 <= n < |defs[j].apqns| && (i != j || k != n) :: NeverBoth(defs[i].apqns[k], defs[j].apqns[n]))
  {
    forall a1: ApqnDef, a2: ApqnDef
      ensures NeverBoth(a1, a2) <==> Compatible(a1, a2)
    {
      NeverBothIff(a1, a2);
    }
    forall i | 0 <= i < |defs|
      ensures FieldsAccepted(defs[i], isQualifiedName) <==>
              && ValidHeader(defs[i], isQualifiedName)
              && forall k :: 0 <= k < |defs[i].apqns| ==> InRange(defs[i].apqns[k])
    {
      MinGenMeans(defs[i].minCexGen);
    }
    if Verified(defs, isQualifiedName) {
      forall i | 0 <= i < |defs|
        ensures ValidHeader(defs[i], isQualifiedName) && UniqueName(defs, i)
        ensures forall k :: 0 <= k < |defs[i].apqns| ==> InRange(defs[i].apqns[k]) && NoConflict(defs, i, k)
      {
        assert ValidSet(defs, i, isQualifiedName);
      }
    }
  }

  /** What is accepted of one set alone. */
  predicate FieldsAccepted(s: SetDef, isQualifiedName: string -> bool) {
    && isQualifiedName(s.setName) && |s.project| > 0
    && s.cexMode in ["", "ep11", "cca", "accel"]
    && s.minCexGen in ["", "cex4", "cex5", "cex6", "cex7", "cex8", "cex9"]
    && (s.overcommit.Some? ==> s.overcommit.value >= 0) && (s.livesysfs.Some? ==> s.livesysfs.value >= 0)
    && forall k :: 0 <= k < |s.apqns| ==> 0 <= s.apqns[k].adapter < 256 && 0 <= s.apqns[k].domain < 256
  }

  /** No machine gives one queue to both definitions. */
  ghost predicate NeverBoth(a1: ApqnDef, a2: ApqnDef) {
    forall m: string :: Named(a1, m) && Named(a2, m) ==> a1.adapter != a2.adapter || a1.domain != a2.domain
  }

  /** The definition is for this machine: by its name, or for every machine. */
  predicate Named(a: ApqnDef, machineId: string) {
    a.machineId == machineId || a.machineId == ""
  }

  lemma NeverBothIff(a1: ApqnDef, a2: ApqnDef)
    ensures NeverBoth(a1, a2) <==> Compatible(a1, a2)
  {
    if !Compatible(a1, a2) {
      var m := if a1.machineId == "" then a2.machineId else a1.machineId;
      assert Named(a1, m) && Named(a2, m);
    }
  }

  lemma MinGenMeans(gen: string)
    ensures ValidMinGen(gen) <==> gen in ["", "cex4", "cex5", "cex6", "cex7", "cex8", "cex9"]
  {
    if |gen| == 4 && gen[..3] == "cex" && '4' <= gen[3] <= '9' {
      assert gen == "cex" + [gen[3]];
      var c := gen[3];
      assert c == '4' || c == '5' || c == '6' || c == '7' || c == '8' || c == '9';
      assert "cex4" == "cex" + ['4'] && "cex5" == "cex" + ['5'] && "cex6" == "cex" + ['6'];
      assert "cex7" == "cex" + ['7'] && "cex8" == "cex" + ['8'] && "cex9" == "cex" + ['9'];
    }
  }
}
