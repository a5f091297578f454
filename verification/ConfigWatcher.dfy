/**
 Config set objects, their verification, and the watcher that publishes the current
 configuration together with the hash of the file it came from.
 */
module ConfigWatcher {
  import opened Wrappers
  import opened CryptoConfig

  /** A config set as the running plug-in holds it; its two limits are overwritten in place. */
  class CryptoConfigSet {
    const def: SetDef
    var overcommit: int
    var livesysfs: int

    constructor (def: SetDef)
      ensures this.def == def && overcommit == 0 && livesysfs == 0
    {
      this.def := def;
      overcommit, livesysfs := 0, 0;
    }
  }

  ghost function Defs(sets: seq<CryptoConfigSet>): seq<SetDef> {
    seq(|sets|, i requires 0 <= i < |sets| => sets[i].def)
  }

  /** The stored limit right after verification: -1 when the file gives none. */
  function Given(v: Option<int>): int {
    v.GetOr(-1)
  }

  /** The limit that holds for a set. */
  function Effective(v: Option<int>, default: int): int {
    v.GetOr(default)
  }

  ghost predicate AsGiven(s: CryptoConfigSet)
    reads s
  {
    s.overcommit == Given(s.def.overcommit) && s.livesysfs == Given(s.def.livesysfs)
  }

  /** Each limit is as given in the file, or the default has been filled in for a missing one. */
  ghost predicate Filled(s: CryptoConfigSet, env: Defaults)
    reads s
  {
    && s.overcommit in {Given(s.def.overcommit), Effective(s.def.overcommit, env.overcommit)}
    && s.livesysfs in {Given(s.def.livesysfs), Effective(s.def.livesysfs, env.livesysfs)}
  }

  ghost predicate Distinct(sets: seq<CryptoConfigSet>) {
    forall i, j :: 0 <= i < j < |sets| ==> sets[i] != sets[j]
  }

  method CheckUniqueName(sets: seq<CryptoConfigSet>, i: nat) returns (ok: bool)
    requires i < |sets|
    ensures ok <==> UniqueName(Defs(sets), i)
  {
    for j := 0 to |sets|
      invariant forall j' :: 0 <= j' < j && i != j' ==> sets[i].def.setName != sets[j'].def.setName
    {
      if i != j && sets[i].def.setName == sets[j].def.setName {
        assert Defs(sets)[j].setName == Defs(sets)[i].setName;
        return false;
      }
    }
    return true;
  }

  /** Definition k of set i against the definitions of its own set and of all others. */
  method CheckConflicts(sets: seq<CryptoConfigSet>, i: nat, k: nat) returns (ok: bool)
    requires i < |sets| && k < |sets[i].def.apqns|
    ensures ok <==> NoConflict(Defs(sets), i, k)
  {
    ghost var defs := Defs(sets);
    var s := sets[i].def;
    var a := s.apqns[k];
    for n := 0 to |s.apqns|
      invariant forall n' :: 0 <= n' < n && k != n' ==> Compatible(a, defs[i].apqns[n'])
    {
      if k != n && !Compatible(a, s.apqns[n]) {
        assert !Compatible(defs[i].apqns[k], defs[i].apqns[n]);
        return false;
      }
    }
    for j := 0 to |sets|
      invariant forall j', n' :: 0 <= j' < j && i != j' && 0 <= n' < |defs[j'].apqns| ==>
          Compatible(a, defs[j'].apqns[n'])
    {
      if i != j {
        var s2 := sets[j].def;
        for n := 0 to |s2.apqns|
          invariant forall n' :: 0 <= n' < n ==> Compatible(a, defs[j].apqns[n'])
        {
          if !Compatible(a, s2.apqns[n]) {
            assert !Compatible(defs[i].apqns[k], defs[j].apqns[n]);
            return false;
          }
        }
      }
    }
    return true;
  }

  method CheckApqns(sets: seq<CryptoConfigSet>, i: nat) returns (ok: bool)
    requires i < |sets|
    ensures ok <==> forall k :: 0 <= k < |sets[i].def.apqns| ==>
                      InRange(sets[i].def.apqns[k]) && NoConflict(Defs(sets), i, k)
  {
    var s := sets[i].def;
    for k := 0 to |s.apqns|
      invariant forall k' :: 0 <= k' < k ==> InRange(s.apqns[k']) && NoConflict(Defs(sets), i, k')
    {
      var a := s.apqns[k];
      if a.adapter < 0 || a.adapter > 255 {
        return false;
      }
      if a.domain < 0 || a.domain > 255 {
        return false;
      }
      var free := CheckConflicts(sets, i, k);
      if !free {
        return false;
      }
    }
    return true;
  }

  /** Checks set i and stores its optional limits in the set object. */
  method VerifySet(sets: seq<CryptoConfigSet>, i: nat, isQualifiedName: string -> bool) returns (ok: bool)
    requires i < |sets|
    modifies sets[i]
    ensures ok <==> ValidSet(Defs(sets), i, isQualifiedName)
    ensures ok ==> AsGiven(sets[i])
  {
    var s := sets[i];
    assert Defs(sets)[i] == s.def;
    if !isQualifiedName(s.def.setName) {
      return false;
    }
    var unique := CheckUniqueName(sets, i);
    if !unique {
      return false;
    }
    if |s.def.project| == 0 {
      return false;
    }
    if |s.def.cexMode| > 0 && !ValidMode(s.def.cexMode) {
      return false;
    }
    if |s.def.minCexGen| > 0 && !ValidMinGen(s.def.minCexGen) {
      return false;
    }
    s.overcommit := -1;
    if s.def.overcommit.Some? {
      if s.def.overcommit.value < 0 {
        return false;
      }
      s.overcommit := s.def.overcommit.value;
    }
    s.livesysfs := -1;
    if s.def.livesysfs.Some? {
      if s.def.livesysfs.value < 0 {
        return false;
      }
      s.livesysfs := s.def.livesysfs.value;
    }
    ok := CheckApqns(sets, i);
  }

  /** Accepts exactly the verified configurations and leaves their limits as the file gives them. */
  method Verify(sets: seq<CryptoConfigSet>, isQualifiedName: string -> bool) returns (ok: bool)
    requires Distinct(sets)
    modifies sets
    ensures ok <==> Verified(Defs(sets), isQualifiedName)
    ensures ok ==> forall i :: 0 <= i < |sets| ==> AsGiven(sets[i])
  {
    for i := 0 to |sets|
      invariant forall k :: 0 <= k < i ==> ValidSet(Defs(sets), k, isQualifiedName)
      invariant forall k :: 0 <= k < i ==> AsGiven(sets[k])
    {
      var good := VerifySet(sets, i, isQualifiedName);
      if !good {
        return false;
      }
    }
    return true;
  }

  /** The set object of that name. */
  function FindSet(sets: seq<CryptoConfigSet>, name: string): (r: CryptoConfigSet?)
    ensures r != null ==> r in sets
    ensures match Lookup(Defs(sets), name)
            case None => r == null
            case Some(d) => r != null && r.def == d
  {
    if sets == [] then null
    else
      assert Defs(sets)[1..] == Defs(sets[1..]);
      if sets[0].def.setName == name then sets[0] else FindSet(sets[1..], name)
  }

  /** The content of a configuration file; parsed is None when it is not readable as JSON. */
  datatype File = File(bytes: seq<bv8>, parsed: Option<seq<SetDef>>)

  /** The file's hash; different contents have different hashes. */
  datatype Tag = Sha256(file: File)

  /** The sets object is the one the hashed file defines under that name, up to filled-in defaults. */
  ghost predicate Describes(ccset: CryptoConfigSet?, resource: string, tag: Option<Tag>, env: Defaults)
    reads ccset
  {
    match CurrentDef(resource, tag)
    case None => ccset == null
    case Some(def) => ccset != null && ccset.def == def && Filled(ccset, env)
  }

  /** The definition of a resource in the configuration the tag stands for. */
  function CurrentDef(resource: string, tag: Option<Tag>): Option<SetDef> {
    if tag.None? || tag.value.file.parsed.None? then None
    else Lookup(tag.value.file.parsed.value, resource)
  }

  method ParseSets(defs: seq<SetDef>) returns (sets: seq<CryptoConfigSet>)
    ensures Defs(sets) == defs && Distinct(sets)
    ensures forall i :: 0 <= i < |sets| ==> fresh(sets[i])
  {
    sets := [];
    for i := 0 to |defs|
      invariant |sets| == i && Distinct(sets)
      invariant forall k :: 0 <= k < i ==> sets[k].def == defs[k]
      invariant forall k :: 0 <= k < i ==> fresh(sets[k])
    {
      var s := new CryptoConfigSet(defs[i]);
      sets := sets + [s];
    }
  }

  /** One look at the configuration file: its content when hashed, and whether it can be read again. */
  datatype FileRead = FileRead(file: Option<File>, readable: bool)

  /** The tag after a look at the file: kept, that of a file which holds a verified configuration, or none. */
  ghost function NextTag(tag: Option<Tag>, r: FileRead, isQualifiedName: string -> bool): Option<Tag> {
    if r.file.None? || tag == Some(Sha256(r.file.value)) then tag
    else if r.readable && r.file.value.parsed.Some? && Verified(r.file.value.parsed.value, isQualifiedName)
    then Some(Sha256(r.file.value))
    else None
  }

  ghost function TagAfter(tag: Option<Tag>, rs: seq<FileRead>, isQualifiedName: string -> bool): Option<Tag> {
    if rs == [] then tag
    else NextTag(TagAfter(tag, rs[..|rs| - 1], isQualifiedName), rs[|rs| - 1], isQualifiedName)
  }

  /**
     After a look at a file that could be hashed, that very file's tag is in force or none is; and none is, if
     the file does not hold an acceptable configuration and the tag before was an acceptable one's.
   */
  lemma LastLookCounts(tag: Option<Tag>, rs: seq<FileRead>, isQualifiedName: string -> bool)
    requires tag.Some? ==> Acceptable(tag.value.file, isQualifiedName)
    ensures var now := TagAfter(tag, rs, isQualifiedName);
            && (now.Some? ==> Acceptable(now.value.file, isQualifiedName))
            && (rs != [] && rs[|rs| - 1].file.Some? ==>
                  && (now.None? || now.value.file == rs[|rs| - 1].file.value)
                  && (!Acceptable(rs[|rs| - 1].file.value, isQualifiedName) ==> now.None?))
  {
    if rs == [] {
    } else {
      LastLookCounts(tag, rs[..|rs| - 1], isQualifiedName);
    }
  }

  /** The file holds a configuration that is accepted. */
  ghost predicate Acceptable(file: File, isQualifiedName: string -> bool) {
    file.parsed.Some? && Verified(file.parsed.value, isQualifiedName)
  }

  class Watcher {
    const isQualifiedName: string -> bool
    const env: Defaults
    var cc: Option<seq<CryptoConfigSet>>
    var tag: Option<Tag>

    /** There is no configuration exactly when there is no tag; otherwise it is the tagged file's, and verified. */
    ghost predicate Valid()
      reads this, if cc.Some? then set s | s in cc.value else {}
    {
      match tag
      case None => cc.None?
      case Some(t) =>
        && cc.Some? && t.file.parsed == Some(Defs(cc.value)) && Verified(Defs(cc.value), isQualifiedName)
        && forall i :: 0 <= i < |cc.value| ==> Filled(cc.value[i], env)
    }

    constructor (isQualifiedName: string -> bool, env: Defaults)
      ensures Valid() && cc == None && tag == None
      ensures this.isQualifiedName == isQualifiedName && this.env == env
    {
      this.isQualifiedName, this.env := isQualifiedName, env;
      cc, tag := None, None;
    }

    /**
     One look at the configuration file. A file that cannot be hashed changes nothing; a changed
     file replaces the configuration, or removes it when it cannot be read, parsed or verified.
     */
    method UpdateConfig(file: Option<File>, readable: bool) returns (ok: bool)
      requires Valid()
      modifies this
      ensures Valid()
      ensures tag == old(tag) ==> cc == old(cc)
      ensures tag == NextTag(old(tag), FileRead(file, readable), isQualifiedName)
      ensures ok <==> file.Some? && tag == Some(Sha256(file.value))
      ensures ok <==> file.Some? &&
                      (old(tag) == Some(Sha256(file.value)) ||
                       (readable && file.value.parsed.Some? && Verified(file.value.parsed.value, isQualifiedName)))
      ensures file.None? ==> tag == old(tag)
      ensures file.Some? && !ok ==> cc.None? && tag.None?
      ensures tag != old(tag) && cc.Some? ==> forall i :: 0 <= i < |cc.value| ==>
                fresh(cc.value[i]) && AsGiven(cc.value[i])
    {
      if file.None? {
        return false;
      }
      var newtag := Sha256(file.value);
      if tag == Some(newtag) {
        return true;
      }
      cc, tag := None, None;
      if !readable || file.value.parsed.None? {
        return false;
      }
      var newcc := ParseSets(file.value.parsed.value);
      var good := Verify(newcc, isQualifiedName);
      if !good {
        return false;
      }
      cc, tag := Some(newcc), Some(newtag);
      return true;
    }

    /**
     The caller's cached set when its tag is the current one, else a fresh lookup. A cache that
     described the resource under its own tag is answered with one that does so under the current tag.
     */
    method GetCurrentCryptoConfigSet(ccset: CryptoConfigSet?, resource: string, cctag: Option<Tag>)
      returns (current: CryptoConfigSet?, currentTag: Option<Tag>)
      requires Valid()
      ensures currentTag == tag
      ensures cctag == tag ==> current == ccset
      ensures cctag != tag ==> Describes(current, resource, tag, env)
      ensures cctag != tag && current != null ==> cc.Some? && current in cc.value
      ensures Describes(ccset, resource, cctag, env) ==> Describes(current, resource, tag, env)
    {
      if cctag == tag {
        return ccset, cctag;
      }
      if cc.None? {
        return null, tag;
      }
      current, currentTag := FindSet(cc.value, resource), tag;
    }
  }

  /** A set's stored limit is the file's, or -1; the limit that holds is the file's, or the default. */
  lemma LimitsMean(v: Option<int>, default: int)
    ensures Given(v) == if v.Some? then v.value else -1
    ensures Effective(v, default) == if v.Some? then v.value else default
  {
  }
}
