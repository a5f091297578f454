/**
 The table in which the pod lister keeps for each device node or shadow directory when it was first
 seen and last used, the log of what happened to it, and what every log satisfies.
 */
module Tracking {
  import opened Wrappers
  import opened Clocks

  /** last is None until a container was seen with the resource. */
  datatype Entry = Entry(first: int, last: Option<int>)

  datatype AgeLimits = AgeLimits(neverUsed: nat, afterUse: nat)

  /** The resource is older than its limit: since its last use, or since it was first seen when there was none. */
  predicate Overdue(e: Entry, limits: AgeLimits, now: int) {
    match e.last
    case None => Seconds(e.first, now) > limits.neverUsed
    case Some(last) => Seconds(last, now) > limits.afterUse
  }

  datatype Event =
    | Added(name: string, at: int)
    | Marked(name: string, at: int)
    | Deleted(name: string, at: int)

  type Log = seq<Event>

  function After(e: Option<Entry>, event: Event): Option<Entry> {
    match event
    case Added(_, at) => Some(Entry(at, None))
    case Marked(_, at) => if e.Some? then Some(e.value.(last := Some(at))) else None
    case Deleted(_, _) => None
  }

  /** The entry a log leaves for a name. */
  function EntryOf(log: Log, name: string): Option<Entry> {
    if log == [] then None
    else
      var event := log[|log| - 1];
      var before := EntryOf(log[..|log| - 1], name);
      if event.name == name then After(before, event) else before
  }

  /** Only what is missing is added, only what is there is marked, and only what is expired is deleted. */
  predicate Justified(before: Option<Entry>, event: Event, limits: AgeLimits) {
    match event
    case Added(_, _) => before.None?
    case Marked(_, _) => before.Some?
    case Deleted(_, at) => before.Some? && Overdue(before.value, limits, at)
  }

  ghost predicate Faithful(log: Log, limits: AgeLimits) {
    && (forall k :: 0 <= k < |log| ==> Justified(EntryOf(log[..k], log[k].name), log[k], limits))
    && (forall i, j :: 0 <= i < j < |log| ==> log[i].at <= log[j].at)
  }

  lemma EntryOfAppend(log: Log, event: Event, name: string)
    ensures EntryOf(log + [event], name) ==
            if event.name == name then After(EntryOf(log, name), event) else EntryOf(log, name)
  {
    assert (log + [event])[..|log|] == log;
  }

  lemma FaithfulAppend(log: Log, event: Event, limits: AgeLimits)
    requires Faithful(log, limits)
    requires Justified(EntryOf(log, event.name), event, limits)
    requires forall k :: 0 <= k < |log| ==> log[k].at <= event.at
    ensures Faithful(log + [event], limits)
  {
    var log' := log + [event];
    forall k | 0 <= k < |log'|
      ensures Justified(EntryOf(log'[..k], log'[k].name), log'[k], limits)
    {
      assert log'[..k] == log[..k];
      assert log[..|log|] == log;
    }
  }

  /** No event of the log is later than now. */
  ghost predicate LoggedBy(log: Log, now: int) {
    forall k :: 0 <= k < |log| ==> log[k].at <= now
  }

  ghost predicate Agree(entries: map<string, Entry>, log: Log) {
    forall name :: EntryOf(log, name) == if name in entries then Some(entries[name]) else None
  }

  /** Entries are added for some of the names, as not used yet; the others stay as they are, and the log says so. */
  ghost predicate Noted(was: map<string, Entry>, now: map<string, Entry>, log: Log, log': Log, names: seq<string>,
                        since: int) {
    && log <= log'
    && (forall n :: n in was ==> n in now && now[n] == was[n])
    && (forall n :: n in now && n !in was ==> now[n].last == None && since <= now[n].first)
    && (forall k :: |log| <= k < |log'| ==> log'[k].Added? && log'[k].name in names && since <= log'[k].at)
  }

  function Applied(entries: map<string, Entry>, event: Event): map<string, Entry> {
    match event
    case Added(name, at) => entries[name := Entry(at, None)]
    case Marked(name, at) => if name in entries then entries[name := entries[name].(last := Some(at))] else entries
    case Deleted(name, _) => entries - {name}
  }

  /** A justified event keeps the table and the log in agreement. */
  lemma Logged(entries: map<string, Entry>, log: Log, event: Event, limits: AgeLimits)
    requires Faithful(log, limits) && Agree(entries, log)
    requires Justified(if event.name in entries then Some(entries[event.name]) else None, event, limits)
    requires LoggedBy(log, event.at)
    ensures Faithful(log + [event], limits) && Agree(Applied(entries, event), log + [event])
              && LoggedBy(log + [event], event.at)
  {
    assert EntryOf(log, event.name) == if event.name in entries then Some(entries[event.name]) else None;
    FaithfulAppend(log, event, limits);
    AppendEntries(log, event);
  }

  class Tracker {
    const limits: AgeLimits
    var entries: map<string, Entry>
    ghost var log: Log

    /** The table is what the log says. */
    ghost predicate Valid()
      reads this
    {
      Faithful(log, limits) && Agree(entries, log)
    }

    constructor (limits: AgeLimits)
      ensures Valid() && entries == map[] && log == [] && this.limits == limits
    {
      this.limits := limits;
      entries, log := map[], [];
    }

    /** Names seen for the first time are added, all others are left alone. */
    method NoteActive(names: seq<string>, clock: Clock)
      requires Valid() && LoggedBy(log, clock.now)
      modifies this, clock
      ensures Valid() && LoggedBy(log, clock.now) && clock.now >= old(clock.now)
      ensures entries.Keys == old(entries).Keys + set n | n in names
      ensures Noted(old(entries), entries, old(log), log, names, old(clock.now))
    {
      for i := 0 to |names|
        invariant Valid() && LoggedBy(log, clock.now) && clock.now >= old(clock.now)
        invariant entries.Keys == old(entries).Keys + set n | n in names[..i]
        invariant Noted(old(entries), entries, old(log), log, names, old(clock.now))
      {
        assert names[..i + 1] == names[..i] + [names[i]];
        if names[i] !in entries {
          Add(names[i], clock);
        }
      }
      assert names[..|names|] == names;
    }

    method Add(name: string, clock: Clock)
      requires Valid() && LoggedBy(log, clock.now) && name !in entries
      modifies this, clock
      ensures Valid() && LoggedBy(log, clock.now) && clock.now >= old(clock.now)
      ensures entries == old(entries)[name := Entry(clock.now, None)]
      ensures log == old(log) + [Added(name, clock.now)]
    {
      var t := clock.Read();
      Logged(entries, log, Added(name, t), limits);
      entries := entries[name := Entry(t, None)];
      log := log + [Added(name, t)];
    }

    /** A tracked name was seen in use; an unknown one is left out. */
    method Mark(name: string, clock: Clock)
      requires Valid() && LoggedBy(log, clock.now)
      modifies this, clock
      ensures Valid() && LoggedBy(log, clock.now) && clock.now >= old(clock.now)
      ensures name !in old(entries) ==> entries == old(entries) && log == old(log)
      ensures name in old(entries) ==>
                && entries == old(entries)[name := old(entries)[name].(last := Some(clock.now))]
                && log == old(log) + [Marked(name, clock.now)]
    {
      if name in entries {
        var t := clock.Read();
        Logged(entries, log, Marked(name, t), limits);
        entries := entries[name := entries[name].(last := Some(t))];
        log := log + [Marked(name, t)];
      }
    }

    /** Deletes one entry when it is expired at the moment of the check. */
    method ExpireOne(name: string, clock: Clock) returns (gone: bool)
      requires Valid() && LoggedBy(log, clock.now) && name in entries
      modifies this, clock
      ensures Valid() && LoggedBy(log, clock.now) && clock.now >= old(clock.now)
      ensures gone <==> Overdue(old(entries)[name], limits, clock.now)
      ensures old(entries)[name].last.None? ==>
                (gone <==> Seconds(old(entries)[name].first, clock.now) > limits.neverUsed)
      ensures old(entries)[name].last.Some? ==>
                (gone <==> Seconds(old(entries)[name].last.value, clock.now) > limits.afterUse)
      ensures entries == if gone then old(entries) - {name} else old(entries)
      ensures log == if gone then old(log) + [Deleted(name, clock.now)] else old(log)
    {
      var t := clock.Read();
      var e := entries[name];
      if e.last.None? {
        gone := Seconds(e.first, t) > limits.neverUsed;
      } else {
        gone := Seconds(e.last.value, t) > limits.afterUse;
      }
      if gone {
        Logged(entries, log, Deleted(name, t), limits);
        entries := entries - {name};
        log := log + [Deleted(name, t)];
      }
    }
  }

  lemma AppendEntries(log: Log, event: Event)
    ensures forall name :: EntryOf(log + [event], name) ==
              if event.name == name then After(EntryOf(log, name), event) else EntryOf(log, name)
  {
    forall name
      ensures EntryOf(log + [event], name) ==
              if event.name == name then After(EntryOf(log, name), event) else EntryOf(log, name)
    {
      EntryOfAppend(log, event, name);
    }
  }

  // ----- what a faithful log says -----

  /** Event j is the last one about the name before position k. */
  ghost predicate Latest(log: Log, name: string, j: nat, k: nat)
    requires k <= |log|
  {
    j < k && log[j].name == name && forall i :: j < i < k ==> log[i].name != name
  }

  lemma {:induction false} EntryFromLatest(log: Log, name: string)
    requires EntryOf(log, name).Some?
    ensures exists j: nat :: Latest(log, name, j, |log|) && !log[j].Deleted?
    ensures forall j: nat :: Latest(log, name, j, |log|) ==>
              match log[j]
              case Added(_, at) => EntryOf(log, name) == Some(Entry(at, None))
              case Marked(_, at) => EntryOf(log, name).value.last == Some(at)
              case Deleted(_, _) => false
  {
    var n := |log| - 1;
    var init := log[..n];
    if log[n].name == name {
      assert Latest(log, name, n, |log|);
    } else {
      EntryFromLatest(init, name);
      var j: nat :| Latest(init, name, j, n) && !init[j].Deleted?;
      assert Latest(log, name, j, |log|);
      forall i: nat | Latest(log, name, i, |log|)
        ensures Latest(init, name, i, n)
      {
      }
    }
  }

  lemma EntryOfPrefix(log: Log, k: nat, name: string)
    requires k <= |log|
    ensures forall j: nat :: Latest(log[..k], name, j, k) <==> Latest(log, name, j, k)
  {
  }

  /**
     Why anything was ever deleted: the last thing that happened to it before was a use that ended longer
     ago than the limit after use, or its first sighting, longer ago than the limit for what is never used.
   */
  lemma ReclaimedOnlyWhenExpired(log: Log, limits: AgeLimits, k: nat)
    requires Faithful(log, limits) && k < |log| && log[k].Deleted?
    ensures exists j: nat ::
              && Latest(log, log[k].name, j, k)
              && !log[j].Deleted?
              && Seconds(log[j].at, log[k].at) > if log[j].Marked? then limits.afterUse else limits.neverUsed
  {
    var name := log[k].name;
    EntryFromLatest(log[..k], name);
    EntryOfPrefix(log, k, name);
    var j: nat :| Latest(log[..k], name, j, k) && !log[..k][j].Deleted?;
    assert Latest(log, name, j, k);
  }

  /** A resource seen in use is never reclaimed before the limit after use has passed since then. */
  lemma {:induction false} NeverReclaimedSoonAfterUse(log: Log, limits: AgeLimits, j: nat, k: nat)
    requires Faithful(log, limits)
    requires j < k < |log| && log[j].Marked? && log[k].Deleted? && log[j].name == log[k].name
    ensures Seconds(log[j].at, log[k].at) > limits.afterUse
    decreases k
  {
    var name := log[k].name;
    ReclaimedOnlyWhenExpired(log, limits, k);
    var i: nat :| Latest(log, name, i, k) && !log[i].Deleted?
                  && Seconds(log[i].at, log[k].at) > if log[i].Marked? then limits.afterUse else limits.neverUsed;
    assert j <= i;
    if log[i].Marked? {
      SecondsMonotone(log[j].at, log[i].at, log[k].at, log[k].at);
    } else {
      var d := DeletedBeforeReAdded(log, limits, j, i);
      NeverReclaimedSoonAfterUse(log, limits, j, d);
      SecondsMonotone(log[j].at, log[j].at, log[d].at, log[k].at);
    }
  }

  /** A name that was marked and is added later was deleted in between. */
  lemma {:induction false} DeletedBeforeReAdded(log: Log, limits: AgeLimits, j: nat, i: nat) returns (d: nat)
    requires Faithful(log, limits)
    requires j < i < |log| && log[j].Marked? && log[i].Added? && log[j].name == log[i].name
    ensures j < d < i && log[d].Deleted? && log[d].name == log[i].name
  {
    var name := log[i].name;
    StillTracked(log, limits, j, i);
    d :| j < d < i && log[d].Deleted? && log[d].name == name;
  }

  lemma {:induction false} StillTracked(log: Log, limits: AgeLimits, j: nat, i: nat)
    requires Faithful(log, limits) && j < i <= |log| && log[j].Marked?
    ensures EntryOf(log[..i], log[j].name).Some? ||
            exists d :: j < d < i && log[d].Deleted? && log[d].name == log[j].name
    decreases i
  {
    assert log[..i][..i - 1] == log[..i - 1];
    if i == j + 1 {
      assert Justified(EntryOf(log[..j], log[j].name), log[j], limits);
    } else {
      StillTracked(log, limits, j, i - 1);
    }
  }

  // ----- what a single round can delete -----

  lemma {:induction false} EntryUntouched(log: Log, k: nat, n: nat, name: string)
    requires k <= n <= |log| && forall i :: k <= i < n ==> log[i].name != name
    ensures EntryOf(log[..n], name) == EntryOf(log[..k], name)
    decreases n
  {
    if n == k {
    } else {
      assert log[..n][..n - 1] == log[..n - 1];
      EntryUntouched(log, k, n - 1, name);
    }
  }

  /**
     A deletion in the part of a log that took no longer than the limits goes back to an entry that was there before and
     is overdue.
   */
  lemma DeletedInShortPart(log: Log, limits: AgeLimits, since: nat, k: nat, begunAt: int, endedAt: int)
    requires Faithful(log, limits) && since <= k < |log| && log[k].Deleted?
    requires forall i :: since <= i < |log| ==> begunAt <= log[i].at <= endedAt
    requires Seconds(begunAt, endedAt) <= limits.neverUsed && Seconds(begunAt, endedAt) <= limits.afterUse
    ensures forall i :: since <= i < k ==> log[i].name != log[k].name
    ensures EntryOf(log[..since], log[k].name).Some?
            && Overdue(EntryOf(log[..since], log[k].name).value, limits, endedAt)
  {
    var name := log[k].name;
    ReclaimedOnlyWhenExpired(log, limits, k);
    var j: nat :| Latest(log, name, j, k) && !log[j].Deleted?
                  && Seconds(log[j].at, log[k].at) > if log[j].Marked? then limits.afterUse else limits.neverUsed;
    if since <= j {
      SecondsMonotone(begunAt, log[j].at, log[k].at, endedAt);
    }
    assert j < since;
    EntryUntouched(log, since, k, name);
    var e := EntryOf(log[..since], name).value;
    assert Justified(EntryOf(log[..k], name), log[k], limits);
    SecondsMonotone(e.first, e.first, log[k].at, endedAt);
    if e.last.Some? {
      SecondsMonotone(e.last.value, e.last.value, log[k].at, endedAt);
    }
  }

  /** An entry that is neither marked nor deleted in the rest of a log is not added again and stays as it is. */
  lemma {:induction false} EntryKept(log: Log, limits: AgeLimits, since: nat, m: nat, name: string)
    requires Faithful(log, limits) && since <= m <= |log| && EntryOf(log[..since], name).Some?
    requires forall k :: since <= k < m && log[k].name == name ==> log[k].Added?
    ensures EntryOf(log[..m], name) == EntryOf(log[..since], name)
    decreases m
  {
    if m == since {
    } else {
      EntryKept(log, limits, since, m - 1, name);
      assert Justified(EntryOf(log[..m - 1], log[m - 1].name), log[m - 1], limits);
      assert log[..m][..m - 1] == log[..m - 1];
    }
  }
}
