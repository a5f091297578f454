/**
 The zcrypt device nodes of the kernel and the steps that create, configure and destroy them.
 Each step may fail; a schedule says which ones do.
 */
module Zcrypt {
  import opened Wrappers
  import opened DeviceIds

  /** The masks of a node: the adapters, domains and ioctls its users may reach. */
  datatype Node = Node(adapters: set<int>, domains: set<int>, ioctls: set<int>)

  const EMPTY_NODE := Node({}, {}, {})

  datatype Mask = ApMask | AqMask | IoctlMask

  const MASK_BITS := 256

  predicate IsBit(x: int) {
    0 <= x < MASK_BITS
  }

  function AllIoctls(): set<int> {
    set i | 0 <= i < MASK_BITS && IsBit(i)
  }

  /** The node of a device: its one adapter, its one domain, and every ioctl. */
  function FullNode(adapter: int, domain: int): Node {
    Node({adapter}, {domain}, AllIoctls())
  }

  function NodeName(adapter: int, domain: int, index: int): string {
    "zcrypt-" + DeviceId(adapter, domain, index)
  }

  lemma NodeNameInjective(a: int, d: int, i: int, a': int, d': int, i': int)
    requires NodeName(a, d, i) == NodeName(a', d', i')
    ensures a == a' && d == d' && i == i'
  {
    assert NodeName(a, d, i)[7..] == DeviceId(a, d, i);
    assert NodeName(a', d', i')[7..] == DeviceId(a', d', i');
    DeviceIdInjective(a, d, i, a', d', i');
  }

  type NodeTable = map<string, Node>

  /** Every device node gives access to the one queue and index it is named after. */
  ghost predicate Isolated(nodes: NodeTable) {
    forall a, d, i {:trigger NodeName(a, d, i)} :: NodeName(a, d, i) in nodes ==>
      nodes[NodeName(a, d, i)] == FullNode(a, d)
  }

  /** No device node gives access to any other queue than the one it is named after. */
  ghost predicate Confined(nodes: NodeTable) {
    forall a, d, i {:trigger NodeName(a, d, i)} :: NodeName(a, d, i) in nodes ==>
      nodes[NodeName(a, d, i)].adapters <= {a} && nodes[NodeName(a, d, i)].domains <= {d}
  }

  // ----- mask text -----

  function Entry(x: int): string {
    "+" + FormatInt(x)
  }

  /** The numbers as the drivers want them: each with a plus sign, separated by commas. */
  function PlusList(l: seq<int>): string {
    if l == [] then ""
    else if |l| == 1 then Entry(l[0])
    else PlusList(l[..|l| - 1]) + ("," + Entry(l[|l| - 1]))
  }

  /** How a driver reads such a line: the bits to set; None when the line is malformed or a bit out of range. */
  function DecodeMask(s: string): Option<set<int>>
    decreases |s|
  {
    if s == "" || s[0] != '+' then None
    else
      var r := ScanNat(s[1..]);
      if r.NoNumber? || !IsBit(r.value) then None else Join(r.value, DecodeTail(r.rest))
  }

  /** Behind a number comes the end of the line or a comma and more of them. */
  function DecodeTail(s: string): Option<set<int>>
    decreases |s|
  {
    if s == "\n" then Some({})
    else if s != "" && s[0] == ',' then DecodeMask(s[1..])
    else None
  }

  function Join(v: int, more: Option<set<int>>): Option<set<int>> {
    if more.None? then None else Some({v} + more.value)
  }

  ghost predicate AreBits(l: seq<int>) {
    forall x :: x in l ==> IsBit(x)
  }

  ghost function Elements(l: seq<int>): set<int> {
    set x | x in l
  }

  lemma DecodePlus(t: string)
    ensures DecodeMask(['+'] + t) ==
            var r := ScanNat(t);
            if r.NoNumber? || !IsBit(r.value) then None else Join(r.value, DecodeTail(r.rest))
  {
    assert (['+'] + t)[1..] == t;
  }

  lemma NoDigitNoNumber(t: string)
    requires t == "" || !IsDigit(t[0])
    ensures ScanNat(t) == NoNumber
  {
  }

  lemma DecodeEntry(x: int, rest: string)
    requires rest != "" && !IsDigit(rest[0])
    ensures DecodeMask(Entry(x) + rest) == if IsBit(x) then Join(x, DecodeTail(rest)) else None
  {
    assert Entry(x) + rest == ['+'] + (FormatInt(x) + rest);
    DecodePlus(FormatInt(x) + rest);
    if x < 0 {
      assert (FormatInt(x) + rest)[0] == '-';
      NoDigitNoNumber(FormatInt(x) + rest);
    } else {
      ScanFormatNat(x, rest);
    }
  }

  lemma DecodeTailOfEntry(x: int, rest: string)
    requires rest != "" && !IsDigit(rest[0])
    ensures DecodeTail("," + Entry(x) + rest) == if IsBit(x) then Join(x, DecodeTail(rest)) else None
  {
    DecodeEntry(x, rest);
    DecodeComma(Entry(x) + rest);
    assert "," + Entry(x) + rest == [','] + (Entry(x) + rest);
  }

  lemma DecodeComma(t: string)
    ensures DecodeTail([','] + t) == DecodeMask(t)
  {
    assert ([','] + t)[1..] == t;
  }

  lemma PlusListSplit(init: seq<int>, x: int, rest: string)
    requires init != []
    ensures PlusList(init + [x]) + rest == PlusList(init) + ("," + Entry(x) + rest)
  {
    PlusListAppend(init, x);
    Associate(PlusList(init), ",", Entry(x), rest);
  }

  lemma Associate(a: string, b: string, c: string, d: string)
    ensures a + (b + c) + d == a + (b + c + d)
  {
  }

  lemma DecodeSingle(l: seq<int>, rest: string)
    requires |l| == 1 && rest != "" && !IsDigit(rest[0])
    ensures DecodeMask(PlusList(l) + rest) ==
            if AreBits(l) && DecodeTail(rest).Some? then Some(Elements(l) + DecodeTail(rest).value) else None
  {
    DecodeEntry(l[0], rest);
    assert l == [l[0]];
    assert Elements(l) == {l[0]};
  }

  lemma ElementsAppend(init: seq<int>, x: int)
    ensures Elements(init + [x]) == Elements(init) + {x}
    ensures AreBits(init + [x]) <==> AreBits(init) && IsBit(x)
  {
    assert forall y :: y in init + [x] <==> y in init || y == x;
  }

  /** The line written for a list is accepted exactly when all its numbers are bits, and sets exactly those. */
  lemma {:induction false} DecodePlusList(l: seq<int>, rest: string)
    requires l != [] && rest != "" && !IsDigit(rest[0])
    ensures DecodeMask(PlusList(l) + rest) ==
            if AreBits(l) && DecodeTail(rest).Some? then Some(Elements(l) + DecodeTail(rest).value) else None
    decreases |l|
  {
    if |l| == 1 {
      DecodeSingle(l, rest);
    } else {
      var init, x := l[..|l| - 1], l[|l| - 1];
      var tail := "," + Entry(x) + rest;
      DecodePlusList(init, tail);
      DecodeTailOfEntry(x, rest);
      DecodeStep(init, x, rest);
      assert l == init + [x];
    }
  }

  /** A whole line. */
  lemma DecodeLine(l: seq<int>)
    ensures l != [] ==> DecodeMask(PlusList(l) + "\n") == if AreBits(l) then Some(Elements(l)) else None
  {
    if l != [] {
      DecodePlusList(l, "\n");
      assert Elements(l) + {} == Elements(l);
    }
  }

  lemma Singleton(x: int)
    ensures Elements([x]) == {x} && (AreBits([x]) <==> IsBit(x))
  {
    assert [x][0] == x;
  }

  lemma WidenedStepwise(adapter: int, domain: int)
    ensures WithBits(EMPTY_NODE, ApMask, {adapter}) == Node({adapter}, {}, {})
    ensures WithBits(Node({adapter}, {}, {}), AqMask, {domain}) == Node({adapter}, {domain}, {})
    ensures WithBits(Node({adapter}, {domain}, {}), IoctlMask, AllIoctls()) == FullNode(adapter, domain)
  {
    assert {} + AllIoctls() == AllIoctls();
  }

  lemma AddedAndGone(nodes: NodeTable, name: string, n: Node)
    requires name !in nodes
    ensures nodes[name := n] - {name} == nodes
  {
  }

  lemma DecodeStep(init: seq<int>, x: int, rest: string)
    requires init != [] && rest != ""
    requires var tail := "," + Entry(x) + rest;
             && DecodeTail(tail) == (if IsBit(x) then Join(x, DecodeTail(rest)) else None)
             && DecodeMask(PlusList(init) + tail) ==
                if AreBits(init) && DecodeTail(tail).Some? then Some(Elements(init) + DecodeTail(tail).value) else None
    ensures var l := init + [x];
            DecodeMask(PlusList(l) + rest) ==
            if AreBits(l) && DecodeTail(rest).Some? then Some(Elements(l) + DecodeTail(rest).value) else None
  {
    PlusListSplit(init, x, rest);
    ElementsAppend(init, x);
    if DecodeTail(rest).Some? {
      var more := DecodeTail(rest).value;
      assert Elements(init) + ({x} + more) == Elements(init) + {x} + more;
    }
  }

  lemma PlusListAppend(init: seq<int>, x: int)
    ensures PlusList(init + [x]) == if init == [] then Entry(x) else PlusList(init) + ("," + Entry(x))
  {
    assert (init + [x])[..|init|] == init;
  }

  lemma OneLonger<T>(l: seq<T>, i: nat)
    requires i < |l|
    ensures l[..i + 1] == l[..i] + [l[i]]
  {
  }

  method JoinPlus(l: seq<int>) returns (s: string)
    ensures s == PlusList(l)
  {
    s := "";
    for i := 0 to |l|
      invariant s == PlusList(l[..i])
    {
      PlusListAppend(l[..i], l[i]);
      OneLonger(l, i);
      if i > 0 {
        s := s + ("," + Entry(l[i]));
      } else {
        s := Entry(l[i]);
      }
    }
    assert l[..|l|] == l;
  }

  // ----- the steps -----

  /** The outcome of looking for a device file: there, not there yet, or an error. */
  datatype Stat = Present | Absent | StatError

  const POLLS := 8

  class ZcryptNodes {
    /** Whether step n of an operation works, and what looking for a file yields at step n. */
    const works: nat -> bool
    const stat: nat -> Stat
    const destroys: nat -> bool

    var nodes: NodeTable
    var steps: nat

    constructor (works: nat -> bool, stat: nat -> Stat, destroys: nat -> bool, nodes: NodeTable)
      ensures this.works == works && this.stat == stat && this.destroys == destroys
      ensures this.nodes == nodes && steps == 0
    {
      this.works, this.stat, this.destroys := works, stat, destroys;
      this.nodes, steps := nodes, 0;
    }

    /** Every destroy since the given step worked. */
    ghost predicate DestroysWork(since: nat)
      reads this
    {
      forall n :: since <= n < steps ==> destroys(n)
    }

    method DestroyNode(name: string)
      modifies this
      ensures steps == old(steps) + 1
      ensures nodes == if destroys(old(steps)) then old(nodes) - {name} else old(nodes)
    {
      if destroys(steps) {
        nodes := nodes - {name};
      }
      steps := steps + 1;
    }

    /** Whether the device file is found; a failing look counts as a no. */
    method NodeExists(name: string) returns (found: bool)
      modifies this`steps
      ensures steps == old(steps) + 1
      ensures found <==> works(old(steps)) && name in nodes
    {
      found := works(steps) && name in nodes;
      steps := steps + 1;
    }

    /** The device file is there at one of the first eight looks, and no look before that fails. */
    ghost predicate Appears(since: nat) {
      exists n :: since <= n < since + POLLS && stat(n) == Present && forall j :: since <= j < n ==> stat(j) == Absent
    }

    /** How often the device file is looked for, given how often it still may be. */
    ghost function Looks(since: nat, left: nat): nat
      decreases left
    {
      if left == 0 then 0 else if stat(since) == Absent then 1 + Looks(since + 1, left - 1) else 1
    }

    /** Looking ends with the first look that finds the file or fails, or when none is left. */
    lemma {:induction false} LooksUntil(since: nat, left: nat, n: nat)
      requires n <= left && forall j :: since <= j < since + n ==> stat(j) == Absent
      requires n < left ==> stat(since + n) != Absent
      ensures Looks(since, left) == if n < left then n + 1 else n
      decreases n
    {
      if n == 0 {
        // the first look is the last, or there is none
      } else {
        LooksUntil(since + 1, left - 1, n - 1);
      }
    }

    /** The look that ends it tells whether the file appears. */
    lemma LastLookTells(since: nat, n: nat)
      requires n <= POLLS && forall j :: since <= j < since + n ==> stat(j) == Absent
      requires n < POLLS ==> stat(since + n) != Absent
      ensures Appears(since) <==> n < POLLS && stat(since + n) == Present
    {
    }

    /** The nap after look k, in ms. */
    function Nap(k: nat): nat {
      if k == 0 then 25 else 2 * Nap(k - 1)
    }

    lemma NapOf8(k: nat)
      requires k <= POLLS
      ensures Nap(k) <= 3200 <==> k < POLLS
      ensures Nap(k) <= 6400
    {
      assert Nap(4) == 400 && Nap(8) == 6400;
    }

    /** Looks for the device file, at most eight times with doubled naps from 25 to 3200 ms in between. */
    method AwaitDevice() returns (ok: bool)
      modifies this`steps
      ensures steps == old(steps) + Looks(old(steps), POLLS)
      ensures ok <==> Appears(old(steps))
    {
      ok := false;
      var w := 25;
      ghost var k: nat := 0;
      while !ok && w <= 3200
        invariant k <= POLLS && w == Nap(k)
        invariant steps == old(steps) + k
        invariant ok ==> k > 0 && stat(steps - 1) == Present
        invariant forall j :: old(steps) <= j < (if ok then steps - 1 else steps) ==> stat(j) == Absent
        decreases 6400 - w
      {
        NapOf8(k);
        NapOf8(k + 1);
        var r := stat(steps);
        steps := steps + 1;
        if r == StatError {
          LooksUntil(old(steps), POLLS, k);
          LastLookTells(old(steps), k);
          return false;
        }
        if r == Present {
          ok := true;
        }
        w := w * 2;
        k := k + 1;
      }
      NapOf8(k);
      LooksUntil(old(steps), POLLS, if ok then k - 1 else k);
      LastLookTells(old(steps), if ok then k - 1 else k);
    }

    // ----- what a schedule makes of a node, when its making begins at step s -----

    /** The step that changes the mode of the device file, after the file was waited for. */
    ghost function ModeStep(s: nat): nat {
      s + 1 + Looks(s + 1, POLLS)
    }

    ghost predicate CreateWorks(s: nat) {
      works(s) && Appears(s + 1) && works(ModeStep(s))
    }

    /** The node was created, a later step of its creation failed, and so did destroying it. */
    ghost predicate CreateLeaves(s: nat) {
      works(s) && if !Appears(s + 1) then !destroys(ModeStep(s)) else !works(ModeStep(s)) && !destroys(ModeStep(s) + 1)
    }

    /** A mask file is opened and written. */
    ghost predicate WriteWorks(s: nat) {
      works(s) && works(s + 1)
    }

    /** The node that stands after a simple node's making, complete or not. */
    ghost function NodeLeft(s: nat, adapter: int, domain: int): Option<Node> {
      var m := ModeStep(s);
      if !CreateWorks(s) then (if CreateLeaves(s) then Some(EMPTY_NODE) else None)
      else if !(WriteWorks(m + 1) && IsBit(adapter)) then Some(EMPTY_NODE)
      else if !(WriteWorks(m + 3) && IsBit(domain)) then Some(Node({adapter}, {}, {}))
      else if !WriteWorks(m + 5) then Some(Node({adapter}, {domain}, {}))
      else Some(FullNode(adapter, domain))
    }

    /** All steps of a simple node's making work. */
    ghost predicate SimpleWorks(s: nat, adapter: int, domain: int) {
      var m := ModeStep(s);
      CreateWorks(s) && IsBit(adapter) && IsBit(domain) && WriteWorks(m + 1) && WriteWorks(m + 3) && WriteWorks(m + 5)
    }

    /** The node left is the full one exactly when every step worked. */
    lemma FullIffSimpleWorks(s: nat, adapter: int, domain: int)
      ensures NodeLeft(s, adapter, domain) == Some(FullNode(adapter, domain)) <==> SimpleWorks(s, adapter, domain)
    {
      assert 0 in AllIoctls();
    }

    lemma AllWorkAppears(s: nat)
      requires AllWork()
      ensures Appears(s) && Looks(s, POLLS) == 1
    {
      assert stat(s) == Present;
    }

    /** A new node has empty masks; when a step behind its creation fails it is destroyed again. */
    method CreateNode(name: string) returns (ok: bool)
      modifies this
      ensures steps >= old(steps)
      ensures ok <==> name !in old(nodes) && CreateWorks(old(steps))
      ensures ok ==> steps == ModeStep(old(steps)) + 1
      ensures nodes == if name !in old(nodes) && (ok || CreateLeaves(old(steps)))
                       then old(nodes)[name := EMPTY_NODE] else old(nodes)
    {
      var found := works(steps);
      steps := steps + 1;
      if !found || name in nodes {
        return false;
      }
      AddedAndGone(nodes, name, EMPTY_NODE);
      nodes := nodes[name := EMPTY_NODE];
      var appeared := AwaitDevice();
      if !appeared {
        DestroyNode(name);
        return false;
      }
      var moded := works(steps);
      steps := steps + 1;
      if !moded {
        DestroyNode(name);
        return false;
      }
      return true;
    }

    ghost predicate AllWork() {
      forall n :: works(n) && stat(n) == Present
    }

    /** Writing a line to a mask file of a node; the driver adds the bits or refuses the line. */
    method WriteMask(name: string, mask: Mask, text: string) returns (ok: bool)
      modifies this
      ensures steps == old(steps) + 1
      ensures ok <==> works(old(steps)) && name in old(nodes) && DecodeMask(text).Some?
      ensures nodes == if ok then old(nodes)[name := WithBits(old(nodes)[name], mask, DecodeMask(text).value)]
                else old(nodes)
    {
      ok := works(steps) && name in nodes && DecodeMask(text).Some?;
      steps := steps + 1;
      if ok {
        nodes := nodes[name := WithBits(nodes[name], mask, DecodeMask(text).value)];
      }
    }

    /** Adds a list of adapters or domains to a node; an empty list writes nothing. */
    method AddToNode(name: string, mask: Mask, l: seq<int>) returns (ok: bool)
      modifies this
      ensures steps >= old(steps) && (ok && l != [] ==> steps == old(steps) + 2)
      ensures l != [] ==> (ok <==> WriteWorks(old(steps)) && name in old(nodes) && AreBits(l))
      ensures !ok || l == [] ==> nodes == old(nodes)
      ensures ok && l != [] ==>
                && AreBits(l) && name in old(nodes)
                && nodes == old(nodes)[name := WithBits(old(nodes)[name], mask, Elements(l))]
      ensures AllWork() && name in old(nodes) && AreBits(l) ==> ok
    {
      DecodeLine(l);
      var text := JoinPlus(l);
      var found := works(steps);
      steps := steps + 1;
      if !found {
        return false;
      }
      if |l| > 0 {
        ok := WriteMask(name, mask, text + "\n");
      } else {
        ok := true;
      }
    }

    /** No ioctls given means all of them. */
    method AddIoctlsToNode(name: string, given: seq<int>) returns (ok: bool)
      modifies this
      ensures steps >= old(steps)
      ensures !ok ==> nodes == old(nodes)
      ensures ok <==> WriteWorks(old(steps)) && name in old(nodes) && AreBits(given)
      ensures ok && given == [] ==>
                name in old(nodes) && nodes == old(nodes)[name := WithBits(old(nodes)[name], IoctlMask, AllIoctls())]
      ensures ok && given != [] ==>
                && AreBits(given) && name in old(nodes)
                && nodes == old(nodes)[name := WithBits(old(nodes)[name], IoctlMask, Elements(given))]
      ensures AllWork() && name in old(nodes) && AreBits(given) ==> ok
    {
      var ioctls := given;
      if |given| == 0 {
        for i := 0 to MASK_BITS
          invariant |ioctls| == i && forall k :: 0 <= k < i ==> ioctls[k] == k
        {
          ioctls := ioctls + [i];
        }
        forall x | x in AllIoctls()
          ensures x in ioctls
        {
          assert ioctls[x] == x;
        }
        assert Elements(ioctls) == AllIoctls();
      }
      ok := AddToNode(name, IoctlMask, ioctls);
    }

    /**
     A node with exactly the given adapter and domain and all ioctls; when it fails, a node with less
     may be left. The schedule decides which.
     */
    method CreateSimpleNode(name: string, adapter: int, domain: int) returns (ok: bool)
      modifies this
      ensures steps >= old(steps)
      ensures ok <==> name !in old(nodes) && SimpleWorks(old(steps), adapter, domain)
      ensures nodes == if name !in old(nodes) && NodeLeft(old(steps), adapter, domain).Some?
                       then old(nodes)[name := NodeLeft(old(steps), adapter, domain).value] else old(nodes)
    {
      ok := CreateNode(name);
      if !ok {
        return;
      }
      WidenedStepwise(adapter, domain);
      Singleton(adapter);
      ok := AddToNode(name, ApMask, [adapter]);
      if !ok {
        return;
      }
      assert nodes == old(nodes)[name := Node({adapter}, {}, {})];
      Singleton(domain);
      ok := AddToNode(name, AqMask, [domain]);
      if !ok {
        return;
      }
      assert nodes == old(nodes)[name := Node({adapter}, {domain}, {})];
      ok := AddIoctlsToNode(name, []);
    }
  }

  function WithBits(n: Node, mask: Mask, bits: set<int>): Node {
    match mask
    case ApMask => n.(adapters := n.adapters + bits)
    case AqMask => n.(domains := n.domains + bits)
    case IoctlMask => n.(ioctls := n.ioctls + bits)
  }

  /** What a written line looks like. */
  lemma PlusListLooks()
    ensures PlusList([1, 2, 255]) == "+1,+2,+255"
  {
    assert [1, 2, 255][..2] == [1, 2] && [1, 2][..1] == [1];
    assert FormatNat(255) == FormatNat(25) + [Digit(5)] && FormatNat(25) == FormatNat(2) + [Digit(5)];
    assert FormatInt(1) == "1" && FormatInt(2) == "2" && FormatInt(255) == "255";
    assert PlusList([1]) == "+1";
    assert PlusList([1, 2]) == "+1,+2";
  }
}
