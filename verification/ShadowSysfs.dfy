/** Building the shadow of a device's AP sysfs directories: one card, one queue, and the links between them. */
module ShadowSysfs {
  import opened Wrappers
  import opened ShadowFs
  import opened MaskFiles
  import opened DeviceIds

  const BUS_COPIES := ["ap_interrupts", "ap_max_domain_id", "poll_thread", "poll_timeout"]
  const BUS_MAYBE_COPIES := ["ap_max_adapter_id"]
  const CARD_COPIES := ["ap_functions", "depth", "hwtype", "raw_hwtype", "type"]
  const CARD_MAYBE_COPIES := ["API_ordinalnr", "FW_version", "op_modes", "serialnr"]
  const COUNTER_FILES := [("load", "0\n"), ("online", "1\n"), ("pendingq_count", "0\n"),
                          ("request_count", "0\n"), ("requestq_count", "0\n")]
  const LIVE_CARD_FILES := [("load", "0\n")]
  const LIVE_LINKS := ["online", "pendingq_count", "request_count", "requestq_count"]
  const QUEUE_COPIES := ["interrupt", "reset"]
  const QUEUE_MAYBE_COPIES := ["mkvps", "op_modes"]

  const BUS_FILE_NAMES := ["ap_adapter_mask", "ap_control_domain_mask", "ap_domain", "apmask",
                           "ap_usage_domain_mask", "aqmask"]
  const COUNTER_NAMES := ["load", "online", "pendingq_count", "request_count", "requestq_count"]
  const DEVICE_LINKS := ["driver", "subsystem"]
  const BUS_NAMES := BUS_COPIES + BUS_MAYBE_COPIES + BUS_FILE_NAMES
  const CARD_NAMES := CARD_COPIES + CARD_MAYBE_COPIES + COUNTER_NAMES + DEVICE_LINKS
  const QUEUE_NAMES := QUEUE_COPIES + QUEUE_MAYBE_COPIES + COUNTER_NAMES + DEVICE_LINKS

  /** A number in hexadecimal with at least the given number of digits. */
  function HexNumber(n: nat, width: nat): string
    decreases n, width
  {
    if n == 0 && width == 0 then ""
    else HexNumber(n / 16, if width == 0 then 0 else width - 1) + [HexDigit((n % 16) as bv8)]
  }

  function CardDir(adapter: nat): string {
    "card" + HexNumber(adapter, 2)
  }

  function QueueDir(adapter: nat, domain: nat): string {
    HexNumber(adapter, 2) + "." + HexNumber(domain, 4)
  }

  /** The directories of one shadow tree. */
  datatype Layout = Layout(root: Path, card: string, queue: string) {

    function Bus(): Path { root + ["bus", "ap"] }

    function Devices(): Path { root + ["devices", "ap"] }

    function Card(): Path { root + ["devices", "ap", card] }

    function Load(): Path { Card() + ["load"] }

    function Queue(): Path { root + ["devices", "ap", card, queue] }

    function BusDevices(): Path { root + ["bus", "ap", "devices"] }

    function CardDriver(): Path { root + ["bus", "ap", "drivers", "cex4card"] }

    function QueueDriver(): Path { root + ["bus", "ap", "drivers", "cex4queue"] }

    ghost predicate IsDirectory(p: Path) {
      || p == root || p == root + ["bus"] || p == Bus() || p == BusDevices() || p == Bus() + ["drivers"]
      || p == CardDriver() || p == QueueDriver()
      || p == root + ["devices"] || p == Devices() || p == Card() || p == Queue()
    }

    /** The files and links of the tree. */
    ghost predicate IsLeaf(p: Path) {
      || In(p, Bus(), BUS_NAMES) || In(p, Card(), CARD_NAMES) || In(p, Queue(), QUEUE_NAMES)
      || p == BusDevices() + [card] || p == BusDevices() + [queue]
      || p == CardDriver() + [card] || p == QueueDriver() + [queue]
    }

    /** The links of the tree. */
    ghost predicate Planned(p: Path, link: Entry) {
      || (p == Card() + ["driver"] && link == Link(3, ["bus", "ap", "drivers", "cex4card"]))
      || (p == Card() + ["subsystem"] && link == Link(3, ["bus", "ap"]))
      || (p == Queue() + ["driver"] && link == Link(4, ["bus", "ap", "drivers", "cex4queue"]))
      || (p == Queue() + ["subsystem"] && link == Link(4, ["bus", "ap"]))
      || (p == BusDevices() + [card] && link == Link(3, ["devices", "ap", card]))
      || (p == BusDevices() + [queue] && link == Link(3, ["devices", "ap", card, queue]))
      || (p == CardDriver() + [card] && link == Link(4, ["devices", "ap", card]))
      || (p == QueueDriver() + [queue] && link == Link(4, ["devices", "ap", card, queue]))
      || PlannedLive(p, link)
    }

    ghost predicate PlannedLive(p: Path, link: Entry) {
      exists i :: 0 <= i < |LIVE_LINKS| && p == Card() + [LIVE_LINKS[i]] && link == Link(0, [queue, LIVE_LINKS[i]])
    }
  }

  /** The entry of a directory with one of these names. */
  predicate In(p: Path, dir: Path, names: seq<string>) {
    |p| == |dir| + 1 && dir <= p && p[|dir|] in names
  }

  /** The kind of entry planned for a path, if any is. */
  ghost predicate Allowed(l: Layout, p: Path, e: Entry) {
    if e.Dir? then l.IsDirectory(p) else l.IsLeaf(p)
  }

  lemma InItsDir(dir: Path, names: seq<string>, name: string)
    requires name in names
    ensures In(dir + [name], dir, names)
  {
  }

  /** No link below the root but the planned ones. */
  ghost predicate OnlyPlanned(t: Tree, l: Layout) {
    forall p :: p in t && Below(p, l.root) && t[p].Link? ==> l.Planned(p, t[p])
  }

  /** All directories that planned links lead to or through, and the queue's counter files. */
  ghost predicate HasTargets(t: Tree, l: Layout) {
    && HasDirs(t, l.Queue()) && HasDirs(t, l.CardDriver()) && HasDirs(t, l.QueueDriver())
    && forall i :: 0 <= i < |LIVE_LINKS| ==> l.Queue() + [LIVE_LINKS[i]] in t
  }

  /** A link that leads from below the root to a directory below the root. */
  lemma LinkResolves(t: Tree, root: Path, dir: Path, name: string, link: Entry)
    requires link.Link? && root <= dir && |dir| == |root| + link.ups
    requires link.downs != [] && root + link.downs in t
    requires forall i :: 0 <= i < |link.downs| ==> IsDir(t, root + link.downs[..i])
    ensures Resolves(t, dir + [name], link) && Destination(dir + [name], link) == root + link.downs
  {
    var p := dir + [name];
    assert p[..|p| - 1 - link.ups] == root;
  }

  lemma DirsOnTheWay(t: Tree, root: Path, downs: seq<string>, p: Path)
    requires HasDirs(t, p) && root + downs <= p
    ensures root + downs in t
    ensures forall i :: 0 <= i < |downs| ==> IsDir(t, root + downs[..i])
  {
    var d := root + downs;
    assert d == p[..|d|];
    forall i | 0 <= i < |downs|
      ensures IsDir(t, root + downs[..i])
    {
      assert root + downs[..i] == p[..|root| + i];
    }
  }

  ghost predicate ResolvesBelow(t: Tree, root: Path, p: Path, link: Entry) {
    link.Link? && Resolves(t, p, link) && Below(Destination(p, link), root)
  }

  /** A link in a directory below the root, leading up to the root and down towards an existing directory. */
  lemma UpAndDown(t: Tree, root: Path, dir: Path, name: string, link: Entry, target: Path)
    requires link.Link? && root <= dir && |dir| == |root| + link.ups && link.downs != []
    requires HasDirs(t, target) && root + link.downs <= target
    ensures ResolvesBelow(t, root, dir + [name], link)
  {
    DirsOnTheWay(t, root, link.downs, target);
    LinkResolves(t, root, dir, name, link);
  }

  lemma DeviceLinksResolve(t: Tree, l: Layout)
    requires HasTargets(t, l)
    ensures ResolvesBelow(t, l.root, l.Card() + ["driver"], Link(3, ["bus", "ap", "drivers", "cex4card"]))
    ensures ResolvesBelow(t, l.root, l.Card() + ["subsystem"], Link(3, ["bus", "ap"]))
    ensures ResolvesBelow(t, l.root, l.Queue() + ["driver"], Link(4, ["bus", "ap", "drivers", "cex4queue"]))
    ensures ResolvesBelow(t, l.root, l.Queue() + ["subsystem"], Link(4, ["bus", "ap"]))
  {
    UpAndDown(t, l.root, l.Card(), "driver", Link(3, ["bus", "ap", "drivers", "cex4card"]), l.CardDriver());
    UpAndDown(t, l.root, l.Card(), "subsystem", Link(3, ["bus", "ap"]), l.CardDriver());
    UpAndDown(t, l.root, l.Queue(), "driver", Link(4, ["bus", "ap", "drivers", "cex4queue"]), l.QueueDriver());
    UpAndDown(t, l.root, l.Queue(), "subsystem", Link(4, ["bus", "ap"]), l.CardDriver());
  }

  lemma BusLinksResolve(t: Tree, l: Layout)
    requires HasTargets(t, l)
    ensures ResolvesBelow(t, l.root, l.BusDevices() + [l.card], Link(3, ["devices", "ap", l.card]))
    ensures ResolvesBelow(t, l.root, l.BusDevices() + [l.queue], Link(3, ["devices", "ap", l.card, l.queue]))
    ensures ResolvesBelow(t, l.root, l.CardDriver() + [l.card], Link(4, ["devices", "ap", l.card]))
    ensures ResolvesBelow(t, l.root, l.QueueDriver() + [l.queue], Link(4, ["devices", "ap", l.card, l.queue]))
  {
    UpAndDown(t, l.root, l.BusDevices(), l.card, Link(3, ["devices", "ap", l.card]), l.Queue());
    UpAndDown(t, l.root, l.BusDevices(), l.queue, Link(3, ["devices", "ap", l.card, l.queue]), l.Queue());
    UpAndDown(t, l.root, l.CardDriver(), l.card, Link(4, ["devices", "ap", l.card]), l.Queue());
    UpAndDown(t, l.root, l.QueueDriver(), l.queue, Link(4, ["devices", "ap", l.card, l.queue]), l.Queue());
  }

  lemma PlannedLinkResolves(t: Tree, l: Layout, p: Path, link: Entry)
    requires HasTargets(t, l) && l.Planned(p, link)
    ensures ResolvesBelow(t, l.root, p, link)
  {
    DeviceLinksResolve(t, l);
    BusLinksResolve(t, l);
    if l.PlannedLive(p, link) {
      LiveLinkResolves(t, l, p, link);
    }
  }

  lemma LiveLinkResolves(t: Tree, l: Layout, p: Path, link: Entry)
    requires HasTargets(t, l) && l.PlannedLive(p, link)
    ensures ResolvesBelow(t, l.root, p, link)
  {
    var i :| 0 <= i < |LIVE_LINKS| && p == l.Card() + [LIVE_LINKS[i]] && link == Link(0, [l.queue, LIVE_LINKS[i]]);
    var name := LIVE_LINKS[i];
    var card := l.Card();
    assert card + [l.queue, name] == l.Queue() + [name];
    forall k | 0 <= k < |link.downs|
      ensures IsDir(t, card + link.downs[..k])
    {
      var q := l.Queue();
      assert card + link.downs[..k] == q[..|card| + k];
    }
    LinkResolves(t, card, card, name, link);
  }

  /** A tree with all targets in which every link is planned is closed. */
  lemma PlannedTreeIsClosed(t: Tree, l: Layout)
    requires HasTargets(t, l) && OnlyPlanned(t, l)
    ensures Closed(t, l.root)
  {
    forall p | p in t && Below(p, l.root) && t[p].Link?
      ensures Resolves(t, p, t[p]) && Below(Destination(p, t[p]), l.root)
    {
      PlannedLinkResolves(t, l, p, t[p]);
    }
  }

  // ----- building -----

  /** New links are planned ones. */
  ghost predicate NewLinksPlanned(t: Tree, t': Tree, l: Layout) {
    forall p :: p in t' && t'[p].Link? ==> (p in t && t[p] == t'[p]) || l.Planned(p, t'[p])
  }

  ghost predicate NewAllowed(t: Tree, t': Tree, l: Layout) {
    forall p :: p in t' && p !in t ==> Allowed(l, p, t'[p])
  }

  /** What a stage of the building does to the tree. */
  ghost predicate Stage(fs: FileSystem, t: Tree, t': Tree, l: Layout, dir: Path) {
    && Below(dir, l.root) && Grows(t, t', dir)
    && NewLinksPlanned(t, t', l) && NewAllowed(t, t', l) && NewWorked(fs.works, t, t')
  }

  lemma StageThen(fs: FileSystem, t: Tree, t1: Tree, t2: Tree, l: Layout, dir: Path, dir1: Path, dir2: Path)
    requires Stage(fs, t, t1, l, dir1) && Stage(fs, t1, t2, l, dir2) && Below(dir1, dir) && Below(dir2, dir)
               && Below(dir, l.root)
    ensures Stage(fs, t, t2, l, dir)
  {
    GrowsTransitive(t, t1, t2, dir, dir1, dir2);
  }

  lemma DirsStay(t: Tree, t': Tree, dir: Path, p: Path)
    requires Grows(t, t', dir) && HasDirs(t, p)
    ensures HasDirs(t', p)
  {
    forall i | 0 <= i <= |p|
      ensures IsDir(t', p[..i])
    {
      assert IsDir(t, p[..i]);
    }
  }

  // ----- names are distinct -----

  lemma BusNamesAreDistinct()
    ensures Distinct(BUS_NAMES + ["devices", "drivers"])
  {
  }

  lemma CardNamesAreDistinct()
    ensures Distinct(CARD_NAMES)
  {
  }

  lemma QueueNamesAreDistinct()
    ensures Distinct(QUEUE_NAMES)
  {
  }

  lemma CounterNames()
    ensures NamesOf(COUNTER_FILES) == COUNTER_NAMES && NamesOf(LIVE_CARD_FILES) == ["load"]
    ensures COUNTER_NAMES == ["load"] + LIVE_LINKS
  {
    assert NamesOf(LIVE_CARD_FILES)[0] == "load";
  }

  /** The number a string of hexadecimal digits denotes; None for any other string. */
  function ReadHex(s: string): Option<nat> {
    if s == "" then Some(0)
    else
      var front, digit := ReadHex(s[..|s| - 1]), HexValue(s[|s| - 1]);
      if front.None? || digit.None? then None else Some(16 * front.value + digit.value as nat)
  }

  lemma ReadHexAppend(s: string, d: nat)
    requires d < 16 && ReadHex(s).Some?
    ensures ReadHex(s + [HexDigit(d as bv8)]) == Some(16 * ReadHex(s).value + d)
  {
    HexDigitRoundTrip(d as bv8);
    assert (s + [HexDigit(d as bv8)])[..|s|] == s;
  }

  /** A hexadecimal number reads back. */
  lemma {:induction false} HexNumberReadsBack(n: nat, width: nat)
    ensures ReadHex(HexNumber(n, width)) == Some(n)
    decreases n, width
  {
    if n == 0 && width == 0 {
    } else {
      var rest := if width == 0 then 0 else width - 1;
      HexNumberReadsBack(n / 16, rest);
      ReadHexAppend(HexNumber(n / 16, rest), n % 16);
    }
  }

  /** It has the digits asked for, and more only as it needs them. */
  lemma {:induction false} HexNumberLength(n: nat, width: nat)
    ensures |HexNumber(n, width)| >= width
    ensures |HexNumber(n, width)| > width ==> HexNumber(n, width)[0] != '0'
    decreases n, width
  {
    if n == 0 && width == 0 {
    } else {
      var rest := if width == 0 then 0 else width - 1;
      HexNumberLength(n / 16, rest);
      if HexNumber(n / 16, rest) == "" {
        LeadingDigit(n, width);
      }
    }
  }

  lemma LeadingDigit(n: nat, width: nat)
    requires (n > 0 || width > 0) && HexNumber(n / 16, if width == 0 then 0 else width - 1) == ""
    ensures |HexNumber(n, width)| == 1 && (width == 0 ==> HexNumber(n, width)[0] != '0')
  {
    HexDigitIs((n % 16) as bv8);
  }

  /** The card's directory names its adapter in hexadecimal. */
  lemma CardDirNames(adapter: nat)
    ensures CardDir(adapter)[..4] == "card" && ReadHex(CardDir(adapter)[4..]) == Some(adapter)
    ensures |CardDir(adapter)| >= 6
  {
    HexNumberReadsBack(adapter, 2);
    HexNumberLength(adapter, 2);
  }

  /** The queue's directory names first its adapter, then its domain, with a dot in between. */
  lemma QueueDirNames(adapter: nat, domain: nat) returns (first: string, second: string)
    ensures QueueDir(adapter, domain) == first + "." + second && |first| >= 2 && |second| >= 4
    ensures ReadHex(first) == Some(adapter) && ReadHex(second) == Some(domain)
  {
    first, second := HexNumber(adapter, 2), HexNumber(domain, 4);
    HexNumberReadsBack(adapter, 2);
    HexNumberReadsBack(domain, 4);
    HexNumberLength(adapter, 2);
    HexNumberLength(domain, 4);
  }

  /** The shadow of a device: a directory of its own, the card's and the queue's. */
  lemma LayoutNames(id: string, adapter: nat, domain: nat) returns (first: string, second: string)
    ensures var l := LayoutOf(id, adapter, domain);
            && l.root == ["sysfs-" + id]
            && l.card[..4] == "card" && ReadHex(l.card[4..]) == Some(adapter)
            && l.queue == first + "." + second
            && ReadHex(first) == Some(adapter) && ReadHex(second) == Some(domain)
  {
    CardDirNames(adapter);
    first, second := QueueDirNames(adapter, domain);
  }

  /** The names of card and queue collide neither with each other nor with those of files in the card's directory. */
  lemma LayoutNamesAreDistinct(adapter: nat, domain: nat)
    requires adapter < 256
    ensures QueueDir(adapter, domain) !in CARD_NAMES && QueueDir(adapter, domain) != CardDir(adapter)
  {
    assert |HexNumber(adapter / 16, 1)| == 1;
    assert QueueDir(adapter, domain)[2] == '.';
    assert forall i :: 0 <= i < |CARD_NAMES| ==> |CARD_NAMES[i]| > 2 && CARD_NAMES[i][2] != '.';
    assert CardDir(adapter)[2] == "card"[2];
  }

  lemma Paths(l: Layout)
    ensures l.Card() + [l.queue] == l.Queue() && l.Bus() + ["devices"] == l.BusDevices()
    ensures l.root + ["bus"] <= l.Bus() && l.root + ["devices"] <= l.Card() <= l.Queue()
  {
  }

  lemma AppendNext(prior: seq<string>, names: seq<string>, i: nat)
    requires i < |names|
    ensures prior + names[..i] + [names[i]] == prior + names[..i + 1]
  {
  }

  lemma AppendBoth(prior: seq<string>, a: string, b: string)
    ensures prior + [a] + [b] == prior + [a, b]
  {
  }

  /** Two more names for a directory. */
  lemma TwoMoreAreFresh(prior: seq<string>, a: string, b: string)
    requires Distinct(prior + [a, b])
    ensures a !in prior && b !in prior + [a]
  {
    NextIsFresh(prior, [a, b], 0);
    NextIsFresh(prior, [a, b], 1);
    assert prior + [a, b][..0] == prior && prior + [a, b][..1] == prior + [a];
  }

  // ----- steps -----

  /** Files of these names belong into the directory. */
  ghost predicate LeavesOf(l: Layout, dir: Path, names: seq<string>) {
    forall p :: In(p, dir, names) ==> l.IsLeaf(p)
  }

  lemma LeavesPrefix(l: Layout, dir: Path, a: seq<string>, b: seq<string>)
    requires LeavesOf(l, dir, a + b)
    ensures LeavesOf(l, dir, a)
  {
    forall p | In(p, dir, a)
      ensures l.IsLeaf(p)
    {
      assert In(p, dir, a + b);
    }
  }

  lemma LeavesSuffix(l: Layout, dir: Path, a: seq<string>, b: seq<string>)
    requires LeavesOf(l, dir, a + b)
    ensures LeavesOf(l, dir, b)
  {
    forall p | In(p, dir, b)
      ensures l.IsLeaf(p)
    {
      assert In(p, dir, a + b);
    }
  }

  lemma FilledIsStage(fs: FileSystem, t: Tree, t': Tree, l: Layout, dir: Path, names: seq<string>)
    requires Filled(fs.works, t, t', dir, names) && Below(dir, l.root) && LeavesOf(l, dir, names)
    ensures Stage(fs, t, t', l, dir)
  {
    forall p | p in t' && p !in t
      ensures Allowed(l, p, t'[p])
    {
      assert In(p, dir, names);
    }
  }

  /** All directories on the way from top to p belong to the tree. */
  ghost predicate Directories(l: Layout, top: Path, p: Path) {
    forall k :: |top| <= k <= |p| ==> l.IsDirectory(p[..k])
  }

  /** What is new lies on the way to the directory or below it. */
  ghost predicate Along(t: Tree, t': Tree, dir: Path) {
    forall p :: p in t' && p !in t ==> p <= dir || dir <= p
  }

  /** A new directory of the tree below existing ones; nothing is in it yet. */
  method MakeTreeDir(fs: FileSystem, l: Layout, top: Path, p: Path) returns (ok: bool)
    requires Below(top, l.root) && top != [] && HasDirs(fs.tree, top[..|top| - 1]) && Below(p, top)
    requires NothingBelow(fs.tree, top) && Directories(l, top, p)
    modifies fs
    ensures Stage(fs, old(fs.tree), fs.tree, l, top)
    ensures ok <==> fs.DirsWork(top, p)
    ensures ok ==> HasDirs(fs.tree, p) && Holds(fs.tree, p, [])
    ensures Along(old(fs.tree), fs.tree, p)
  {
    ghost var before := fs.tree;
    ok := fs.MakeDir(p, top);
    forall q | q in fs.tree && q !in before
      ensures Allowed(l, q, fs.tree[q])
    {
      assert top <= q <= p && q == p[..|q|];
    }
  }

  /** A planned link of the tree under a new name. */
  method MakeTreeLink(fs: FileSystem, l: Layout, dir: Path, name: string, link: Entry, ghost prior: seq<string>)
    returns (ok: bool)
    requires link.Link? && Below(dir, l.root) && l.Planned(dir + [name], link) && l.IsLeaf(dir + [name])
    requires IsDir(fs.tree, dir) && Holds(fs.tree, dir, prior) && name !in prior
    modifies fs
    ensures Stage(fs, old(fs.tree), fs.tree, l, dir)
    ensures Holds(fs.tree, dir, prior + [name])
    ensures ok <==> fs.works(dir + [name])
    ensures ok ==> HasEntry(fs.tree, dir + [name], link)
  {
    ghost var before := fs.tree;
    HoldsNothing(before, dir, prior, name);
    ok := fs.MakeLink(dir, name, link);
    GrowsTransitive(before, before, fs.tree, dir, dir, dir + [name]);
    GrowsHolds(before, fs.tree, dir, prior, name);
  }

  /** The files of a directory: copies of host files, and copies of those that may be missing. */
  method FillDir(fs: FileSystem, l: Layout, from: HostDir, dir: Path, copies: seq<string>, maybe: seq<string>)
    returns (ok: bool)
    requires Below(dir, l.root) && IsDir(fs.tree, dir) && Holds(fs.tree, dir, [])
    requires Distinct(copies + maybe) && LeavesOf(l, dir, copies + maybe)
    modifies fs
    ensures Stage(fs, old(fs.tree), fs.tree, l, dir)
    ensures ok <==> fs.CopiesWork(from, dir, copies) && fs.MaybeCopiesWork(from, dir, maybe)
    ensures ok ==> Holds(fs.tree, dir, copies + maybe)
    ensures ok ==> HasCopies(fs.tree, from, dir, copies) && fs.HasMaybeCopies(fs.tree, from, dir, maybe)
  {
    ghost var t0 := fs.tree;
    DistinctPrefix(copies, maybe);
    LeavesPrefix(l, dir, copies, maybe);
    assert [] + copies == copies;
    ok := fs.CopyFiles(from, dir, copies, []);
    ghost var t1 := fs.tree;
    FilledIsStage(fs, t0, t1, l, dir, copies);
    if !ok {
      return;
    }
    ok := fs.MaybeCopyFiles(from, dir, maybe, copies);
    FilledIsStage(fs, t1, fs.tree, l, dir, copies + maybe);
    StageThen(fs, t0, t1, fs.tree, l, dir, dir, dir);
  }

  /** New files with the given text. */
  method WriteFiles(fs: FileSystem, l: Layout, dir: Path, files: seq<(string, string)>, ghost prior: seq<string>)
    returns (ok: bool)
    requires Below(dir, l.root) && IsDir(fs.tree, dir) && Holds(fs.tree, dir, prior)
    requires Distinct(prior + NamesOf(files)) && LeavesOf(l, dir, prior + NamesOf(files))
    modifies fs
    ensures Stage(fs, old(fs.tree), fs.tree, l, dir)
    ensures Holds(fs.tree, dir, prior + NamesOf(files))
    ensures ok <==> fs.NamesWork(dir, NamesOf(files))
    ensures ok ==> HasTexts(fs.tree, dir, files)
  {
    ghost var before := fs.tree;
    ok := fs.MakeFiles(dir, files, prior);
    FilledIsStage(fs, before, fs.tree, l, dir, prior + NamesOf(files));
  }

  /** The file holds a 256-bit mask with exactly the listed bits, or with exactly the others. */
  ghost predicate MaskFile(t: Tree, p: Path, bits: seq<int>, others: bool) {
    p in t && t[p].File? && t[p].content.Text? && MaskText(t[p].content.text, bits, others)
  }

  ghost predicate MaskText(text: string, bits: seq<int>, others: bool) {
    && |text| == 67 && text[..2] == "0x" && text[66] == '\n'
    && (forall i :: 2 <= i < 66 ==> text[i] in HEX_DIGITS)
    && forall m: nat :: m < 256 ==> (BitInText(text, m) <==> (m in bits) != others)
  }

  lemma FilesAreLeaves(l: Layout)
    ensures LeavesOf(l, l.Bus(), BUS_NAMES) && LeavesOf(l, l.Card(), CARD_NAMES) && LeavesOf(l, l.Queue(), QUEUE_NAMES)
  {
  }

  lemma DeviceLinksAreLeaves(l: Layout, dir: Path, prior: seq<string>)
    requires LeavesOf(l, dir, prior + DEVICE_LINKS)
    ensures l.IsLeaf(dir + ["driver"]) && l.IsLeaf(dir + ["subsystem"])
  {
    LeavesSuffix(l, dir, prior, DEVICE_LINKS);
    assert DEVICE_LINKS[0] == "driver" && DEVICE_LINKS[1] == "subsystem";
    InItsDir(dir, DEVICE_LINKS, "driver");
    InItsDir(dir, DEVICE_LINKS, "subsystem");
  }

  lemma DirectoriesOfBus(l: Layout)
    ensures Directories(l, l.root + ["bus"], l.Bus())
  {
    forall k | |l.root| + 1 <= k <= |l.Bus()|
      ensures l.IsDirectory(l.Bus()[..k])
    {
      assert l.Bus()[..|l.root| + 1] == l.root + ["bus"] && l.Bus()[..|l.root| + 2] == l.Bus();
    }
  }

  lemma DirectoriesOfCard(l: Layout)
    ensures Directories(l, l.root + ["devices"], l.Card())
  {
    var card, n := l.Card(), |l.root|;
    forall k | n + 1 <= k <= |card|
      ensures l.IsDirectory(card[..k])
    {
      assert card[..n + 1] == l.root + ["devices"] && card[..n + 2] == l.Devices() && card[..n + 3] == card;
    }
  }

  lemma DirectoriesOfDriver(l: Layout)
    ensures Directories(l, l.Bus() + ["drivers"], l.CardDriver())
  {
    var driver, n := l.CardDriver(), |l.root|;
    forall k | n + 3 <= k <= |driver|
      ensures l.IsDirectory(driver[..k])
    {
      assert driver[..n + 3] == l.Bus() + ["drivers"] && driver[..n + 4] == driver;
    }
  }

  lemma OneDirectory(l: Layout, p: Path)
    requires l.IsDirectory(p)
    ensures Directories(l, p, p)
  {
    assert p[..|p|] == p;
  }

  // ----- the stages -----

  /** The files that show the container its one adapter and one domain. */
  ghost predicate HasMasks(t: Tree, bus: Path, adapter: int, domain: int) {
    && MaskFile(t, bus + ["ap_adapter_mask"], [adapter], false)
    && MaskFile(t, bus + ["ap_control_domain_mask"], [], false)
    && HasEntry(t, bus + ["ap_domain"], File(Text(FormatInt(domain) + "\n")))
    && MaskFile(t, bus + ["apmask"], [], true)
    && MaskFile(t, bus + ["ap_usage_domain_mask"], [domain], false)
    && MaskFile(t, bus + ["aqmask"], [], true)
  }

  ghost predicate MaskTexts(texts: seq<string>, adapter: int, domain: int) {
    && |texts| == 6
    && MaskText(texts[0], [adapter], false) && MaskText(texts[1], [], false)
    && texts[2] == FormatInt(domain) + "\n"
    && MaskText(texts[3], [], true) && MaskText(texts[4], [domain], false) && MaskText(texts[5], [], true)
  }

  function Named(texts: seq<string>): (files: seq<(string, string)>)
    requires |texts| == 6
    ensures NamesOf(files) == BUS_FILE_NAMES
  {
    var files := [("ap_adapter_mask", texts[0]), ("ap_control_domain_mask", texts[1]), ("ap_domain", texts[2]),
                  ("apmask", texts[3]), ("ap_usage_domain_mask", texts[4]), ("aqmask", texts[5])];
    assert |files| == |BUS_FILE_NAMES| == 6;
    assert files[0].0 == BUS_FILE_NAMES[0] && files[1].0 == BUS_FILE_NAMES[1] && files[2].0 == BUS_FILE_NAMES[2];
    assert files[3].0 == BUS_FILE_NAMES[3] && files[4].0 == BUS_FILE_NAMES[4] && files[5].0 == BUS_FILE_NAMES[5];
    files
  }

  lemma TextsAreMasks(t: Tree, bus: Path, texts: seq<string>, adapter: int, domain: int)
    requires MaskTexts(texts, adapter, domain) && HasTexts(t, bus, Named(texts))
    ensures HasMasks(t, bus, adapter, domain)
  {
    var files := Named(texts);
    assert HasEntry(t, bus + [files[0].0], File(Text(files[0].1)));
    assert HasEntry(t, bus + [files[1].0], File(Text(files[1].1)));
    assert HasEntry(t, bus + [files[2].0], File(Text(files[2].1)));
    assert HasEntry(t, bus + [files[3].0], File(Text(files[3].1)));
    assert HasEntry(t, bus + [files[4].0], File(Text(files[4].1)));
    assert HasEntry(t, bus + [files[5].0], File(Text(files[5].1)));
  }

  /** The texts of the mask files and of ap_domain, in the order in which they are written. */
  method MakeTexts(adapter: int, domain: int) returns (texts: seq<string>)
    requires 0 <= adapter < 256 && 0 <= domain < 256
    ensures MaskTexts(texts, adapter, domain)
  {
    var oneAdapter := Make256BitMask(0x00, [adapter]);
    var none := Make256BitMask(0x00, []);
    var all := Make256BitMask(0xff, []);
    var oneDomain := Make256BitMask(0x00, [domain]);
    texts := [oneAdapter, none, FormatInt(domain) + "\n", all, oneDomain, all];
  }

  /** The mask files and ap_domain. */
  method MakeMasks(fs: FileSystem, l: Layout, bus: Path, adapter: int, domain: int) returns (ok: bool)
    requires bus == l.Bus() && 0 <= adapter < 256 && 0 <= domain < 256
    requires IsDir(fs.tree, bus) && Holds(fs.tree, bus, BUS_COPIES + BUS_MAYBE_COPIES)
    modifies fs
    ensures Stage(fs, old(fs.tree), fs.tree, l, bus)
    ensures Holds(fs.tree, bus, BUS_NAMES)
    ensures ok <==> fs.NamesWork(bus, BUS_FILE_NAMES)
    ensures ok ==> HasMasks(fs.tree, bus, adapter, domain)
  {
    BusNamesAreDistinct();
    DistinctPrefix(BUS_NAMES, ["devices", "drivers"]);
    FilesAreLeaves(l);
    var texts := MakeTexts(adapter, domain);
    ok := WriteFiles(fs, l, bus, Named(texts), BUS_COPIES + BUS_MAYBE_COPIES);
    if ok {
      TextsAreMasks(fs.tree, bus, texts, adapter, domain);
    }
  }

  ghost predicate BusDone(fs: FileSystem, t: Tree, l: Layout, adapter: int, domain: int) {
    && HasDirs(t, l.Bus())
    && HasCopies(t, HostBus, l.Bus(), BUS_COPIES)
    && fs.HasMaybeCopies(t, HostBus, l.Bus(), BUS_MAYBE_COPIES)
    && HasMasks(t, l.Bus(), adapter, domain)
  }

  ghost predicate LiveLinksDone(t: Tree, l: Layout) {
    forall i :: 0 <= i < |LIVE_LINKS| ==>
      HasEntry(t, l.Card() + [LIVE_LINKS[i]], Link(0, [l.queue, LIVE_LINKS[i]]))
  }

  /** The card's load file holds its value. */
  ghost predicate LoadDone(t: Tree, l: Layout) {
    HasEntry(t, l.Load(), File(Text("0\n")))
  }

  /** In live mode the load file is there if writing it works. */
  ghost predicate CountersDone(fs: FileSystem, t: Tree, l: Layout, live: bool) {
    if live then LiveLinksDone(t, l) && (fs.works(l.Load()) ==> LoadDone(t, l))
    else HasTexts(t, l.Card(), COUNTER_FILES)
  }

  ghost predicate CardDone(fs: FileSystem, t: Tree, l: Layout, live: bool) {
    && HasDirs(t, l.Card())
    && HasCopies(t, HostCard, l.Card(), CARD_COPIES)
    && fs.HasMaybeCopies(t, HostCard, l.Card(), CARD_MAYBE_COPIES)
    && CountersDone(fs, t, l, live)
    && HasEntry(t, l.Card() + ["driver"], Link(3, ["bus", "ap", "drivers", "cex4card"]))
    && HasEntry(t, l.Card() + ["subsystem"], Link(3, ["bus", "ap"]))
  }

  ghost predicate QueueDone(fs: FileSystem, t: Tree, l: Layout) {
    && HasDirs(t, l.Queue())
    && HasCopies(t, HostQueue, l.Queue(), QUEUE_COPIES)
    && fs.HasMaybeCopies(t, HostQueue, l.Queue(), QUEUE_MAYBE_COPIES)
    && HasTexts(t, l.Queue(), COUNTER_FILES)
    && HasEntry(t, l.Queue() + ["driver"], Link(4, ["bus", "ap", "drivers", "cex4queue"]))
    && HasEntry(t, l.Queue() + ["subsystem"], Link(4, ["bus", "ap"]))
  }

  ghost predicate BusLinksDone(t: Tree, l: Layout) {
    && HasDirs(t, l.CardDriver()) && HasDirs(t, l.QueueDriver())
    && HasEntry(t, l.BusDevices() + [l.card], Link(3, ["devices", "ap", l.card]))
    && HasEntry(t, l.BusDevices() + [l.queue], Link(3, ["devices", "ap", l.card, l.queue]))
    && HasEntry(t, l.CardDriver() + [l.card], Link(4, ["devices", "ap", l.card]))
    && HasEntry(t, l.QueueDriver() + [l.queue], Link(4, ["devices", "ap", l.card, l.queue]))
  }

  /** Everything a shadow consists of; in live mode the card's load file if writing it works. */
  ghost predicate Built(fs: FileSystem, t: Tree, l: Layout, live: bool, adapter: int, domain: int) {
    BusDone(fs, t, l, adapter, domain) && CardDone(fs, t, l, live) && QueueDone(fs, t, l) && BusLinksDone(t, l)
  }

  // ----- which steps have to work -----

  ghost predicate BusWorks(fs: FileSystem, l: Layout) {
    && fs.DirsWork(l.root + ["bus"], l.Bus())
    && fs.CopiesWork(HostBus, l.Bus(), BUS_COPIES) && fs.MaybeCopiesWork(HostBus, l.Bus(), BUS_MAYBE_COPIES)
    && fs.NamesWork(l.Bus(), BUS_FILE_NAMES)
  }

  /** In live mode the load file is not among them. */
  ghost predicate CardWorks(fs: FileSystem, l: Layout, live: bool) {
    && fs.DirsWork(l.root + ["devices"], l.Card())
    && fs.CopiesWork(HostCard, l.Card(), CARD_COPIES) && fs.MaybeCopiesWork(HostCard, l.Card(), CARD_MAYBE_COPIES)
    && fs.NamesWork(l.Card(), if live then LIVE_LINKS else COUNTER_NAMES)
    && fs.works(l.Card() + ["driver"]) && fs.works(l.Card() + ["subsystem"])
  }

  ghost predicate QueueWorks(fs: FileSystem, l: Layout) {
    && fs.DirsWork(l.Queue(), l.Queue())
    && fs.CopiesWork(HostQueue, l.Queue(), QUEUE_COPIES) && fs.MaybeCopiesWork(HostQueue, l.Queue(), QUEUE_MAYBE_COPIES)
    && fs.NamesWork(l.Queue(), COUNTER_NAMES)
    && fs.works(l.Queue() + ["driver"]) && fs.works(l.Queue() + ["subsystem"])
  }

  ghost predicate BusLinksWork(fs: FileSystem, l: Layout) {
    && fs.DirsWork(l.BusDevices(), l.BusDevices())
    && fs.works(l.BusDevices() + [l.card]) && fs.works(l.BusDevices() + [l.queue])
    && fs.DirsWork(l.Bus() + ["drivers"], l.CardDriver()) && fs.works(l.CardDriver() + [l.card])
    && fs.DirsWork(l.QueueDriver(), l.QueueDriver()) && fs.works(l.QueueDriver() + [l.queue])
  }

  ghost predicate ShadowWorks(fs: FileSystem, l: Layout, live: bool) {
    fs.works(l.root) && BusWorks(fs, l) && CardWorks(fs, l, live) && QueueWorks(fs, l) && BusLinksWork(fs, l)
  }

  lemma BusStays(fs: FileSystem, t: Tree, t': Tree, l: Layout, dir: Path, adapter: int, domain: int)
    requires Grows(t, t', dir) && BusDone(fs, t, l, adapter, domain)
    ensures BusDone(fs, t', l, adapter, domain)
  {
    DirsStay(t, t', dir, l.Bus());
  }

  lemma CardStays(fs: FileSystem, t: Tree, t': Tree, l: Layout, dir: Path, live: bool)
    requires Grows(t, t', dir) && CardDone(fs, t, l, live)
    ensures CardDone(fs, t', l, live)
  {
    DirsStay(t, t', dir, l.Card());
  }

  lemma QueueStays(fs: FileSystem, t: Tree, t': Tree, l: Layout, dir: Path)
    requires Grows(t, t', dir) && QueueDone(fs, t, l)
    ensures QueueDone(fs, t', l)
  {
    DirsStay(t, t', dir, l.Queue());
  }

  /** The directory bus/ap and its files. */
  method MakeBus(fs: FileSystem, l: Layout, adapter: int, domain: int) returns (ok: bool)
    requires HasDirs(fs.tree, l.root) && NothingBelow(fs.tree, l.root + ["bus"])
    requires 0 <= adapter < 256 && 0 <= domain < 256
    modifies fs
    ensures Stage(fs, old(fs.tree), fs.tree, l, l.root + ["bus"])
    ensures ok <==> BusWorks(fs, l)
    ensures ok ==> BusDone(fs, fs.tree, l, adapter, domain) && Holds(fs.tree, l.Bus(), BUS_NAMES)
  {
    var bus, top := l.Bus(), l.root + ["bus"];
    assert top[..|top| - 1] == l.root && top <= bus;
    ghost var t0 := fs.tree;
    DirectoriesOfBus(l);
    ok := MakeTreeDir(fs, l, top, bus);
    if !ok { return; }
    ghost var t1 := fs.tree;
    LastIsDir(t1, bus);
    FilesAreLeaves(l);
    LeavesPrefix(l, bus, BUS_COPIES + BUS_MAYBE_COPIES, BUS_FILE_NAMES);
    BusNamesAreDistinct();
    DistinctPrefix(BUS_NAMES, ["devices", "drivers"]);
    DistinctPrefix(BUS_COPIES + BUS_MAYBE_COPIES, BUS_FILE_NAMES);
    ok := FillDir(fs, l, HostBus, bus, BUS_COPIES, BUS_MAYBE_COPIES);
    ghost var t2 := fs.tree;
    StageThen(fs, t0, t1, t2, l, top, top, bus);
    if !ok { return; }
    ok := MakeMasks(fs, l, bus, adapter, domain);
    StageThen(fs, t0, t2, fs.tree, l, top, top, bus);
    DirsStay(t1, t2, bus, bus);
    DirsStay(t2, fs.tree, bus, bus);
  }

  lemma LastIsDir(t: Tree, p: Path)
    requires HasDirs(t, p)
    ensures IsDir(t, p)
  {
    assert p[..|p|] == p;
  }

  ghost predicate Linked(fs: FileSystem, t: Tree, l: Layout, i: nat) {
    i <= |LIVE_LINKS| && forall k :: 0 <= k < i ==>
      fs.works(l.Card() + [LIVE_LINKS[k]]) && HasEntry(t, l.Card() + [LIVE_LINKS[k]], Link(0, [l.queue, LIVE_LINKS[k]]))
  }

  lemma OneMoreLinked(fs: FileSystem, t: Tree, t': Tree, l: Layout, i: nat)
    requires i < |LIVE_LINKS| && Linked(fs, t, l, i) && Grows(t, t', l.Card())
    requires fs.works(l.Card() + [LIVE_LINKS[i]])
    requires HasEntry(t', l.Card() + [LIVE_LINKS[i]], Link(0, [l.queue, LIVE_LINKS[i]]))
    ensures Linked(fs, t', l, i + 1)
  {
  }

  /** The link from one of the card's counter files to the queue's. */
  method MakeLiveLink(fs: FileSystem, l: Layout, i: nat, ghost prior: seq<string>) returns (ok: bool)
    requires i < |LIVE_LINKS| && Linked(fs, fs.tree, l, i) && LeavesOf(l, l.Card(), LIVE_LINKS)
    requires IsDir(fs.tree, l.Card()) && Holds(fs.tree, l.Card(), prior + LIVE_LINKS[..i])
               && Distinct(prior + LIVE_LINKS)
    modifies fs
    ensures Stage(fs, old(fs.tree), fs.tree, l, l.Card())
    ensures Holds(fs.tree, l.Card(), prior + LIVE_LINKS[..i + 1])
    ensures ok <==> fs.works(l.Card() + [LIVE_LINKS[i]])
    ensures ok ==> Linked(fs, fs.tree, l, i + 1)
  {
    ghost var before := fs.tree;
    NextIsFresh(prior, LIVE_LINKS, i);
    InItsDir(l.Card(), LIVE_LINKS, LIVE_LINKS[i]);
    ok := MakeTreeLink(fs, l, l.Card(), LIVE_LINKS[i], Link(0, [l.queue, LIVE_LINKS[i]]), prior + LIVE_LINKS[..i]);
    AppendNext(prior, LIVE_LINKS, i);
    if ok {
      OneMoreLinked(fs, before, fs.tree, l, i);
    }
  }

  /** The links from the card's counter files to the queue's. */
  method MakeLiveLinks(fs: FileSystem, l: Layout, ghost prior: seq<string>) returns (ok: bool)
    requires IsDir(fs.tree, l.Card()) && Holds(fs.tree, l.Card(), prior) && Distinct(prior + LIVE_LINKS)
    requires LeavesOf(l, l.Card(), LIVE_LINKS)
    modifies fs
    ensures Stage(fs, old(fs.tree), fs.tree, l, l.Card())
    ensures ok <==> fs.NamesWork(l.Card(), LIVE_LINKS)
    ensures ok ==> LiveLinksDone(fs.tree, l) && Holds(fs.tree, l.Card(), prior + LIVE_LINKS)
  {
    ok := true;
    for i := 0 to |LIVE_LINKS|
      invariant ok && Stage(fs, old(fs.tree), fs.tree, l, l.Card())
      invariant Holds(fs.tree, l.Card(), prior + LIVE_LINKS[..i])
      invariant Linked(fs, fs.tree, l, i)
    {
      ghost var before := fs.tree;
      ok := MakeLiveLink(fs, l, i, prior);
      StageThen(fs, old(fs.tree), before, fs.tree, l, l.Card(), l.Card(), l.Card());
      if !ok {
        return;
      }
    }
    assert LIVE_LINKS[..|LIVE_LINKS|] == LIVE_LINKS;
  }

  lemma LoadIsWritten(fs: FileSystem, t: Tree, l: Layout, ok: bool)
    requires ok <==> fs.NamesWork(l.Card(), ["load"])
    requires ok ==> HasTexts(t, l.Card(), LIVE_CARD_FILES)
    ensures fs.works(l.Load()) ==> LoadDone(t, l)
  {
    if fs.works(l.Load()) {
      assert forall i :: 0 <= i < |["load"]| ==> fs.works(l.Card() + [["load"][i]]);
      assert LIVE_CARD_FILES[0] == ("load", "0\n");
    }
  }

  /**
     The card's counters. In live mode the outcome of writing the load file is lost: what counts is whether
     the last link could be made.
   */
  method MakeCounters(fs: FileSystem, l: Layout, livesysfs: int, ghost prior: seq<string>) returns (ok: bool)
    requires IsDir(fs.tree, l.Card()) && Holds(fs.tree, l.Card(), prior) && Distinct(prior + COUNTER_NAMES)
    requires LeavesOf(l, l.Card(), prior + COUNTER_NAMES)
    modifies fs
    ensures Stage(fs, old(fs.tree), fs.tree, l, l.Card())
    ensures ok <==> fs.NamesWork(l.Card(), if livesysfs > 0 then LIVE_LINKS else COUNTER_NAMES)
    ensures ok ==> CountersDone(fs, fs.tree, l, livesysfs > 0) && Holds(fs.tree, l.Card(), prior + COUNTER_NAMES)
  {
    CounterNames();
    if livesysfs > 0 {
      assert prior + COUNTER_NAMES == prior + ["load"] + LIVE_LINKS;
      DistinctPrefix(prior + ["load"], LIVE_LINKS);
      LeavesPrefix(l, l.Card(), prior + ["load"], LIVE_LINKS);
      LeavesSuffix(l, l.Card(), prior + ["load"], LIVE_LINKS);
      ok := WriteFiles(fs, l, l.Card(), LIVE_CARD_FILES, prior);
      ghost var before := fs.tree;
      LoadIsWritten(fs, before, l, ok);
      ok := MakeLiveLinks(fs, l, prior + ["load"]);
      StageThen(fs, old(fs.tree), before, fs.tree, l, l.Card(), l.Card(), l.Card());
    } else {
      ok := WriteFiles(fs, l, l.Card(), COUNTER_FILES, prior);
    }
  }

  /** The links driver and subsystem of a device directory. */
  method MakeDeviceLinks(fs: FileSystem, l: Layout, dir: Path, ups: nat, driver: string, ghost prior: seq<string>)
    returns (ok: bool)
    requires Below(dir, l.root)
    requires l.Planned(dir + ["driver"], Link(ups, ["bus", "ap", "drivers", driver]))
    requires l.Planned(dir + ["subsystem"], Link(ups, ["bus", "ap"]))
    requires IsDir(fs.tree, dir) && Holds(fs.tree, dir, prior) && Distinct(prior + DEVICE_LINKS)
    requires l.IsLeaf(dir + ["driver"]) && l.IsLeaf(dir + ["subsystem"])
    modifies fs
    ensures Stage(fs, old(fs.tree), fs.tree, l, dir)
    ensures ok <==> fs.works(dir + ["driver"]) && fs.works(dir + ["subsystem"])
    ensures ok ==> Holds(fs.tree, dir, prior + DEVICE_LINKS)
    ensures ok ==> HasEntry(fs.tree, dir + ["driver"], Link(ups, ["bus", "ap", "drivers", driver]))
    ensures ok ==> HasEntry(fs.tree, dir + ["subsystem"], Link(ups, ["bus", "ap"]))
  {
    TwoMoreAreFresh(prior, "driver", "subsystem");
    ok := MakeTreeLink(fs, l, dir, "driver", Link(ups, ["bus", "ap", "drivers", driver]), prior);
    if !ok { return; }
    ghost var before := fs.tree;
    ok := MakeTreeLink(fs, l, dir, "subsystem", Link(ups, ["bus", "ap"]), prior + ["driver"]);
    AppendBoth(prior, "driver", "subsystem");
    StageThen(fs, old(fs.tree), before, fs.tree, l, dir, dir, dir);
  }

  /** The card directory. */
  method MakeCard(fs: FileSystem, l: Layout, livesysfs: int) returns (ok: bool)
    requires HasDirs(fs.tree, l.root) && NothingBelow(fs.tree, l.root + ["devices"])
    modifies fs
    ensures Stage(fs, old(fs.tree), fs.tree, l, l.root + ["devices"])
    ensures ok <==> CardWorks(fs, l, livesysfs > 0)
    ensures ok ==> CardDone(fs, fs.tree, l, livesysfs > 0) && Holds(fs.tree, l.Card(), CARD_NAMES)
  {
    var card, top := l.Card(), l.root + ["devices"];
    assert top[..|top| - 1] == l.root && top <= card;
    ghost var t0 := fs.tree;
    DirectoriesOfCard(l);
    ok := MakeTreeDir(fs, l, top, card);
    if !ok { return; }
    ghost var t1 := fs.tree;
    LastIsDir(t1, card);
    FilesAreLeaves(l);
    LeavesPrefix(l, card, CARD_COPIES + CARD_MAYBE_COPIES + COUNTER_NAMES, DEVICE_LINKS);
    LeavesPrefix(l, card, CARD_COPIES + CARD_MAYBE_COPIES, COUNTER_NAMES);
    DeviceLinksAreLeaves(l, card, CARD_COPIES + CARD_MAYBE_COPIES + COUNTER_NAMES);
    CardNamesAreDistinct();
    DistinctPrefix(CARD_COPIES + CARD_MAYBE_COPIES + COUNTER_NAMES, DEVICE_LINKS);
    DistinctPrefix(CARD_COPIES + CARD_MAYBE_COPIES, COUNTER_NAMES);
    ok := FillDir(fs, l, HostCard, card, CARD_COPIES, CARD_MAYBE_COPIES);
    ghost var t2 := fs.tree;
    StageThen(fs, t0, t1, t2, l, top, top, card);
    if !ok { return; }
    ok := MakeCounters(fs, l, livesysfs, CARD_COPIES + CARD_MAYBE_COPIES);
    ghost var t3 := fs.tree;
    StageThen(fs, t0, t2, t3, l, top, top, card);
    if !ok { return; }
    ok := MakeDeviceLinks(fs, l, card, 3, "cex4card", CARD_COPIES + CARD_MAYBE_COPIES + COUNTER_NAMES);
    StageThen(fs, t0, t3, fs.tree, l, top, top, card);
    DirsStay(t1, t2, card, card);
    DirsStay(t2, t3, card, card);
    DirsStay(t3, fs.tree, card, card);
  }

  /** The queue directory. */
  method MakeQueue(fs: FileSystem, l: Layout) returns (ok: bool)
    requires HasDirs(fs.tree, l.Card()) && NothingBelow(fs.tree, l.Queue())
    modifies fs
    ensures Stage(fs, old(fs.tree), fs.tree, l, l.Queue())
    ensures ok <==> QueueWorks(fs, l)
    ensures ok ==> QueueDone(fs, fs.tree, l) && Holds(fs.tree, l.Queue(), QUEUE_NAMES)
  {
    var queue := l.Queue();
    assert queue[..|queue| - 1] == l.Card();
    ghost var t0 := fs.tree;
    OneDirectory(l, queue);
    ok := MakeTreeDir(fs, l, queue, queue);
    if !ok { return; }
    ghost var t1 := fs.tree;
    LastIsDir(t1, queue);
    FilesAreLeaves(l);
    LeavesPrefix(l, queue, QUEUE_COPIES + QUEUE_MAYBE_COPIES + COUNTER_NAMES, DEVICE_LINKS);
    LeavesPrefix(l, queue, QUEUE_COPIES + QUEUE_MAYBE_COPIES, COUNTER_NAMES);
    DeviceLinksAreLeaves(l, queue, QUEUE_COPIES + QUEUE_MAYBE_COPIES + COUNTER_NAMES);
    QueueNamesAreDistinct();
    CounterNames();
    DistinctPrefix(QUEUE_COPIES + QUEUE_MAYBE_COPIES + COUNTER_NAMES, DEVICE_LINKS);
    DistinctPrefix(QUEUE_COPIES + QUEUE_MAYBE_COPIES, COUNTER_NAMES);
    ok := FillDir(fs, l, HostQueue, queue, QUEUE_COPIES, QUEUE_MAYBE_COPIES);
    ghost var t2 := fs.tree;
    StageThen(fs, t0, t1, t2, l, queue, queue, queue);
    if !ok { return; }
    ok := WriteFiles(fs, l, queue, COUNTER_FILES, QUEUE_COPIES + QUEUE_MAYBE_COPIES);
    ghost var t3 := fs.tree;
    StageThen(fs, t0, t2, t3, l, queue, queue, queue);
    if !ok { return; }
    ok := MakeDeviceLinks(fs, l, queue, 4, "cex4queue", QUEUE_COPIES + QUEUE_MAYBE_COPIES + COUNTER_NAMES);
    StageThen(fs, t0, t3, fs.tree, l, queue, queue, queue);
    DirsStay(t1, t2, queue, queue);
    DirsStay(t2, t3, queue, queue);
    DirsStay(t3, fs.tree, queue, queue);
  }

  /** A new directory with one link to a directory below devices. */
  method MakeLinkedDir(fs: FileSystem, l: Layout, top: Path, dir: Path, name: string, link: Entry) returns (ok: bool)
    requires Below(top, l.root) && top != [] && HasDirs(fs.tree, top[..|top| - 1]) && Below(dir, top)
    requires NothingBelow(fs.tree, top) && Directories(l, top, dir)
    requires link.Link? && l.Planned(dir + [name], link) && l.IsLeaf(dir + [name])
    modifies fs
    ensures Stage(fs, old(fs.tree), fs.tree, l, top)
    ensures ok <==> fs.DirsWork(top, dir) && fs.works(dir + [name])
    ensures ok ==> HasDirs(fs.tree, dir) && HasEntry(fs.tree, dir + [name], link) && Holds(fs.tree, dir, [name])
    ensures Along(old(fs.tree), fs.tree, dir)
  {
    ghost var t0 := fs.tree;
    ok := MakeTreeDir(fs, l, top, dir);
    if !ok { return; }
    ghost var t1 := fs.tree;
    LastIsDir(t1, dir);
    ok := MakeTreeLink(fs, l, dir, name, link, []);
    StageThen(fs, t0, t1, fs.tree, l, top, top, dir);
    DirsStay(t1, fs.tree, dir, dir);
    assert [] + [name] == [name];
  }

  /** The directory bus/ap/devices with its links to card and queue. */
  method MakeBusDevices(fs: FileSystem, l: Layout) returns (ok: bool)
    requires HasDirs(fs.tree, l.Bus()) && NothingBelow(fs.tree, l.BusDevices()) && l.card != l.queue
    modifies fs
    ensures Stage(fs, old(fs.tree), fs.tree, l, l.BusDevices())
    ensures ok <==> fs.DirsWork(l.BusDevices(), l.BusDevices())
                    && fs.works(l.BusDevices() + [l.card]) && fs.works(l.BusDevices() + [l.queue])
    ensures ok ==> HasEntry(fs.tree, l.BusDevices() + [l.card], Link(3, ["devices", "ap", l.card]))
                   && HasEntry(fs.tree, l.BusDevices() + [l.queue], Link(3, ["devices", "ap", l.card, l.queue]))
  {
    var dir := l.BusDevices();
    assert dir[..|dir| - 1] == l.Bus();
    ghost var t0 := fs.tree;
    OneDirectory(l, dir);
    ok := MakeLinkedDir(fs, l, dir, dir, l.card, Link(3, ["devices", "ap", l.card]));
    if !ok { return; }
    ghost var t1 := fs.tree;
    LastIsDir(t1, dir);
    ok := MakeTreeLink(fs, l, dir, l.queue, Link(3, ["devices", "ap", l.card, l.queue]), [l.card]);
    StageThen(fs, t0, t1, fs.tree, l, dir, dir, dir);
  }

  /** After the card's driver directory the queue's can still be made. */
  lemma SecondDriver(t: Tree, t': Tree, l: Layout)
    requires NothingBelow(t, l.Bus() + ["drivers"]) && Along(t, t', l.CardDriver()) && HasDirs(t', l.CardDriver())
    ensures NothingBelow(t', l.QueueDriver()) && HasDirs(t', l.Bus() + ["drivers"])
  {
    var top, cards, queues := l.Bus() + ["drivers"], l.CardDriver(), l.QueueDriver();
    assert cards[|top|] == "cex4card" && queues[|top|] == "cex4queue";
    assert top <= queues && top <= cards && |queues| == |cards|;
    forall p | p in t'
      ensures !Below(p, queues)
    {
      assert p <= cards || cards <= p ==> |p| > |top| ==> p[|top|] == "cex4card";
    }
    forall i | 0 <= i <= |top|
      ensures IsDir(t', top[..i])
    {
      assert top[..i] == cards[..i];
    }
  }

  /** The directory bus/ap/drivers, where each driver has a link to its device. */
  method MakeBusDrivers(fs: FileSystem, l: Layout) returns (ok: bool)
    requires HasDirs(fs.tree, l.Bus()) && NothingBelow(fs.tree, l.Bus() + ["drivers"])
    modifies fs
    ensures Stage(fs, old(fs.tree), fs.tree, l, l.Bus() + ["drivers"])
    ensures ok <==> fs.DirsWork(l.Bus() + ["drivers"], l.CardDriver()) && fs.works(l.CardDriver() + [l.card])
                    && fs.DirsWork(l.QueueDriver(), l.QueueDriver()) && fs.works(l.QueueDriver() + [l.queue])
    ensures ok ==> HasDirs(fs.tree, l.CardDriver()) && HasDirs(fs.tree, l.QueueDriver())
                   && HasEntry(fs.tree, l.CardDriver() + [l.card], Link(4, ["devices", "ap", l.card]))
                   && HasEntry(fs.tree, l.QueueDriver() + [l.queue], Link(4, ["devices", "ap", l.card, l.queue]))
  {
    var top, cards, queues := l.Bus() + ["drivers"], l.CardDriver(), l.QueueDriver();
    assert top[..|top| - 1] == l.Bus() && top <= cards && top <= queues && queues[..|queues| - 1] == top;
    ghost var t0 := fs.tree;
    DirectoriesOfDriver(l);
    OneDirectory(l, queues);
    ok := MakeLinkedDir(fs, l, top, cards, l.card, Link(4, ["devices", "ap", l.card]));
    if !ok { return; }
    ghost var t1 := fs.tree;
    SecondDriver(t0, t1, l);
    ok := MakeLinkedDir(fs, l, queues, queues, l.queue, Link(4, ["devices", "ap", l.card, l.queue]));
    StageThen(fs, t0, t1, fs.tree, l, top, top, queues);
    DirsStay(t1, fs.tree, queues, cards);
  }

  // ----- the whole tree -----

  /** Outside the shadow's own directory nothing changes. */
  ghost predicate OutsideKept(t: Tree, t': Tree, root: Path) {
    forall p :: !Below(p, root) ==> (p in t <==> p in t') && (p in t ==> t'[p] == t[p])
  }

  /**
     Below the root there is nothing but the planned directories, files and links, and of these only what a step that
     worked has made, or what a failed write has left.
   */
  ghost predicate NothingElse(fs: FileSystem, t: Tree, l: Layout) {
    forall p :: p in t && Below(p, l.root) ==> Allowed(l, p, t[p]) && (fs.works(p) || t[p] == File(Truncated))
  }

  lemma StageKeepsOutside(fs: FileSystem, t0: Tree, t: Tree, t': Tree, l: Layout, dir: Path)
    requires OutsideKept(t0, t, l.root) && Stage(fs, t, t', l, dir) && OnlyPlanned(t, l) && NothingElse(fs, t, l)
    ensures OutsideKept(t0, t', l.root) && OnlyPlanned(t', l) && NothingElse(fs, t', l)
  {
  }

  /** What grows elsewhere leaves a directory's names alone. */
  lemma HoldsStays(t: Tree, t': Tree, dir: Path, names: seq<string>, other: Path, i: nat)
    requires Holds(t, dir, names) && Grows(t, t', other)
    requires i < |dir| && i < |other| && dir[i] != other[i]
    ensures Holds(t', dir, names)
  {
    forall p | p in t' && Below(p, dir) && |p| > |dir|
      ensures p[|dir|] in names
    {
      assert p[i] == dir[i];
      assert !Below(p, other);
    }
  }

  /** A stage within one entry of a directory. */
  lemma HoldsOneMore(t: Tree, t': Tree, dir: Path, names: seq<string>, name: string, within: Path)
    requires Holds(t, dir, names) && Grows(t, t', within) && dir + [name] <= within
    ensures Holds(t', dir, names + [name])
  {
    GrowsTransitive(t, t, t', dir + [name], dir + [name], within);
    GrowsHolds(t, t', dir, names, name);
  }

  /** What happens below devices leaves the names in bus/ap alone. */
  lemma BusHoldsStill(t: Tree, t': Tree, l: Layout, names: seq<string>, other: Path)
    requires Holds(t, l.Bus(), names) && Grows(t, t', other) && l.root + ["devices"] <= other
    ensures Holds(t', l.Bus(), names)
  {
    HoldsStays(t, t', l.Bus(), names, other, |l.root|);
  }

  /** The directories bus/ap and devices/ap with the card, before the queue is made. */
  ghost predicate BusAndCard(fs: FileSystem, t: Tree, l: Layout, live: bool, adapter: int, domain: int) {
    && BusDone(fs, t, l, adapter, domain) && CardDone(fs, t, l, live)
    && Holds(t, l.Bus(), BUS_NAMES) && Holds(t, l.Card(), CARD_NAMES)
  }

  lemma AfterBus(t: Tree, t': Tree, l: Layout)
    requires HasDirs(t, l.root) && Holds(t, l.root, []) && Grows(t, t', l.root + ["bus"])
    ensures HasDirs(t', l.root) && NothingBelow(t', l.root + ["devices"])
  {
    HoldsOneMore(t, t', l.root, [], "bus", l.root + ["bus"]);
    HoldsNothing(t', l.root, [] + ["bus"], "devices");
    DirsStay(t, t', l.root + ["bus"], l.root);
  }

  lemma AfterCard(fs: FileSystem, t: Tree, t': Tree, l: Layout, live: bool, adapter: int, domain: int)
    requires BusDone(fs, t, l, adapter, domain) && Holds(t, l.Bus(), BUS_NAMES)
    requires Grows(t, t', l.root + ["devices"]) && CardDone(fs, t', l, live) && Holds(t', l.Card(), CARD_NAMES)
    ensures BusAndCard(fs, t', l, live, adapter, domain)
  {
    BusStays(fs, t, t', l, l.root + ["devices"], adapter, domain);
    BusHoldsStill(t, t', l, BUS_NAMES, l.root + ["devices"]);
  }

  method BuildBusAndCard(fs: FileSystem, l: Layout, livesysfs: int, adapter: int, domain: int) returns (ok: bool)
    requires HasDirs(fs.tree, l.root) && OnlyPlanned(fs.tree, l) && NothingElse(fs, fs.tree, l)
               && Holds(fs.tree, l.root, [])
    requires 0 <= adapter < 256 && 0 <= domain < 256
    modifies fs
    ensures OutsideKept(old(fs.tree), fs.tree, l.root) && OnlyPlanned(fs.tree, l) && NothingElse(fs, fs.tree, l)
    ensures ok <==> BusWorks(fs, l) && CardWorks(fs, l, livesysfs > 0)
    ensures ok ==> BusAndCard(fs, fs.tree, l, livesysfs > 0, adapter, domain)
  {
    var bus, devices := l.root + ["bus"], l.root + ["devices"];
    ghost var t0 := fs.tree;
    HoldsNothing(t0, l.root, [], "bus");
    ok := MakeBus(fs, l, adapter, domain);
    ghost var t1 := fs.tree;
    StageKeepsOutside(fs, t0, t0, t1, l, bus);
    if !ok { return; }
    AfterBus(t0, t1, l);
    ok := MakeCard(fs, l, livesysfs);
    ghost var t2 := fs.tree;
    StageKeepsOutside(fs, t0, t1, t2, l, devices);
    if ok {
      AfterCard(fs, t1, t2, l, livesysfs > 0, adapter, domain);
    }
  }

  /** Everything but the bus's links. */
  ghost predicate BusCardAndQueue(fs: FileSystem, t: Tree, l: Layout, live: bool, adapter: int, domain: int) {
    && BusDone(fs, t, l, adapter, domain) && CardDone(fs, t, l, live) && QueueDone(fs, t, l)
    && Holds(t, l.Bus(), BUS_NAMES)
  }

  lemma QueueStage(fs: FileSystem, t: Tree, t': Tree, l: Layout, live: bool, adapter: int, domain: int)
    requires BusAndCard(fs, t, l, live, adapter, domain) && Grows(t, t', l.Queue())
    requires QueueDone(fs, t', l)
    ensures BusCardAndQueue(fs, t', l, live, adapter, domain)
  {
    BusStays(fs, t, t', l, l.Queue(), adapter, domain);
    CardStays(fs, t, t', l, l.Queue(), live);
    Paths(l);
    BusHoldsStill(t, t', l, BUS_NAMES, l.Queue());
  }

  /** The links from the bus to the card and the queue: its devices, and the devices of its two drivers. */
  method MakeBusLinks(fs: FileSystem, l: Layout) returns (ok: bool)
    requires HasDirs(fs.tree, l.Bus()) && Holds(fs.tree, l.Bus(), BUS_NAMES) && l.card != l.queue
    modifies fs
    ensures Stage(fs, old(fs.tree), fs.tree, l, l.Bus())
    ensures ok <==> BusLinksWork(fs, l)
    ensures ok ==> BusLinksDone(fs.tree, l)
  {
    ghost var drivers := l.Bus() + ["drivers"];
    BusNamesAreDistinct();
    TwoMoreAreFresh(BUS_NAMES, "devices", "drivers");
    Paths(l);
    ghost var t0 := fs.tree;
    HoldsNothing(t0, l.Bus(), BUS_NAMES, "devices");
    ok := MakeBusDevices(fs, l);
    ghost var t1 := fs.tree;
    GrowsTransitive(t0, t0, t1, l.Bus(), l.Bus(), l.BusDevices());
    if !ok { return; }
    HoldsOneMore(t0, t1, l.Bus(), BUS_NAMES, "devices", l.BusDevices());
    HoldsNothing(t1, l.Bus(), BUS_NAMES + ["devices"], "drivers");
    DirsStay(t0, t1, l.BusDevices(), l.Bus());
    ok := MakeBusDrivers(fs, l);
    StageThen(fs, t0, t1, fs.tree, l, l.Bus(), l.BusDevices(), drivers);
  }

  lemma BusLinksStage(fs: FileSystem, t: Tree, t': Tree, l: Layout, live: bool, adapter: int, domain: int)
    requires BusCardAndQueue(fs, t, l, live, adapter, domain)
    requires Grows(t, t', l.Bus()) && BusLinksDone(t', l)
    ensures Built(fs, t', l, live, adapter, domain)
  {
    BusStays(fs, t, t', l, l.Bus(), adapter, domain);
    CardStays(fs, t, t', l, l.Bus(), live);
    QueueStays(fs, t, t', l, l.Bus());
  }

  /** The stages in their order, up to the first that fails. */
  method BuildStages(fs: FileSystem, l: Layout, livesysfs: int, adapter: int, domain: int) returns (ok: bool)
    requires HasDirs(fs.tree, l.root) && OnlyPlanned(fs.tree, l) && NothingElse(fs, fs.tree, l)
               && Holds(fs.tree, l.root, [])
    requires l.queue !in CARD_NAMES && l.queue != l.card
    requires 0 <= adapter < 256 && 0 <= domain < 256
    modifies fs
    ensures OutsideKept(old(fs.tree), fs.tree, l.root) && OnlyPlanned(fs.tree, l) && NothingElse(fs, fs.tree, l)
    ensures ok <==> BusWorks(fs, l) && CardWorks(fs, l, livesysfs > 0) && QueueWorks(fs, l) && BusLinksWork(fs, l)
    ensures ok ==> Built(fs, fs.tree, l, livesysfs > 0, adapter, domain)
  {
    ghost var t0 := fs.tree;
    ok := BuildBusAndCard(fs, l, livesysfs, adapter, domain);
    ghost var t1 := fs.tree;
    if !ok { return; }
    HoldsNothing(t1, l.Card(), CARD_NAMES, l.queue);
    Paths(l);
    ok := MakeQueue(fs, l);
    ghost var t2 := fs.tree;
    StageKeepsOutside(fs, t0, t1, t2, l, l.Queue());
    if !ok { return; }
    QueueStage(fs, t1, t2, l, livesysfs > 0, adapter, domain);
    ok := MakeBusLinks(fs, l);
    StageKeepsOutside(fs, t0, t2, fs.tree, l, l.Bus());
    if ok {
      BusLinksStage(fs, t2, fs.tree, l, livesysfs > 0, adapter, domain);
    }
  }

  lemma BuiltHasTargets(fs: FileSystem, t: Tree, l: Layout, live: bool, adapter: int, domain: int)
    requires Built(fs, t, l, live, adapter, domain)
    ensures HasTargets(t, l)
  {
    forall i | 0 <= i < |LIVE_LINKS|
      ensures l.Queue() + [LIVE_LINKS[i]] in t
    {
      assert COUNTER_FILES[i + 1].0 == LIVE_LINKS[i];
      assert HasEntry(t, l.Queue() + [COUNTER_FILES[i + 1].0], File(Text(COUNTER_FILES[i + 1].1)));
    }
  }

  /** Removes what a former building may have left and makes the shadow's directory. */
  method MakeRoot(fs: FileSystem, l: Layout) returns (ok: bool)
    requires IsDir(fs.tree, []) && |l.root| == 1
    modifies fs
    ensures OutsideKept(old(fs.tree), fs.tree, l.root) && OnlyPlanned(fs.tree, l) && NothingElse(fs, fs.tree, l)
    ensures ok <==> fs.works(l.root)
    ensures if ok then HasDirs(fs.tree, l.root) && Holds(fs.tree, l.root, []) else NothingBelow(fs.tree, l.root)
  {
    fs.RemoveAll(l.root);
    ghost var emptied := fs.tree;
    assert l.root[..|l.root| - 1] == [];
    ok := fs.MakeDir(l.root, l.root);
    assert fs.DirsWork(l.root, l.root) <==> fs.works(l.root[..|l.root|]);
    assert l.root[..|l.root|] == l.root;
    assert forall p :: p in fs.tree && Below(p, l.root) ==> p == l.root;
  }

  /**
     The shadow of one device. It is made exactly when every step works, where in live mode writing the
     card's load file is no such step. Then every planned entry is there and nothing else, where in live mode
     the load file is there exactly when writing it worked; the masks show the container exactly its adapter
     and domain, and every link resolves inside the shadow. Otherwise nothing is left of it. Nothing else is
     ever touched.
   */
  method MakeShadowApSysfs(fs: FileSystem, id: string, livesysfs: int, adapter: int, domain: int)
    returns (ok: bool)
    requires 0 <= adapter < 256 && 0 <= domain < 256
    modifies fs
    ensures var l := LayoutOf(id, adapter, domain);
            && (ok <==> IsDir(old(fs.tree), []) && ShadowWorks(fs, l, livesysfs > 0))
            && (ok ==> Built(fs, fs.tree, l, livesysfs > 0, adapter, domain) && NothingElse(fs, fs.tree, l)
                       && OnlyPlanned(fs.tree, l) && Closed(fs.tree, l.root))
            && (ok && livesysfs > 0 ==> (LoadDone(fs.tree, l) <==> fs.works(l.Load())))
            && if IsDir(old(fs.tree), [])
               then OutsideKept(old(fs.tree), fs.tree, l.root) && (!ok ==> NothingBelow(fs.tree, l.root))
               else fs.tree == old(fs.tree)
  {
    var l := LayoutOf(id, adapter, domain);
    if !([] in fs.tree && fs.tree[[]].Dir?) {
      return false;
    }
    ok := MakeRoot(fs, l);
    if !ok {
      return;
    }
    LayoutNamesAreDistinct(adapter, domain);
    ok := BuildStages(fs, l, livesysfs, adapter, domain);
    if !ok {
      fs.RemoveAll(l.root);
      return;
    }
    BuiltHasTargets(fs, fs.tree, l, livesysfs > 0, adapter, domain);
    PlannedTreeIsClosed(fs.tree, l);
    LoadIsThereIff(fs, fs.tree, l, livesysfs > 0, adapter, domain);
  }

  lemma LoadIsThereIff(fs: FileSystem, t: Tree, l: Layout, live: bool, adapter: int, domain: int)
    requires Built(fs, t, l, live, adapter, domain) && NothingElse(fs, t, l)
    ensures live ==> (LoadDone(t, l) <==> fs.works(l.Load()))
  {
    assert Below(l.Load(), l.root);
  }

  // ----- the write that may fail unnoticed -----

  /** All steps but the writing of the card's load file work. */
  ghost predicate OnlyLoadFails(fs: FileSystem, l: Layout) {
    && (forall p: Path :: fs.works(p) <==> p != l.Load())
    && forall from: HostDir, name: string :: fs.readable(from, name)
  }

  lemma OthersWork(fs: FileSystem, l: Layout)
    requires OnlyLoadFails(fs, l) && l.queue !in CARD_NAMES
    ensures ShadowWorks(fs, l, true)
  {
    assert l.Load()[|l.root|] == "devices" && l.Load()[|l.root| + 3] == "load";
    CardNamesAreDistinct();
    assert CARD_NAMES[9] == "load";
    assert CardWorks(fs, l, true);
  }

  /** In live mode a shadow is made, and reported as made, without the card's load file. */
  method LoadFailureGoesUnnoticed(id: string) returns (fs: FileSystem, ok: bool)
    ensures var l := LayoutOf(id, 0, 0); OnlyLoadFails(fs, l) && ok && !LoadDone(fs.tree, l)
  {
    var l := LayoutOf(id, 0, 0);
    var load := l.Load();
    fs := new FileSystem(p => p != load, p => false, (from, name) => true, (from, name) => true, map[[] := Dir]);
    LayoutNamesAreDistinct(0, 0);
    OthersWork(fs, l);
    ok := MakeShadowApSysfs(fs, id, 1, 0, 0);
  }

  function LayoutOf(id: string, adapter: nat, domain: nat): Layout {
    Layout(["sysfs-" + id], CardDir(adapter), QueueDir(adapter, domain))
  }

  // ----- where the links lead -----

  /**
     In a shadow that was made, the driver links of card and queue lead to the directories whose own links lead back to
     card and queue, the subsystem links to the bus, and the bus's links to card and queue.
   */
  lemma LinksLead(fs: FileSystem, t: Tree, l: Layout, live: bool, adapter: int, domain: int)
    requires Built(fs, t, l, live, adapter, domain)
    ensures LeadsTo(t, l.Card() + ["driver"], l.CardDriver()) && LeadsTo(t, l.CardDriver() + [l.card], l.Card())
    ensures LeadsTo(t, l.Queue() + ["driver"], l.QueueDriver()) && LeadsTo(t, l.QueueDriver() + [l.queue], l.Queue())
    ensures LeadsTo(t, l.Card() + ["subsystem"], l.Bus()) && LeadsTo(t, l.Queue() + ["subsystem"], l.Bus())
    ensures LeadsTo(t, l.BusDevices() + [l.card], l.Card()) && LeadsTo(t, l.BusDevices() + [l.queue], l.Queue())
  {
    LeadUp(l, l.Card(), "driver", 3, ["bus", "ap", "drivers", "cex4card"]);
    LeadUp(l, l.Card(), "subsystem", 3, ["bus", "ap"]);
    LeadUp(l, l.Queue(), "driver", 4, ["bus", "ap", "drivers", "cex4queue"]);
    LeadUp(l, l.Queue(), "subsystem", 4, ["bus", "ap"]);
    LeadUp(l, l.BusDevices(), l.card, 3, ["devices", "ap", l.card]);
    LeadUp(l, l.BusDevices(), l.queue, 3, ["devices", "ap", l.card, l.queue]);
    LeadUp(l, l.CardDriver(), l.card, 4, ["devices", "ap", l.card]);
    LeadUp(l, l.QueueDriver(), l.queue, 4, ["devices", "ap", l.card, l.queue]);
  }

  /** There is a link at p that leads to the target. */
  ghost predicate LeadsTo(t: Tree, p: Path, target: Path) {
    p in t && t[p].Link? && p != [] && t[p].ups < |p| && Destination(p, t[p]) == target
  }

  lemma LeadUp(l: Layout, dir: Path, name: string, ups: nat, downs: seq<string>)
    requires l.root <= dir && |dir| == |l.root| + ups
    ensures Destination(dir + [name], Link(ups, downs)) == l.root + downs
  {
    var p := dir + [name];
    assert p[..|p| - 1 - ups] == l.root;
  }
}
