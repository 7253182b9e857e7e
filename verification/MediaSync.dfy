/** cmd/teslausb/main.go, runMediaSync: the grouping of targets by partition, and the loop that
    mounts each partition once, syncs its folders and unmounts it. */
module MediaSync {
  import opened Common
  import opened Outside
  import Fsutil

  datatype Target = Target(enabled: bool, partition: string, folder: string, subdir: string)

  // ------------------------------------------------------------ grouping

  /** The enabled targets of one partition, in the order of the list. */
  function Of(targets: seq<Target>, part: string): seq<Target> {
    if targets == [] then []
    else (if targets[0].enabled && targets[0].partition == part then [targets[0]] else []) + Of(targets[1..], part)
  }

  function Enabled(targets: seq<Target>): seq<Target> {
    if targets == [] then [] else (if targets[0].enabled then [targets[0]] else []) + Enabled(targets[1..])
  }

  lemma OfAppend(a: seq<Target>, b: seq<Target>, part: string)
    ensures Of(a + b, part) == Of(a, part) + Of(b, part)
  {
    if a == [] {
      assert a + b == b;
    } else {
      assert (a + b)[1..] == a[1..] + b;
      OfAppend(a[1..], b, part);
      var head := if a[0].enabled && a[0].partition == part then [a[0]] else [];
      assert head + (Of(a[1..], part) + Of(b, part)) == (head + Of(a[1..], part)) + Of(b, part);
    }
  }

  /** The groups of the given partitions, one after the other. */
  function Flatten(order: seq<string>, targets: seq<Target>): seq<Target> {
    if order == [] then [] else Of(targets, order[0]) + Flatten(order[1..], targets)
  }

  /** `order` lists, without repetition, exactly the partitions that have an enabled target. */
  predicate Orders(order: seq<string>, targets: seq<Target>) {
    && Distinct(order)
    && (forall part :: part in order ==> Of(targets, part) != [])
    && (forall t :: t in targets && t.enabled ==> t.partition in order)
  }

  /** The partitions of the enabled targets, each where it first occurs. */
  function OrderOf(targets: seq<Target>): seq<string> {
    if targets == [] then []
    else
      var before, t := OrderOf(targets[..|targets| - 1]), targets[|targets| - 1];
      if t.enabled && t.partition !in before then before + [t.partition] else before
  }

  /** What the two local variables of the grouping loop hold of one partition ... */
  predicate Bucket(order: seq<string>, byPartition: map<string, seq<Target>>, targets: seq<Target>, part: string) {
    && (part in byPartition <==> part in order)
    && Of(targets, part) == if part in byPartition then byPartition[part] else []
  }

  /** ... and of all of them. */
  ghost predicate Grouped(order: seq<string>, byPartition: map<string, seq<Target>>, targets: seq<Target>) {
    && order == OrderOf(targets) && Orders(order, targets)
    && (forall part :: Bucket(order, byPartition, targets, part))
  }

  lemma OfOneMore(targets: seq<Target>, t: Target, part: string)
    ensures Of(targets + [t], part)
      == if t.enabled && t.partition == part then Of(targets, part) + [t] else Of(targets, part)
  {
    OfAppend(targets, [t], part);
    assert Of([t][1..], part) == [];
  }

  lemma GroupDisabled(order: seq<string>, byPartition: map<string, seq<Target>>, targets: seq<Target>, t: Target)
    requires Grouped(order, byPartition, targets) && !t.enabled
    ensures Grouped(order, byPartition, targets + [t])
  {
    assert (targets + [t])[..|targets|] == targets;
    forall part: string ensures Of(targets + [t], part) == Of(targets, part) {
      OfOneMore(targets, t, part);
    }
    forall part: string ensures Bucket(order, byPartition, targets + [t], part) {
      assert Bucket(order, byPartition, targets, part);
      assert Of(targets + [t], part) == Of(targets, part);
    }
  }

  lemma OrderOneMore(order: seq<string>, targets: seq<Target>, t: Target)
    requires order == OrderOf(targets) && Orders(order, targets) && t.enabled
    ensures var order' := if t.partition in order then order else order + [t.partition];
      order' == OrderOf(targets + [t]) && Orders(order', targets + [t])
  {
    var order' := if t.partition in order then order else order + [t.partition];
    assert (targets + [t])[..|targets|] == targets;
    forall part | part in order' ensures Of(targets + [t], part) != [] {
      OfOneMore(targets, t, part);
    }
    forall x | x in targets + [t] && x.enabled ensures x.partition in order' {
      if x in targets { assert x.partition in order; }
    }
  }

  lemma GroupEnabled(order: seq<string>, byPartition: map<string, seq<Target>>, targets: seq<Target>, t: Target)
    requires Grouped(order, byPartition, targets) && t.enabled
    ensures var order' := if t.partition in byPartition then order else order + [t.partition];
      var old' := if t.partition in byPartition then byPartition[t.partition] else [];
      Grouped(order', byPartition[t.partition := old' + [t]], targets + [t])
  {
    OrderOneMore(order, targets, t);
    hide Orders, Of, OrderOf, Bucket;
    var order' := if t.partition in byPartition then order else order + [t.partition];
    var old' := if t.partition in byPartition then byPartition[t.partition] else [];
    var byPartition' := byPartition[t.partition := old' + [t]];
    forall part: string ensures Bucket(order', byPartition', targets + [t], part) {
      BucketStep(order, byPartition, targets, t, part);
    }
    assert t.partition in byPartition <==> t.partition in order by {
      BucketStep(order, byPartition, targets, t, t.partition);
    }
  }

  lemma BucketStep(order: seq<string>, byPartition: map<string, seq<Target>>, targets: seq<Target>, t: Target,
                   part: string)
    requires Bucket(order, byPartition, targets, part) && Bucket(order, byPartition, targets, t.partition) && t.enabled
    ensures var order' := if t.partition in byPartition then order else order + [t.partition];
      var old' := if t.partition in byPartition then byPartition[t.partition] else [];
      Bucket(order', byPartition[t.partition := old' + [t]], targets + [t], part)
    ensures t.partition in byPartition <==> t.partition in order
  {
    OfOneMore(targets, t, part);
    hide Of;
  }

  /** The loop body for an enabled target. */
  method Place(order: seq<string>, byPartition: map<string, seq<Target>>, t: Target)
    returns (order': seq<string>, byPartition': map<string, seq<Target>>)
    ensures order' == if t.partition in byPartition then order else order + [t.partition]
    ensures byPartition' == byPartition[t.partition :=
      (if t.partition in byPartition then byPartition[t.partition] else []) + [t]]
  {
    order', byPartition' := order, byPartition;
    if t.partition !in byPartition {
      order' := order + [t.partition];
      byPartition' := byPartition[t.partition := []];
    }
    byPartition' := byPartition'[t.partition := byPartition'[t.partition] + [t]];
  }

  method Group(targets: seq<Target>) returns (order: seq<string>, byPartition: map<string, seq<Target>>)
    ensures order == OrderOf(targets) && Orders(order, targets)
    ensures forall part :: part in byPartition <==> part in order
    ensures forall part :: part in byPartition ==> byPartition[part] == Of(targets, part)
  {
    order, byPartition := [], map[];
    for i := 0 to |targets|
      invariant Grouped(order, byPartition, targets[..i])
    {
      hide Grouped;
      var t := targets[i];
      assert targets[..i + 1] == targets[..i] + [t];
      if !t.enabled {
        GroupDisabled(order, byPartition, targets[..i], t);
        continue;
      }
      GroupEnabled(order, byPartition, targets[..i], t);
      order, byPartition := Place(order, byPartition, t);
    }
    assert targets[..|targets|] == targets;
    Buckets(order, byPartition, targets);
  }

  lemma Buckets(order: seq<string>, byPartition: map<string, seq<Target>>, targets: seq<Target>)
    requires Grouped(order, byPartition, targets)
    ensures order == OrderOf(targets) && Orders(order, targets)
    ensures forall part :: part in byPartition <==> part in order
    ensures forall part :: part in byPartition ==> byPartition[part] == Of(targets, part)
  {
    forall part: string
      ensures part in byPartition <==> part in order
      ensures part in byPartition ==> byPartition[part] == Of(targets, part)
    {
      assert Bucket(order, byPartition, targets, part);
    }
  }

  lemma OfOf(targets: seq<Target>, part: string, other: string)
    ensures Of(Of(targets, part), other) == if part == other then Of(targets, part) else []
  {
    if targets != [] {
      OfOf(targets[1..], part, other);
      var head := if targets[0].enabled && targets[0].partition == part then [targets[0]] else [];
      OfAppend(head, Of(targets[1..], part), other);
    }
  }

  /** Grouping is a stable partition: what it does to the targets of any one partition is nothing -
      same targets, same order - it only brings them together. */
  lemma {:induction false} GroupingIsStable(order: seq<string>, targets: seq<Target>, part: string)
    requires Distinct(order)
    ensures Of(Flatten(order, targets), part) == if part in order then Of(targets, part) else []
  {
    if order != [] {
      assert Distinct(order[1..]);
      assert order[0] !in order[1..];
      GroupingIsStable(order[1..], targets, part);
      OfAppend(Of(targets, order[0]), Flatten(order[1..], targets), part);
      OfOf(targets, order[0], part);
    }
  }

  /** ... so no target is lost or repeated. */
  lemma GroupingPermutes(order: seq<string>, targets: seq<Target>)
    requires Orders(order, targets)
    ensures multiset(Flatten(order, targets)) == multiset(Enabled(targets))
  {
    forall t: Target ensures multiset(Flatten(order, targets))[t] == multiset(Enabled(targets))[t] {
      GroupingIsStable(order, targets, t.partition);
      FlattenEnabled(order, targets);
      EnabledOf(targets, t.partition);
      CountOf(Flatten(order, targets), t);
      CountOf(Enabled(targets), t);
      if t.partition !in order {
        NoneOf(targets, t.partition);
      }
    }
  }

  lemma NoneOf(targets: seq<Target>, part: string)
    requires forall t :: t in targets && t.enabled ==> t.partition != part
    ensures Of(targets, part) == []
  {
    if targets != [] {
      assert targets[0] in targets;
      forall t | t in targets[1..] && t.enabled ensures t.partition != part { assert t in targets; }
      NoneOf(targets[1..], part);
    }
  }

  lemma EnabledOf(targets: seq<Target>, part: string)
    ensures Of(Enabled(targets), part) == Of(targets, part)
    ensures forall t :: t in Enabled(targets) ==> t.enabled
  {
    if targets != [] {
      EnabledOf(targets[1..], part);
      OfAppend(if targets[0].enabled then [targets[0]] else [], Enabled(targets[1..]), part);
    }
  }

  lemma OfEnabled(targets: seq<Target>, part: string)
    ensures forall t :: t in Of(targets, part) ==> t.enabled
  {
  }

  lemma FlattenEnabled(order: seq<string>, targets: seq<Target>)
    ensures forall t :: t in Flatten(order, targets) ==> t.enabled
  {
    if order != [] {
      OfEnabled(targets, order[0]);
      FlattenEnabled(order[1..], targets);
    }
  }

  lemma FlattenAmong(order: seq<string>, targets: seq<Target>)
    ensures forall t :: t in Flatten(order, targets) ==> t in targets
  {
    if order != [] {
      OfAmong(targets, order[0]);
      FlattenAmong(order[1..], targets);
    }
  }

  lemma OfAmong(targets: seq<Target>, part: string)
    ensures forall t :: t in Of(targets, part) ==> t in targets && t.enabled && t.partition == part
  {
    if targets != [] {
      OfAmong(targets[1..], part);
      assert targets == [targets[0]] + targets[1..];
    }
  }

  /** Among enabled targets, a target is counted within its own partition. */
  lemma CountOf(s: seq<Target>, t: Target)
    requires forall x :: x in s ==> x.enabled
    ensures multiset(s)[t] == multiset(Of(s, t.partition))[t]
  {
    if s != [] {
      assert s == [s[0]] + s[1..];
      assert s[0] in s;
      forall x | x in s[1..] ensures x.enabled { assert x in s; }
      CountOf(s[1..], t);
      assert multiset(Of(s, t.partition))
          == multiset(if s[0].partition == t.partition then [s[0]] else []) + multiset(Of(s[1..], t.partition));
    }
  }

  // ------------------------------------------------------------ syncing

  /** depth: mounts stacked on each media mountpoint; faults: refused teardown requests there;
      tried: the partitions fsutil.Mount was called for, in order; asked: the targets whose SyncMedia was
      called, in order; done: those of them for which it succeeded. */
  datatype Media = Media(depth: map<string, nat>, faults: nat, tried: seq<string>, asked: seq<Visit>,
                         done: seq<Target>)

  /** A call of SyncMedia, and how many mounts were on the target's mountpoint then. */
  datatype Visit = Visit(target: Target, depth: nat)

  function Visits(ts: seq<Target>, depth: nat): seq<Visit> {
    if ts == [] then [] else [Visit(ts[0], depth)] + Visits(ts[1..], depth)
  }

  function TargetsOf(vs: seq<Visit>): seq<Target> {
    if vs == [] then [] else [vs[0].target] + TargetsOf(vs[1..])
  }

  function At(m: Media, part: string): Fsutil.MountPoint {
    Fsutil.MountPoint(if part in m.depth then m.depth[part] else 0, m.faults)
  }

  function Put(m: Media, part: string, at: Fsutil.MountPoint): Media {
    m.(depth := m.depth[part := at.depth], faults := at.faults)
  }

  function Tried(m: Media, part: string): Media { m.(tried := m.tried + [part]) }

  ghost function Mounted(m: Media): set<string> {
    set part | part in m.depth && At(m, part).depth > 0
  }

  datatype Folders = Folders(p: Proc, asked: seq<Target>, done: seq<Target>)

  /** mkdir of a subdirectory where there is one, then the backend's SyncMedia; failures are logged. */
  function SyncFolders(p: Proc, ts: seq<Target>, env: Env): Folders
    decreases |ts|
  {
    if ts == [] then Folders(p, [], [])
    else
      var dir := if ts[0].subdir == "" then Reply(p, !p.dead, 0) else Ask(p, env);
      var sync := if dir.ok then Ask(dir.p, env) else Reply(dir.p, false, 0);
      var rest := SyncFolders(sync.p, ts[1..], env);
      Folders(rest.p, (if dir.ok then [ts[0]] else []) + rest.asked, (if sync.ok then [ts[0]] else []) + rest.done)
  }

  function Record(m: Media, f: Folders, depth: nat): Media {
    m.(asked := m.asked + Visits(f.asked, depth), done := m.done + f.done)
  }

  function SyncOne(p: Proc, m: Media, part: string, ts: seq<Target>, env: Env): (Proc, Media) {
    var stat := Ask(p, env);
    if !stat.ok then (stat.p, m) else
      var dir := Ask(stat.p, env);
      if !dir.ok then (dir.p, m) else
        var mt := Fsutil.Mount(dir.p, At(m, part), env);
        if !mt.ok then (mt.p, Put(Tried(m, part), part, mt.at)) else
          var f := SyncFolders(mt.p, ts, env);
          var u := Fsutil.Unmount(f.p, mt.at, env);
          (u.p, Record(Put(Tried(m, part), part, u.at), f, mt.at.depth))
  }

  function SyncAll(p: Proc, m: Media, order: seq<string>, targets: seq<Target>, env: Env): (Proc, Media)
    decreases |order|
  {
    if order == [] then (p, m) else
      var r := SyncOne(p, m, order[0], Of(targets, order[0]), env);
      SyncAll(r.0, r.1, order[1..], targets, env)
  }

  lemma DeadSyncs(p: Proc, ts: seq<Target>, env: Env)
    ensures p.dead ==> SyncFolders(p, ts, env) == Folders(p, [], [])
    decreases |ts|
  {
    if ts != [] {
      var dir := if ts[0].subdir == "" then Reply(p, !p.dead, 0) else Ask(p, env);
      var sync := if dir.ok then Ask(dir.p, env) else Reply(dir.p, false, 0);
      DeadSyncs(sync.p, ts[1..], env);
    }
  }

  /** The partition exists and its mountpoint could be made. */
  predicate Reached(p: Proc, env: Env) { Ask(p, env).ok && Ask(Ask(p, env).p, env).ok }

  /** ... that is: the look at the device and the mkdir were carried out. */
  predicate Visited(p: Proc, env: Env) { !p.dead && env(p.clock).Done? && env(p.clock + 1).Done? }

  /** The outcome of one partition, as its mountpoint sees it: nothing, or a Mount that failed, or a
      Mount, the folders, and an Unmount. */
  lemma SyncOneIs(p: Proc, m: Media, part: string, ts: seq<Target>, env: Env)
    ensures var r := SyncOne(p, m, part, ts, env);
      var at := At(m, part);
      && (!Reached(p, env) ==> r.1 == m && (p.dead ==> r.0 == p))
      && (Reached(p, env) ==>
            var mt := Fsutil.Mount(Ask(Ask(p, env).p, env).p, at, env);
            var f := SyncFolders(mt.p, ts, env);
            var u := Fsutil.Unmount(f.p, mt.at, env);
            && !p.dead
            && r == if mt.ok then (u.p, Record(Put(Tried(m, part), part, u.at), f, mt.at.depth))
                    else (mt.p, Put(Tried(m, part), part, mt.at)))
  {
    hide Fsutil.Mount, Fsutil.Unmount, SyncFolders, Put, At, Tried, Record;
  }

  /** What it does to its mountpoint. */
  lemma VisitMeaning(p: Proc, at: Fsutil.MountPoint, ts: seq<Target>, env: Env)
    requires !p.dead
    ensures var mt := Fsutil.Mount(p, at, env);
      var u := Fsutil.Unmount(SyncFolders(mt.p, ts, env).p, mt.at, env);
      var q, end := if mt.ok then u.p else mt.p, if mt.ok then u.at else mt.at;
      && end.faults >= at.faults
      && (end.depth > 0 ==> at.depth > 0 || end.faults > at.faults || q.dead)
      && (!q.dead && end.faults == at.faults && at.depth <= 1 ==> end.depth == 0)
  {
    var mt := Fsutil.Mount(p, at, env);
    Fsutil.MountNeverStacks(p, at, env);
    var q := SyncFolders(mt.p, ts, env).p;
    DeadSyncs(mt.p, ts, env);
    if q.dead {
      Fsutil.DeadUnmounts(q, mt.at, env);
    } else {
      Fsutil.UnmountMeaning(q, mt.at, env);
    }
    hide Fsutil.Mount, Fsutil.Unmount, SyncFolders;
  }

  /** One partition: it is left mounted only for a fault or for the process's death; and a stale mount
      left there by an earlier life is gone afterwards if neither happens. */
  lemma SyncOneMeaning(p: Proc, m: Media, part: string, ts: seq<Target>, env: Env)
    ensures var r := SyncOne(p, m, part, ts, env);
      && r.1.faults >= m.faults
      && (p.dead ==> r == (p, m))
      && r.1.depth.Keys <= m.depth.Keys + {part}
      && r.1.tried == m.tried + (if Visited(p, env) then [part] else [])
      && (forall other :: other != part ==> At(r.1, other).depth == At(m, other).depth)
      && (At(r.1, part).depth > 0 ==> At(m, part).depth > 0 || r.1.faults > m.faults || r.0.dead)
      && (Reached(p, env) && !r.0.dead && r.1.faults == m.faults && At(m, part).depth <= 1
          ==> At(r.1, part).depth == 0)
  {
    SyncOneIs(p, m, part, ts, env);
    if Reached(p, env) {
      VisitMeaning(Ask(Ask(p, env).p, env).p, At(m, part), ts, env);
    }
    hide SyncOne, Fsutil.Mount, Fsutil.Unmount, SyncFolders;
  }

  lemma SyncOneCounts(p: Proc, m: Media, part: string, ts: seq<Target>, env: Env)
    ensures var r := SyncOne(p, m, part, ts, env);
      |Mounted(r.1)| <= |Mounted(m)| + (r.1.faults - m.faults) + Died(p, r.0)
  {
    SyncOneMeaning(p, m, part, ts, env);
    hide SyncOne;
    var r := SyncOne(p, m, part, ts, env);
    if part in Mounted(r.1) && part !in Mounted(m) {
      assert Mounted(r.1) <= Mounted(m) + {part};
      CardSubset(Mounted(r.1), Mounted(m) + {part});
      assert |Mounted(m) + {part}| == |Mounted(m)| + 1;
    } else {
      assert Mounted(r.1) <= Mounted(m);
      CardSubset(Mounted(r.1), Mounted(m));
    }
  }

  /** A whole sync: every partition left mounted is paid for by a fault, or by the process's death. */
  lemma {:induction false} SyncAllCounts(p: Proc, m: Media, order: seq<string>, targets: seq<Target>, env: Env)
    ensures var r := SyncAll(p, m, order, targets, env);
      && r.1.faults >= m.faults && (p.dead ==> r == (p, m))
      && |Mounted(r.1)| <= |Mounted(m)| + (r.1.faults - m.faults) + Died(p, r.0)
    decreases |order|
  {
    if order != [] {
      var r := SyncOne(p, m, order[0], Of(targets, order[0]), env);
      SyncOneMeaning(p, m, order[0], Of(targets, order[0]), env);
      SyncOneCounts(p, m, order[0], Of(targets, order[0]), env);
      SyncAllCounts(r.0, r.1, order[1..], targets, env);
    }
  }

  /** The source's promise: each partition is mounted at most once per sync. */
  lemma {:induction false} EachMountedOnce(p: Proc, m: Media, order: seq<string>, targets: seq<Target>, env: Env,
                                           part: string)
    requires Distinct(order)
    ensures var r := SyncAll(p, m, order, targets, env);
      multiset(r.1.tried)[part] <= multiset(m.tried)[part] + if part in order then 1 else 0
    decreases |order|
  {
    hide SyncOne, Of;
    if order != [] {
      var r := SyncOne(p, m, order[0], Of(targets, order[0]), env);
      SyncOneMeaning(p, m, order[0], Of(targets, order[0]), env);
      assert order[0] !in order[1..];
      EachMountedOnce(r.0, r.1, order[1..], targets, env, part);
      assert order == [order[0]] + order[1..];
    }
  }

  // ------------------------------------------------------------ which folders are synced

  lemma TargetsOfVisits(ts: seq<Target>, depth: nat)
    ensures TargetsOf(Visits(ts, depth)) == ts
  {
  }

  lemma TargetsOfAre(vs: seq<Visit>)
    ensures forall v :: v in vs ==> v.target in TargetsOf(vs)
  {
    if vs != [] {
      TargetsOfAre(vs[1..]);
      assert vs == [vs[0]] + vs[1..];
    }
  }

  lemma TargetsOfMore(a: seq<Visit>, b: seq<Visit>)
    ensures TargetsOf(a + b) == TargetsOf(a) + TargetsOf(b)
  {
    if a == [] {
      assert a + b == b;
    } else {
      assert (a + b)[1..] == a[1..] + b;
      TargetsOfMore(a[1..], b);
    }
  }

  /** The request at which target i of a group has its turn: each before it took one for its subdirectory, if it
      has one, and one for its SyncMedia, if that was called. */
  function TurnOf(clock: nat, ts: seq<Target>, asked: seq<bool>): nat
    requires |ts| == |asked|
    decreases |ts|
  {
    if ts == [] then clock else TurnOf(clock + One(ts[0].subdir != "") + One(asked[0]), ts[1..], asked[1..])
  }

  /** Of a group, precisely those are synced whose subdirectory could be made, whatever became of the others; and
      those are done whose SyncMedia was carried out. */
  ghost predicate Decided(clock: nat, ts: seq<Target>, asked: seq<bool>, done: seq<bool>, env: Env)
    requires |ts| == |asked| == |done|
  {
    forall i :: 0 <= i < |ts| ==>
      var turn := TurnOf(clock, ts[..i], asked[..i]);
      && (asked[i] <==> ts[i].subdir == "" || env(turn).Done?)
      && (done[i] <==> asked[i] && env(turn + One(ts[i].subdir != "")).Done?)
  }

  lemma {:induction false} FoldersChoose(p: Proc, ts: seq<Target>, env: Env)
    returns (asked: seq<bool>, done: seq<bool>)
    ensures |asked| == |done| == |ts|
    ensures var f := SyncFolders(p, ts, env);
      && f.asked == Chosen(ts, asked) && f.done == Chosen(ts, done)
      && (p.dead ==> f.p.dead) && (!f.p.dead ==> Decided(p.clock, ts, asked, done, env))
    decreases |ts|
  {
    hide SyncFolders, Decided, Chosen;
    if ts == [] {
      asked, done := [], [];
      NoFolders(p, env);
    } else {
      var q, a0, d0 := FirstFolder(p, ts, env);
      var a, d := FoldersChoose(q, ts[1..], env);
      asked, done := [a0] + a, [d0] + d;
      assert asked[1..] == a && done[1..] == d;
      ChosenMore([ts[0]], [a0], ts[1..], a);
      ChosenMore([ts[0]], [d0], ts[1..], d);
      assert [ts[0]] + ts[1..] == ts;
      ChosenOne(ts[0], a0);
      ChosenOne(ts[0], d0);
      if !SyncFolders(p, ts, env).p.dead {
        DecidedMore(p.clock, ts, asked, done, env);
      }
    }
  }

  lemma NoFolders(p: Proc, env: Env)
    ensures SyncFolders(p, [], env) == Folders(p, [], []) && Decided(p.clock, [], [], [], env)
    ensures Chosen<Target>([], []) == []
  {
  }

  lemma ChosenOne<T>(x: T, keep: bool)
    ensures Chosen([x], [keep]) == if keep then [x] else []
  {
    assert [x][1..] == [] && [keep][1..] == [];
    assert Chosen<T>([], []) == [];
  }

  /** The turn of the first target: where it leaves the process, and whether it was asked for and done. */
  lemma FirstFolder(p: Proc, ts: seq<Target>, env: Env) returns (q: Proc, asked: bool, done: bool)
    requires ts != []
    ensures var f, rest := SyncFolders(p, ts, env), SyncFolders(q, ts[1..], env);
      && f.p == rest.p && f.asked == (if asked then [ts[0]] else []) + rest.asked
      && f.done == (if done then [ts[0]] else []) + rest.done
    ensures p.dead ==> q.dead
    ensures !q.dead ==>
      && (asked <==> ts[0].subdir == "" || env(p.clock).Done?)
      && (done <==> asked && env(p.clock + One(ts[0].subdir != "")).Done?)
      && q.clock == p.clock + One(ts[0].subdir != "") + One(asked)
  {
    var dir := if ts[0].subdir == "" then Reply(p, !p.dead, 0) else Ask(p, env);
    var sync := if dir.ok then Ask(dir.p, env) else Reply(dir.p, false, 0);
    q, asked, done := sync.p, dir.ok, sync.ok;
  }

  lemma DecidedMore(clock: nat, ts: seq<Target>, asked: seq<bool>, done: seq<bool>, env: Env)
    requires |ts| == |asked| == |done| > 0
    requires asked[0] <==> ts[0].subdir == "" || env(clock).Done?
    requires done[0] <==> asked[0] && env(clock + One(ts[0].subdir != "")).Done?
    requires Decided(clock + One(ts[0].subdir != "") + One(asked[0]), ts[1..], asked[1..], done[1..], env)
    ensures Decided(clock, ts, asked, done, env)
  {
    forall i | 0 <= i < |ts|
      ensures var turn := TurnOf(clock, ts[..i], asked[..i]);
        && (asked[i] <==> ts[i].subdir == "" || env(turn).Done?)
        && (done[i] <==> asked[i] && env(turn + One(ts[i].subdir != "")).Done?)
    {
      if i > 0 {
        assert ts[..i][1..] == ts[1..][..i - 1] && asked[..i][1..] == asked[1..][..i - 1];
        assert ts[i] == ts[1..][i - 1] && asked[i] == asked[1..][i - 1] && done[i] == done[1..][i - 1];
      }
    }
  }

  /** What a sync adds to the record: SyncMedia was called for these targets. */
  ghost predicate Asked(m: Media, r: Media, ts: seq<Target>) {
    m.asked <= r.asked && TargetsOf(r.asked[|m.asked|..]) == ts
  }

  /** ... each of them with its partition mounted. */
  ghost predicate AskedMounted(m: Media, r: Media) {
    m.asked <= r.asked && forall v :: v in r.asked[|m.asked|..] ==> v.depth > 0
  }

  lemma VisitsMounted(ts: seq<Target>, depth: nat)
    requires depth > 0
    ensures forall v :: v in Visits(ts, depth) ==> v.depth > 0
  {
  }

  lemma MountedAfterMount(p: Proc, at: Fsutil.MountPoint, env: Env)
    ensures var mt := Fsutil.Mount(p, at, env); mt.ok ==> mt.at.depth > 0
  {
  }

  lemma RecordAsks(m: Media, m1: Media, f: Folders, depth: nat)
    requires m1.asked == m.asked && depth > 0
    ensures Asked(m, Record(m1, f, depth), f.asked) && AskedMounted(m, Record(m1, f, depth))
  {
    var r := Record(m1, f, depth);
    assert r.asked[|m.asked|..] == Visits(f.asked, depth);
    TargetsOfVisits(f.asked, depth);
    VisitsMounted(f.asked, depth);
  }

  lemma SyncOneAsks(p: Proc, m: Media, part: string, ts: seq<Target>, env: Env) returns (keep: seq<bool>)
    ensures |keep| == |ts|
    ensures var r := SyncOne(p, m, part, ts, env); Asked(m, r.1, Chosen(ts, keep)) && AskedMounted(m, r.1)
  {
    SyncOneIs(p, m, part, ts, env);
    var q := Ask(Ask(p, env).p, env).p;
    var mt := Fsutil.Mount(q, At(m, part), env);
    hide SyncOne, Fsutil.Mount, Fsutil.Unmount, SyncFolders, At, Record;
    if Reached(p, env) && mt.ok {
      var f := SyncFolders(mt.p, ts, env);
      var done;
      keep, done := FoldersChoose(mt.p, ts, env);
      MountedAfterMount(q, At(m, part), env);
      RecordAsks(m, Put(Tried(m, part), part, Fsutil.Unmount(f.p, mt.at, env).at), f, mt.at.depth);
    } else {
      keep := seq(|ts|, i => false);
      ChosenNone(ts, keep);
      assert m.asked[|m.asked|..] == [];
    }
  }

  lemma AskedMore(m: Media, r: Media, t: Media, a: seq<Target>, b: seq<Target>)
    requires Asked(m, r, a) && AskedMounted(m, r) && Asked(r, t, b) && AskedMounted(r, t)
    ensures Asked(m, t, a + b) && AskedMounted(m, t)
  {
    assert t.asked[|m.asked|..] == r.asked[|m.asked|..] + t.asked[|r.asked|..];
    TargetsOfMore(r.asked[|m.asked|..], t.asked[|r.asked|..]);
  }

  /** A whole sync, whatever it meets, calls SyncMedia for some of the enabled targets, partition by partition and
      in the order of the list, and for each only while its own partition is mounted. */
  lemma {:induction false} SyncAllAsks(p: Proc, m: Media, order: seq<string>, targets: seq<Target>, env: Env)
    returns (keep: seq<bool>)
    ensures |keep| == |Flatten(order, targets)|
    ensures var r := SyncAll(p, m, order, targets, env);
      Asked(m, r.1, Chosen(Flatten(order, targets), keep)) && AskedMounted(m, r.1)
    decreases |order|
  {
    hide SyncOne, Of, Asked, AskedMounted;
    if order == [] {
      keep := [];
      AskedNothing(m);
    } else {
      var ts := Of(targets, order[0]);
      var r := SyncOne(p, m, order[0], ts, env);
      var first := SyncOneAsks(p, m, order[0], ts, env);
      var rest := SyncAllAsks(r.0, r.1, order[1..], targets, env);
      keep := first + rest;
      ChosenMore(ts, first, Flatten(order[1..], targets), rest);
      AskedMore(m, r.1, SyncAll(p, m, order, targets, env).1, Chosen(ts, first),
                Chosen(Flatten(order[1..], targets), rest));
    }
  }

  lemma AskedNothing(m: Media)
    ensures Asked(m, m, []) && AskedMounted(m, m)
  {
    assert m.asked[|m.asked|..] == [];
  }

  lemma PutAgain(m: Media, part: string, a: Fsutil.MountPoint, b: Fsutil.MountPoint)
    ensures Put(Put(m, part, a), part, b) == Put(m, part, b)
  {
  }

  lemma AtPut(m: Media, part: string)
    ensures forall a :: At(Put(m, part, a), part) == a
  {
  }

  lemma SameAt(m: Media, part: string)
    ensures At(Tried(m, part), part) == At(m, part)
  {
  }

  lemma RecordMore(m: Media, t: Target, depth: nat, f: Folders, asked: bool, done: bool)
    ensures Record(m, Folders(f.p, (if asked then [t] else []) + f.asked, (if done then [t] else []) + f.done), depth)
      == Record(m.(asked := if asked then m.asked + [Visit(t, depth)] else m.asked,
                   done := if done then m.done + [t] else m.done), f, depth)
  {
    assert ([t] + f.asked)[1..] == f.asked && [] + f.asked == f.asked && [] + f.done == f.done;
  }

  lemma RecordNothing(m: Media, depth: nat, p: Proc)
    ensures Record(m, Folders(p, [], []), depth) == m
  {
  }

  lemma RecordAside(m: Media, f: Folders, depth: nat, part: string)
    ensures At(Record(m, f, depth), part) == At(m, part)
  {
  }

  lemma RecordPut(m: Media, f: Folders, depth: nat, part: string, at: Fsutil.MountPoint)
    ensures Put(Record(m, f, depth), part, at) == Record(Put(m, part, at), f, depth)
  {
  }

  /** The mount table of the media partitions, changed step by step as fsutil does it. */
  class Partitions {
    var m: Media

    constructor (m: Media)
      ensures this.m == m
    {
      this.m := m;
    }

    method IsMounted(h: Host, part: string) returns (mounted: bool)
      modifies this, h
      ensures var r := Fsutil.IsMounted(old(h.p), At(old(m), part), h.env);
        h.p == r.p && At(m, part) == r.at && m == Put(old(m), part, r.at) && mounted == r.ok
    {
      var r := Fsutil.IsMounted(h.p, At(m, part), h.env);
      h.p, m, mounted := r.p, Put(m, part, r.at), r.ok;
    }

    method Umount(h: Host, part: string, lazy: bool) returns (ok: bool)
      modifies this, h
      ensures var r := if lazy then Fsutil.LazyUmount(old(h.p), At(old(m), part), h.env)
                       else Fsutil.Umount(old(h.p), At(old(m), part), h.env);
        h.p == r.p && At(m, part) == r.at && m == Put(old(m), part, r.at) && ok == r.ok
    {
      var r := if lazy then Fsutil.LazyUmount(h.p, At(m, part), h.env)
               else Fsutil.Umount(h.p, At(m, part), h.env);
      h.p, m, ok := r.p, Put(m, part, r.at), r.ok;
    }

    method MountCmd(h: Host, part: string) returns (ok: bool)
      modifies this, h
      ensures var r := Fsutil.MountCmd(old(h.p), At(old(m), part), h.env);
        h.p == r.p && At(m, part) == r.at && m == Put(old(m), part, r.at) && ok == r.ok
    {
      var r := Fsutil.MountCmd(h.p, At(m, part), h.env);
      h.p, m, ok := r.p, Put(m, part, r.at), r.ok;
    }

    /** fsutil.Unmount. */
    method Unmount(h: Host, part: string) returns (ok: bool)
      modifies this, h
      ensures var r := Fsutil.Unmount(old(h.p), At(old(m), part), h.env);
        h.p == r.p && At(m, part) == r.at && m == Put(old(m), part, r.at) && ok == r.ok
    {
      hide Fsutil.IsMounted, Fsutil.Umount, Fsutil.LazyUmount, At, Put;
      var mounted := IsMounted(h, part);
      if !mounted {
        return true;
      }
      ghost var m1 := m;
      ok := Umount(h, part, false);
      PutAgain(old(m), part, At(m1, part), At(m, part));
      if ok { return; }
      ghost var m2 := m;
      ok := Umount(h, part, true);
      PutAgain(old(m), part, At(m2, part), At(m, part));
    }

    /** fsutil.Mount. */
    method Mount(h: Host, part: string) returns (ok: bool)
      modifies this, h
      ensures var r := Fsutil.Mount(old(h.p), At(old(m), part), h.env);
        h.p == r.p && m == Put(Tried(old(m), part), part, r.at) && ok == r.ok
    {
      hide Fsutil.IsMounted, Fsutil.Unmount, Fsutil.MountCmd, At, Put;
      m := Tried(m, part);
      ghost var m0 := m;
      SameAt(old(m), part);
      var mounted := IsMounted(h, part);
      if mounted {
        ghost var m1 := m;
        ok := Unmount(h, part);
        PutAgain(m0, part, At(m1, part), At(m, part));
        if !ok { return; }
      }
      ghost var m2 := m;
      ok := MountCmd(h, part);
      PutAgain(m0, part, At(m2, part), At(m, part));
    }

    method SyncGroup(h: Host, part: string, ts: seq<Target>)
      modifies this, h
      ensures var f := SyncFolders(old(h.p), ts, h.env);
        h.p == f.p && m == Record(old(m), f, At(old(m), part).depth)
    {
      ghost var goal := SyncFolders(h.p, ts, h.env);
      var depth := At(m, part).depth;
      for i := 0 to |ts|
        invariant At(m, part).depth == depth && m == old(m).(asked := m.asked, done := m.done)
        invariant var f := SyncFolders(h.p, ts[i..], h.env);
          f.p == goal.p && Record(m, f, depth) == Record(old(m), goal, depth)
      {
        hide Record;
        assert ts[i..][1..] == ts[i + 1..];
        ghost var before := m;
        if ts[i].subdir != "" {
          var made := h.Do();   // mkdir of the subdirectory
          if !made {
            RecordMore(before, ts[i], depth, SyncFolders(h.p, ts[i + 1..], h.env), false, false);
            continue;
          }
        }
        ghost var asked := !h.p.dead;
        if !h.p.dead {
          m := m.(asked := m.asked + [Visit(ts[i], depth)]);
        }
        var ok := h.Do();   // the backend's SyncMedia
        if ok {
          m := m.(done := m.done + [ts[i]]);
        }
        RecordMore(before, ts[i], depth, SyncFolders(h.p, ts[i + 1..], h.env), asked, ok);
      }
      RecordNothing(m, depth, h.p);
    }

    /** One turn of the loop over the partitions. */
    method SyncPartition(h: Host, part: string, ts: seq<Target>)
      modifies this, h
      ensures (h.p, m) == SyncOne(old(h.p), old(m), part, ts, h.env)
    {
      hide Fsutil.Mount, Fsutil.Unmount, SyncFolders, At, Put, Tried, Record;
      var ok := h.Do();   // os.Stat of the device
      if !ok { return; }
      ok := h.Do();   // mkdir of the mountpoint
      if !ok { return; }
      ok := Mount(h, part);
      if !ok { return; }
      ghost var m1, at := m, At(m, part);
      ghost var f := SyncFolders(h.p, ts, h.env);
      SyncGroup(h, part, ts);
      RecordAside(m1, f, at.depth, part);
      var _ := Unmount(h, part);
      AtPut(Tried(old(m), part), part);
      RecordPut(m1, f, at.depth, part, At(m, part));
      PutAgain(Tried(old(m), part), part, at, At(m, part));
    }

    method SyncPartitions(h: Host, order: seq<string>, byPartition: map<string, seq<Target>>,
                          ghost targets: seq<Target>)
      requires forall part :: part in order ==> part in byPartition && byPartition[part] == Of(targets, part)
      modifies this, h
      ensures (h.p, m) == SyncAll(old(h.p), old(m), order, targets, h.env)
    {
      hide SyncOne, Of;
      ghost var goal := SyncAll(h.p, m, order, targets, h.env);
      for i := 0 to |order|
        invariant SyncAll(h.p, m, order[i..], targets, h.env) == goal
      {
        assert order[i..][1..] == order[i + 1..];
        SyncPartition(h, order[i], byPartition[order[i]]);
      }
      assert order[|order|..] == [];
    }
  }
}
