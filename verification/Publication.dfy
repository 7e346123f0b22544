/** Crash ordering of publication (src/export_wav.rs, `publish_recall_inner`,
    `materialize_file_set_parents`, `publish_dump_inner`; src/recovery.rs,
    `write_prepared_at`).

    The disk is a map from names to inodes, together with what a crash may bring
    back: every name the publication ever gave an inode, and every manifest that
    may be found.  Each operation may fail, and each state in between is a place
    to crash. */
module Publication {
  import opened Base

  /** Components below the output root; the root itself is []. */
  type Path = seq<string>

  datatype Phase = Prepared | Publishing(index: nat) | Complete

  datatype Entry = Entry(partial: Path, final: Path, partialInode: Option<nat>, finalInode: Option<nat>)

  /** A directory to create; without an inode it is only an intent. */
  datatype DirectorySlot = DirectorySlot(path: Path, inode: Option<nat>)

  datatype Manifest = Manifest(phase: Phase, entries: seq<Entry>, directories: seq<DirectorySlot>)

  datatype Disk = Disk(
    live: map<Path, nat>,
    ours: set<(Path, nat)>,          // every name this publication ever gave an inode
    manifests: set<Option<Manifest>>, // what a crash now may leave as the manifest
    syncedFiles: set<nat>,
    syncedDirectories: set<Path>,
    nextInode: nat)

  // ---- crash safety ----

  ghost predicate EntryAccounts(e: Entry, p: Path, inode: nat) {
    e.partial == p || (e.final == p && (e.partialInode == Some(inode) || e.finalInode == Some(inode)))
  }

  ghost predicate SlotAccounts(s: DirectorySlot, p: Path, inode: nat) {
    s.path == p && (s.inode.None? || s.inode == Some(inode))
  }

  /** The manifest tells recovery about this name: a partial file or a directory by
      its path, a final file by its path and inode. */
  ghost predicate Accounts(m: Manifest, p: Path, inode: nat) {
    || (exists i :: 0 <= i < |m.entries| && EntryAccounts(m.entries[i], p, inode))
    || (exists i :: 0 <= i < |m.directories| && SlotAccounts(m.directories[i], p, inode))
  }

  ghost predicate Recorded(m: Manifest, ours: set<(Path, nat)>) {
    forall b :: b in ours ==> Accounts(m, b.0, b.1)
  }

  /** A directory exists: the output root, or a name that was made. */
  predicate Stands(live: map<Path, nat>, p: Path) { p == [] || p in live }

  /** Entry `e` is published for good. */
  ghost predicate EntrySettled(d: Disk, e: Entry) {
    && e.final in d.live && e.finalInode == Some(d.live[e.final]) && d.live[e.final] in d.syncedFiles
    && forall k :: 0 <= k < |e.final| ==> e.final[..k] in d.syncedDirectories && Stands(d.live, e.final[..k])
  }

  ghost predicate Settled(d: Disk, m: Manifest) {
    forall i :: 0 <= i < |m.entries| ==> EntrySettled(d, m.entries[i])
  }

  /** Whatever manifest a crash leaves, it accounts for every name that may exist,
      and it says Complete only when everything is synced. */
  ghost predicate CrashSafe(d: Disk) {
    forall m :: m in d.manifests ==>
      && (d.ours != {} ==> m.Some?)
      && (m.Some? ==> Recorded(m.value, d.ours) && (m.value.phase.Complete? ==> Settled(d, m.value)))
  }

  /** Whatever a crash leaves, recovery finds a manifest. */
  ghost predicate Recoverable(d: Disk) { None !in d.manifests }

  function Parent(p: Path): Path
    requires p != []
  {
    p[..|p| - 1]
  }

  function Created(d: Disk, p: Path): Disk
    requires p != []
  {
    d.(live := d.live[p := d.nextInode],
       ours := d.ours + {(p, d.nextInode)},
       syncedDirectories := d.syncedDirectories - {Parent(p)},
       nextInode := d.nextInode + 1)
  }

  function Renamed(d: Disk, from: Path, to: Path): Disk
    requires from in d.live && from != [] && to != []
  {
    d.(live := (d.live - {from})[to := d.live[from]],
       ours := d.ours + {(to, d.live[from])},
       syncedDirectories := d.syncedDirectories - {Parent(from), Parent(to)})
  }

  /** The operations a publication performs.  `history` has a state for every
      point at which the machine can stop. */
  class Storage {
    const reliable: bool  // whether operations fail only for a reason given here
    var d: Disk
    ghost var history: seq<Disk>

    ghost predicate Safe()
      reads this
    {
      && history != [] && history[|history| - 1] == d
      && (forall i :: 0 <= i < |history| ==> CrashSafe(history[i]))
    }

    constructor (d: Disk, reliable: bool)
      requires CrashSafe(d)
      ensures Safe() && this.d == d && history == [d] && this.reliable == reliable
    {
      this.d, this.history, this.reliable := d, [d], reliable;
    }

    /** Whether the next operation meets an I/O error. */
    method Fault() returns (fault: bool)
      ensures reliable ==> !fault
    {
      fault := *;
      fault := fault && !reliable;
    }

    /** Replaces the manifest: a temporary file, a rename and a directory sync.
        `renamed` says whether the rename happened. */
    method Persist(m: Manifest) returns (ok: bool, renamed: bool)
      requires Safe() && CrashSafe(d.(manifests := d.manifests + {Some(m)}))
      modifies this
      ensures Safe()
      ensures reliable ==> ok
      ensures ok ==> renamed && d == old(d).(manifests := {Some(m)})
      ensures !ok && renamed ==> d == old(d).(manifests := old(d.manifests) + {Some(m)})
      ensures !renamed ==> d == old(d)
    {
      var fault := Fault();
      if fault {
        return false, false;
      }
      d := d.(manifests := d.manifests + {Some(m)});
      history := history + [d];
      fault := Fault();
      if fault {
        return false, true;
      }
      d := d.(manifests := {Some(m)});
      history := history + [d];
      return true, true;
    }

    /** Creates a new file or directory; fails where the name exists, or where the
        directory it belongs in does not. */
    method Create(p: Path) returns (inode: Option<nat>)
      requires p != [] && Safe() && CrashSafe(Created(d, p))
      modifies this
      ensures Safe()
      ensures inode.None? ==> d == old(d) && !(reliable && p !in d.live && Stands(d.live, Parent(p)))
      ensures inode.Some? ==> p !in old(d.live) && inode.value == old(d.nextInode) && d == Created(old(d), p)
      ensures inode.Some? ==> Stands(old(d.live), Parent(p))
    {
      var fault := Fault();
      if fault {
        return None;
      }
      if p in d.live || !Stands(d.live, Parent(p)) {
        return None;
      }
      inode := Some(d.nextInode);
      d := Created(d, p);
      history := history + [d];
    }

    /** Renames without replacing, into a directory that exists. */
    method Rename(from: Path, to: Path) returns (ok: bool)
      requires from in d.live && from != [] && to != [] && Safe() && CrashSafe(Renamed(d, from, to))
      modifies this
      ensures Safe()
      ensures !ok ==> d == old(d) && !(reliable && to !in d.live && Stands(d.live, Parent(to)))
      ensures ok ==> Stands(old(d.live), Parent(to))
      ensures ok ==> to !in old(d.live) && d == Renamed(old(d), from, to)
    {
      var fault := Fault();
      if fault {
        return false;
      }
      if to in d.live || !Stands(d.live, Parent(to)) {
        return false;
      }
      d := Renamed(d, from, to);
      history := history + [d];
      return true;
    }

    method SyncFile(p: Path) returns (ok: bool)
      requires Safe() && (p in d.live ==> CrashSafe(d.(syncedFiles := d.syncedFiles + {d.live[p]})))
      modifies this
      ensures Safe()
      ensures !ok ==> d == old(d) && !(reliable && p in d.live)
      ensures ok ==> p in old(d.live) && d == old(d).(syncedFiles := old(d.syncedFiles) + {old(d.live)[p]})
    {
      var fault := Fault();
      if fault {
        return false;
      }
      if p !in d.live {
        return false;
      }
      d := d.(syncedFiles := d.syncedFiles + {d.live[p]});
      history := history + [d];
      return true;
    }

    method SyncDirectory(p: Path) returns (ok: bool)
      requires Safe() && CrashSafe(d.(syncedDirectories := d.syncedDirectories + {p}))
      modifies this
      ensures Safe()
      ensures !ok ==> d == old(d) && !(reliable && Stands(d.live, p))
      ensures ok ==> Stands(d.live, p) && d == old(d).(syncedDirectories := old(d.syncedDirectories) + {p})
    {
      var fault := Fault();
      if fault || !Stands(d.live, p) {
        return false;
      }
      d := d.(syncedDirectories := d.syncedDirectories + {p});
      history := history + [d];
      return true;
    }
  }

  // ---- file-set publication ----

  function PartialOf(final: Path, id: string): Path
    requires final != []
  {
    Parent(final) + ["." + final[|final| - 1] + "." + id + ".partial"]
  }

  /** The planned names stand clear of one another: no final is another's
      directory, and a transaction's fresh id keeps partial names apart. */
  ghost predicate Separate(finals: seq<Path>, id: string) {
    && (forall i :: 0 <= i < |finals| ==> finals[i] != [])
    && (forall i, j :: 0 <= i < |finals| && 0 <= j < |finals| && i != j ==> !(finals[i] <= finals[j]))
    && (forall i, j :: 0 <= i < |finals| && 0 <= j < |finals| ==> !(PartialOf(finals[i], id) <= finals[j]))
  }

  lemma PartialsDistinct(a: Path, b: Path, id: string)
    requires a != [] && b != [] && PartialOf(a, id) == PartialOf(b, id)
    ensures a == b
  {
    var x, y := a[|a| - 1], b[|b| - 1];
    var p, q := PartialOf(a, id), PartialOf(b, id);
    assert p[|p| - 1] == "." + x + "." + id + ".partial" && q[|q| - 1] == "." + y + "." + id + ".partial";
    assert |x| == |y|;
    assert ("." + x + "." + id + ".partial")[1..|x| + 1] == x && ("." + y + "." + id + ".partial")[1..|y| + 1] == y;
    assert Parent(a) == p[..|p| - 1] && Parent(b) == q[..|q| - 1];
    assert a == Parent(a) + [x] && b == Parent(b) + [y];
  }

  /** The names that files `n` and on will take are free. */
  ghost predicate NamesFree(live: map<Path, nat>, finals: seq<Path>, id: string, n: nat)
    requires Separate(finals, id)
  {
    forall i :: n <= i < |finals| ==> finals[i] !in live && PartialOf(finals[i], id) !in live
  }

  function Planned(finals: seq<Path>, id: string): (es: seq<Entry>)
    requires forall i :: 0 <= i < |finals| ==> finals[i] != []
    ensures |es| == |finals|
  {
    seq(|finals|, i requires 0 <= i < |finals| => Entry(PartialOf(finals[i], id), finals[i], None, None))
  }

  ghost predicate Named(m: Manifest, finals: seq<Path>, id: string)
    requires Separate(finals, id)
  {
    && |m.entries| == |finals|
    && forall i :: 0 <= i < |finals| ==>
         m.entries[i].final == finals[i] && m.entries[i].partial == PartialOf(finals[i], id)
  }

  ghost predicate Untouched(ours: set<(Path, nat)>, p: Path) { forall b :: b in ours ==> b.0 != p }

  /** The first `n` files carry their final names and are recorded; the others
      have not been started. */
  ghost predicate Progress(live: map<Path, nat>, ours: set<(Path, nat)>, es: seq<Entry>, n: nat) {
    && n <= |es|
    && (forall i :: 0 <= i < n ==>
          es[i].final in live && es[i].finalInode == Some(live[es[i].final]) && es[i].partialInode.None?)
    && (forall i :: 0 <= i < n ==> forall b :: b in ours && b.0 == es[i].final ==> b.1 == live[b.0])
    && (forall i :: n <= i < |es| ==> Untouched(ours, es[i].final))
  }

  /** Names that are not finals may come and go. */
  lemma ProgressAside(live: map<Path, nat>, ours: set<(Path, nat)>, es: seq<Entry>, n: nat, p: Path, inode: nat)
    requires Progress(live, ours, es, n) && forall i :: 0 <= i < |es| ==> es[i].final != p
    ensures Progress(live[p := inode], ours + {(p, inode)}, es, n)
  {
  }

  lemma ProgressUpdate(live: map<Path, nat>, ours: set<(Path, nat)>, es: seq<Entry>, n: nat, e: Entry)
    requires Progress(live, ours, es, n) && n < |es| && e.final == es[n].final
    ensures Progress(live, ours, es[n := e], n)
  {
  }

  /** File `n` takes its final name. */
  lemma ProgressNamed(live: map<Path, nat>, ours: set<(Path, nat)>, es: seq<Entry>, n: nat, from: Path, e: Entry)
    requires Progress(live, ours, es, n) && n < |es| && e.final == es[n].final && from in live
    requires e.partialInode.None? && e.finalInode == Some(live[from])
    requires forall i :: 0 <= i < |es| ==> es[i].final != from
    requires forall i, j :: 0 <= i < j < |es| ==> es[i].final != es[j].final
    ensures Progress((live - {from})[e.final := live[from]], ours + {(e.final, live[from])}, es[n := e], n + 1)
  {
  }

  /** Between two operations: one possible manifest, and it accounts for all. */
  ghost predicate Steady(d: Disk, m: Manifest) {
    d.manifests == {Some(m)} && Recorded(m, d.ours) && !m.phase.Complete?
  }

  lemma SteadySafe(d: Disk, m: Manifest)
    requires Steady(d, m)
    ensures CrashSafe(d)
  {
  }

  /** While the manifest changes, either version accounts for everything. */
  lemma ReplaceSafe(d: Disk, m: Manifest, next: Manifest)
    requires Steady(d, m) && Recorded(next, d.ours) && (next.phase.Complete? ==> Settled(d, next))
    ensures CrashSafe(d.(manifests := d.manifests + {Some(next)}))
  {
    var t := d.(manifests := d.manifests + {Some(next)});
    if next.phase.Complete? {
      forall i | 0 <= i < |next.entries| ensures EntrySettled(t, next.entries[i]) {
        assert EntrySettled(d, next.entries[i]);
      }
    }
  }

  /** New inodes may be recorded for an entry as long as they cover the names its
      final path already has. */
  lemma EntryUpdateRecorded(m: Manifest, ours: set<(Path, nat)>, n: nat, e: Entry)
    requires n < |m.entries| && Recorded(m, ours)
    requires e.partial == m.entries[n].partial && e.final == m.entries[n].final
    requires forall b :: b in ours && b.0 == e.final ==> EntryAccounts(e, b.0, b.1)
    ensures Recorded(m.(entries := m.entries[n := e]), ours)
  {
    var next := m.(entries := m.entries[n := e]);
    forall b | b in ours ensures Accounts(next, b.0, b.1) {
      assert Accounts(m, b.0, b.1);
      if i :| 0 <= i < |m.entries| && EntryAccounts(m.entries[i], b.0, b.1) {
        assert EntryAccounts(next.entries[i], b.0, b.1);
      } else {
        var i :| 0 <= i < |m.directories| && SlotAccounts(m.directories[i], b.0, b.1);
        assert SlotAccounts(next.directories[i], b.0, b.1);
      }
    }
  }

  lemma PhaseUpdateRecorded(m: Manifest, ours: set<(Path, nat)>, phase: Phase)
    requires Recorded(m, ours)
    ensures Recorded(m.(phase := phase), ours)
  {
    forall b | b in ours ensures Accounts(m.(phase := phase), b.0, b.1) {
      assert Accounts(m, b.0, b.1);
    }
  }

  lemma OneMoreRecorded(m: Manifest, ours: set<(Path, nat)>, p: Path, inode: nat, n: nat)
    requires Recorded(m, ours) && n < |m.entries| && EntryAccounts(m.entries[n], p, inode)
    ensures Recorded(m, ours + {(p, inode)})
  {
  }

  /** File `n` is written under its partial name, and its inode is recorded. */
  ghost predicate PartialRecorded(d: Disk, m: Manifest, n: nat) {
    && n < |m.entries| && m.entries[n].partial in d.live
    && m.entries[n].partialInode == Some(d.live[m.entries[n].partial])
  }

  /** Every directory above a planned file exists. */
  ghost predicate Ancestors(live: map<Path, nat>, finals: seq<Path>) {
    forall i, k :: 0 <= i < |finals| && 0 <= k < |finals[i]| ==> Stands(live, finals[i][..k])
  }

  lemma ParentStands(live: map<Path, nat>, finals: seq<Path>, id: string, n: nat)
    requires Ancestors(live, finals) && n < |finals| && finals[n] != []
    ensures Stands(live, Parent(finals[n])) && Parent(PartialOf(finals[n], id)) == Parent(finals[n])
  {
    assert Stands(live, finals[n][..|finals[n]| - 1]);
  }

  /** Publishing a file leaves the directories alone. */
  lemma AncestorsStay(live: map<Path, nat>, finals: seq<Path>, id: string, n: nat, a: nat, b: nat)
    requires Separate(finals, id) && n < |finals| && Ancestors(live, finals)
    ensures finals[n] != []
    ensures var partial := live[PartialOf(finals[n], id) := a];
            Ancestors(partial, finals) && Ancestors((partial - {PartialOf(finals[n], id)})[finals[n] := b], finals)
  {
    var p := PartialOf(finals[n], id);
    forall i, k | 0 <= i < |finals| && 0 <= k < |finals[i]|
      ensures Stands((live[p := a] - {p})[finals[n] := b], finals[i][..k])
    {
      assert Stands(live, finals[i][..k]);
      assert finals[i][..k] != p by { assert !(p <= finals[i]); }
    }
    forall i, k | 0 <= i < |finals| && 0 <= k < |finals[i]| ensures Stands(live[p := a], finals[i][..k]) {
      assert Stands(live, finals[i][..k]);
    }
  }

  lemma EntryNamed(m: Manifest, finals: seq<Path>, id: string, n: nat)
    requires Separate(finals, id) && Named(m, finals, id) && n < |finals|
    ensures |m.entries| == |finals| && finals[n] != []
    ensures m.entries[n].final == finals[n] && m.entries[n].partial == PartialOf(finals[n], id) != []
    ensures forall i :: 0 <= i < |m.entries| ==> m.entries[i].final != m.entries[n].partial
    ensures forall i, j :: 0 <= i < j < |m.entries| ==> m.entries[i].final != m.entries[j].final
  {
    forall i, j | 0 <= i < j < |m.entries| ensures m.entries[i].final != m.entries[j].final {
      assert !(finals[i] <= finals[j]);
    }
    forall i | 0 <= i < |m.entries| ensures m.entries[i].final != m.entries[n].partial {
      assert !(PartialOf(finals[n], id) <= finals[i]);
    }
  }

  lemma SteadyParts(d: Disk, m: Manifest)
    requires Steady(d, m)
    ensures d.manifests == {Some(m)} && Recorded(m, d.ours) && !m.phase.Complete?
  {
  }

  lemma RenamedSteady(d: Disk, m: Manifest, from: Path, to: Path)
    requires Steady(d, m) && from in d.live && from != [] && to != []
    requires Recorded(m, d.ours + {(to, d.live[from])})
    ensures Steady(Renamed(d, from, to), m)
  {
  }

  lemma NamedKept(m: Manifest, next: Manifest, finals: seq<Path>, id: string)
    requires Separate(finals, id) && Named(m, finals, id) && |next.entries| == |m.entries|
    requires forall i :: 0 <= i < |m.entries| ==>
               next.entries[i].final == m.entries[i].final && next.entries[i].partial == m.entries[i].partial
    ensures Named(next, finals, id)
  {
  }

  /** Replaces the manifest by one that accounts for as much. */
  method Replace(st: Storage, ghost m: Manifest, next: Manifest) returns (ok: bool)
    requires st.Safe() && Steady(st.d, m) && Recorded(next, st.d.ours) && !next.phase.Complete?
    modifies st
    ensures st.Safe() && Recoverable(st.d)
    ensures ok ==> st.d == old(st.d).(manifests := {Some(next)}) && Steady(st.d, next)
    ensures st.reliable ==> ok
  {
    ReplaceSafe(st.d, m, next);
    var moved;
    ok, moved := st.Persist(next);
  }

  /** Entry `n`'s partial file, written and synced. */
  method WriteSynced(st: Storage, m: Manifest, n: nat) returns (inode: Option<nat>)
    requires st.Safe() && Steady(st.d, m) && n < |m.entries| && m.entries[n].partial != []
    modifies st
    ensures st.Safe() && Recoverable(st.d)
    ensures inode.Some? ==>
      && Steady(st.d, m) && inode.value == old(st.d.nextInode)
      && st.d.live == old(st.d.live)[m.entries[n].partial := inode.value]
      && st.d.ours == old(st.d.ours) + {(m.entries[n].partial, inode.value)}
    ensures var p := m.entries[n].partial;
            st.reliable && p !in old(st.d.live) && Stands(old(st.d.live), Parent(p)) ==> inode.Some?
  {
    hide Recorded, CrashSafe, Stands;
    var p := m.entries[n].partial;
    OneMoreRecorded(m, st.d.ours, p, st.d.nextInode, n);
    SteadySafe(Created(st.d, p), m);
    inode := st.Create(p);
    if inode.None? {
      return;
    }
    SyncedSafe(st.d, m, inode.value);
    var synced := st.SyncFile(p);
    if !synced {
      return None;
    }
  }

  method WritePartial(st: Storage, m: Manifest, finals: seq<Path>, id: string, n: nat)
    returns (ok: bool, next: Manifest)
    requires st.Safe() && Separate(finals, id) && Named(m, finals, id) && n < |finals|
    requires Steady(st.d, m) && Progress(st.d.live, st.d.ours, m.entries, n)
    modifies st
    ensures st.Safe() && Recoverable(st.d)
    ensures ok ==>
      && Named(next, finals, id) && Steady(st.d, next) && PartialRecorded(st.d, next, n)
      && Progress(st.d.live, st.d.ours, next.entries, n)
      && st.d.live == old(st.d.live)[PartialOf(finals[n], id) := old(st.d.nextInode)]
    ensures st.reliable && PartialOf(finals[n], id) !in old(st.d.live) && Ancestors(old(st.d.live), finals) ==> ok
  {
    EntryNamed(m, finals, id, n);
    hide Recorded, CrashSafe, Progress, Untouched, Ancestors, Stands, Named, Separate, PartialOf, Steady;
    var e := m.entries[n];
    if Ancestors(st.d.live, finals) { ParentStands(st.d.live, finals, id, n); }
    UntouchedRecorded(m, st.d.live, st.d.ours, n);
    ProgressAside(st.d.live, st.d.ours, m.entries, n, e.partial, st.d.nextInode);
    next := m.(phase := Publishing(n));
    PhaseUpdateRecorded(m, st.d.ours, Publishing(n));
    NamedKept(m, next, finals, id);
    var persisted := Replace(st, m, next);
    if !persisted {
      return false, next;
    }
    var created := WriteSynced(st, next, n);
    if created.None? {
      return false, next;
    }
    ok, next := RecordPartial(st, next, finals, id, n, created.value);
  }

  /** The inode of a partial file goes into the manifest before its final name
      exists. */
  method RecordPartial(st: Storage, m: Manifest, finals: seq<Path>, id: string, n: nat, inode: nat)
    returns (ok: bool, next: Manifest)
    requires st.Safe() && Separate(finals, id) && Named(m, finals, id) && n < |finals|
    requires Steady(st.d, m) && Progress(st.d.live, st.d.ours, m.entries, n)
    requires m.entries[n].partial in st.d.live && st.d.live[m.entries[n].partial] == inode
    modifies st
    ensures st.Safe() && Recoverable(st.d)
    ensures ok ==>
      && Named(next, finals, id) && Steady(st.d, next) && PartialRecorded(st.d, next, n)
      && Progress(st.d.live, st.d.ours, next.entries, n) && st.d.live == old(st.d.live)
    ensures st.reliable ==> ok
  {
    assert |m.entries| == |finals| && Recorded(m, st.d.ours) && !m.phase.Complete?;
    hide Recorded, CrashSafe, Progress, Untouched, Named, Separate, Steady;
    var recorded := m.entries[n].(partialInode := Some(inode));
    next := m.(entries := m.entries[n := recorded]);
    NamedKept(m, next, finals, id);
    UntouchedRecorded(m, st.d.live, st.d.ours, n);
    EntryUpdateRecorded(m, st.d.ours, n, recorded);
    ProgressUpdate(st.d.live, st.d.ours, m.entries, n, recorded);
    ok := Replace(st, m, next);
  }

  /** A file not yet started has no name that its entry would have to cover. */
  lemma UntouchedRecorded(m: Manifest, live: map<Path, nat>, ours: set<(Path, nat)>, n: nat)
    requires n < |m.entries| && Progress(live, ours, m.entries, n)
    ensures forall b :: b in ours ==> b.0 != m.entries[n].final
  {
    assert Untouched(ours, m.entries[n].final);
  }

  method NameFinal(st: Storage, m: Manifest, finals: seq<Path>, id: string, n: nat) returns (ok: bool, next: Manifest)
    requires st.Safe() && Separate(finals, id) && Named(m, finals, id) && n < |finals|
    requires Steady(st.d, m) && PartialRecorded(st.d, m, n) && Progress(st.d.live, st.d.ours, m.entries, n)
    modifies st
    ensures st.Safe() && Recoverable(st.d)
    ensures ok ==>
      && Named(next, finals, id) && Steady(st.d, next) && Progress(st.d.live, st.d.ours, next.entries, n + 1)
      && var partial := PartialOf(finals[n], id);
         partial in old(st.d.live)
         && st.d.live == (old(st.d.live) - {partial})[finals[n] := old(st.d.live)[partial]]
    ensures st.reliable && finals[n] !in old(st.d.live) && Ancestors(old(st.d.live), finals) ==> ok
  {
    hide Recorded, CrashSafe, Progress, Ancestors, Stands, Separate, Named, PartialOf, Steady;
    EntryNamed(m, finals, id, n);
    SteadyParts(st.d, m);
    var e := m.entries[n];
    var inode := e.partialInode.value;
    var named := e.(partialInode := None, finalInode := Some(inode));
    if Ancestors(st.d.live, finals) { ParentStands(st.d.live, finals, id, n); }
    UntouchedRecorded(m, st.d.live, st.d.ours, n);
    ProgressNamed(st.d.live, st.d.ours, m.entries, n, e.partial, named);
    next := m;
    OneMoreRecorded(m, st.d.ours, e.final, inode, n);
    RenamedSteady(st.d, m, e.partial, e.final);
    SteadySafe(Renamed(st.d, e.partial, e.final), m);
    var renamed := st.Rename(e.partial, e.final);
    if !renamed {
      return false, next;
    }
    next := m.(entries := m.entries[n := named]);
    NamedKept(m, next, finals, id);
    EntryUpdateRecorded(m, st.d.ours, n, named);
    ok := Replace(st, m, next);
  }

  lemma SyncedSafe(d: Disk, m: Manifest, inode: nat)
    requires Steady(d, m)
    ensures Steady(d.(syncedFiles := d.syncedFiles + {inode}), m)
    ensures CrashSafe(d.(syncedFiles := d.syncedFiles + {inode}))
  {
    SteadySafe(d.(syncedFiles := d.syncedFiles + {inode}), m);
  }

  // ---- directories ----

  /** Every directory above a final is to be synced; those that are missing are
      named in the manifest before they are made. */
  ghost predicate Registered(finals: seq<Path>, n: nat, sync: seq<Path>) {
    n <= |finals| && forall i, k :: 0 <= i < n && 0 <= k < |finals[i]| ==> finals[i][..k] in sync
  }

  ghost predicate Above(finals: seq<Path>, p: Path) {
    p != [] && exists i :: 0 <= i < |finals| && p < finals[i]
  }

  ghost predicate Intended(finals: seq<Path>, intents: seq<Path>) {
    && (forall i :: 0 <= i < |intents| ==> Above(finals, intents[i]))
    && (forall i, j :: 0 <= i < j < |intents| ==> intents[i] != intents[j])
  }

  /** Whatever is missing above a final is an intent, and an intent comes after
      the directory it belongs in. */
  ghost predicate Missing(live: map<Path, nat>, finals: seq<Path>, n: nat, intents: seq<Path>) {
    && n <= |finals|
    && forall i, k :: 0 <= i < n && 0 <= k < |finals[i]| ==> Waits(live, intents, finals[i][..k])
  }

  ghost predicate Waits(live: map<Path, nat>, intents: seq<Path>, p: Path) { Stands(live, p) || p in intents }

  ghost predicate ParentFirst(live: map<Path, nat>, intents: seq<Path>) {
    forall j :: 0 <= j < |intents| ==> intents[j] != [] && Waits(live, intents[..j], Parent(intents[j]))
  }

  lemma IntentAppends(live: map<Path, nat>, finals: seq<Path>, n: nat, intents: seq<Path>, p: Path)
    requires Missing(live, finals, n, intents) && ParentFirst(live, intents)
    requires p != [] && Waits(live, intents, Parent(p))
    ensures Missing(live, finals, n, intents + [p]) && ParentFirst(live, intents + [p])
  {
    var all := intents + [p];
    forall i, k | 0 <= i < n && 0 <= k < |finals[i]| ensures Waits(live, all, finals[i][..k]) {
      assert Waits(live, intents, finals[i][..k]);
    }
    forall j | 0 <= j < |all| ensures all[j] != [] && Waits(live, all[..j], Parent(all[j])) {
      assert all[..j] == intents[..j];
      assert j == |intents| ==> intents[..j] == intents;
    }
  }

  /** Only directories above finals are to be synced. */
  ghost predicate Listed(finals: seq<Path>, sync: seq<Path>) {
    forall p :: p in sync ==> p == [] || Above(finals, p)
  }

  lemma ListedStands(live: map<Path, nat>, finals: seq<Path>, sync: seq<Path>)
    requires Listed(finals, sync) && Ancestors(live, finals)
    ensures forall p :: p in sync ==> Stands(live, p)
  {
    forall p | p in sync && p != [] ensures Stands(live, p) {
      var i :| 0 <= i < |finals| && p < finals[i];
      assert p == finals[i][..|p|];
    }
  }

  method Register(st: Storage, finals: seq<Path>) returns (ok: bool, sync: seq<Path>, intents: seq<Path>)
    requires forall i :: 0 <= i < |finals| ==> finals[i] != []
    ensures st.reliable ==> ok
    ensures ok ==> Registered(finals, |finals|, sync) && Intended(finals, intents)
    ensures ok ==> Missing(st.d.live, finals, |finals|, intents) && ParentFirst(st.d.live, intents)
    ensures ok ==> Listed(finals, sync)
  {
    sync, intents := [[]], [];
    for i := 0 to |finals|
      invariant Registered(finals, i, sync) && Intended(finals, intents) && [] in sync && Listed(finals, sync)
      invariant Missing(st.d.live, finals, i, intents) && ParentFirst(st.d.live, intents)
    {
      ghost var before := sync;
      for k := 1 to |finals[i]|
        invariant forall x :: x in before ==> x in sync
        invariant [] in sync && forall h :: 0 <= h < k && h < |finals[i]| ==> finals[i][..h] in sync
        invariant Intended(finals, intents) && Listed(finals, sync)
        invariant Missing(st.d.live, finals, i, intents) && ParentFirst(st.d.live, intents)
        invariant forall h :: 0 <= h < k && h < |finals[i]| ==> Waits(st.d.live, intents, finals[i][..h])
      {
        var fault := st.Fault();
        if fault {
          return false, sync, intents;
        }
        var directory := finals[i][..k];
        assert directory < finals[i];
        if directory !in sync {
          sync := sync + [directory];
        }
        if directory !in st.d.live && directory !in intents {
          assert Parent(directory) == finals[i][..k - 1];
          IntentAppends(st.d.live, finals, i, intents, directory);
          intents := intents + [directory];
        }
      }
    }
    return true, sync, intents;
  }

  ghost predicate DirectoriesAhead(m: Manifest, ours: set<(Path, nat)>, n: nat) {
    && n <= |m.directories|
    && (forall i :: n <= i < |m.directories| ==> m.directories[i].inode.None? && Untouched(ours, m.directories[i].path))
    && (forall i, j :: 0 <= i < j < |m.directories| ==> m.directories[i].path != m.directories[j].path)
  }

  ghost predicate DirectoriesClear(m: Manifest) {
    && (forall i :: 0 <= i < |m.directories| ==> m.directories[i].path != [])
    && (forall i, j :: 0 <= i < |m.directories| && 0 <= j < |m.entries| ==> m.directories[i].path != m.entries[j].final)
  }

  lemma SlotUpdateRecorded(m: Manifest, ours: set<(Path, nat)>, n: nat, inode: nat)
    requires n < |m.directories| && Recorded(m, ours)
    requires forall b :: b in ours && b.0 == m.directories[n].path ==> b.1 == inode
    ensures Recorded(m.(directories := m.directories[n := m.directories[n].(inode := Some(inode))]), ours)
  {
    var next := m.(directories := m.directories[n := m.directories[n].(inode := Some(inode))]);
    forall b | b in ours ensures Accounts(next, b.0, b.1) {
      assert Accounts(m, b.0, b.1);
      if i :| 0 <= i < |m.directories| && SlotAccounts(m.directories[i], b.0, b.1) {
        assert SlotAccounts(next.directories[i], b.0, b.1);
      } else {
        var i :| 0 <= i < |m.entries| && EntryAccounts(m.entries[i], b.0, b.1);
        assert EntryAccounts(next.entries[i], b.0, b.1);
      }
    }
  }

  lemma DirectoryRecorded(m: Manifest, ours: set<(Path, nat)>, n: nat, inode: nat)
    requires n < |m.directories| && m.directories[n].inode.None? && Recorded(m, ours)
    ensures Recorded(m, ours + {(m.directories[n].path, inode)})
  {
    assert SlotAccounts(m.directories[n], m.directories[n].path, inode);
  }

  lemma AheadStep(m: Manifest, ours: set<(Path, nat)>, n: nat, inode: nat)
    requires DirectoriesAhead(m, ours, n) && n < |m.directories|
    ensures DirectoriesAhead(m, ours, n + 1)
    ensures DirectoriesAhead(m.(directories := m.directories[n := m.directories[n].(inode := Some(inode))]),
                             ours + {(m.directories[n].path, inode)}, n + 1)
    ensures forall b :: b in ours ==> b.0 != m.directories[n].path
  {
    assert Untouched(ours, m.directories[n].path);
    forall i | n + 1 <= i < |m.directories|
      ensures Untouched(ours + {(m.directories[n].path, inode)}, m.directories[i].path)
    {
      assert Untouched(ours, m.directories[i].path);
    }
  }

  ghost predicate OnlyDirectoriesAdded(before: map<Path, nat>, live: map<Path, nat>, m: Manifest) {
    forall p :: p in live && p !in before ==> exists i :: 0 <= i < |m.directories| && m.directories[i].path == p
  }

  ghost predicate Intends(m: Manifest, intents: seq<Path>) {
    |m.directories| == |intents| && forall i :: 0 <= i < |intents| ==> m.directories[i].path == intents[i]
  }

  /** The first `n` intents exist now, and nothing was taken away. */
  ghost predicate Made(before: map<Path, nat>, live: map<Path, nat>, intents: seq<Path>, n: nat) {
    && n <= |intents| && (forall p :: p in before ==> p in live)
    && forall i :: 0 <= i < n ==> intents[i] in live
  }

  lemma MadeStands(before: map<Path, nat>, live: map<Path, nat>, intents: seq<Path>, n: nat, p: Path)
    requires Made(before, live, intents, n) && Waits(before, intents[..n], p)
    ensures Stands(live, p)
  {
  }

  lemma MadeNothing(live: map<Path, nat>, intents: seq<Path>, m: Manifest)
    ensures Made(live, live, intents, 0) && OnlyDirectoriesAdded(live, live, m)
  {
  }

  lemma MadeMore(before: map<Path, nat>, live: map<Path, nat>, intents: seq<Path>, n: nat, inode: nat)
    requires Made(before, live, intents, n) && n < |intents|
    ensures Made(before, live[intents[n] := inode], intents, n + 1)
    ensures intents[n] in live ==> Made(before, live, intents, n + 1)
  {
  }

  lemma AddedMore(before: map<Path, nat>, live: map<Path, nat>, m: Manifest, n: nat, inode: nat)
    requires OnlyDirectoriesAdded(before, live, m) && n < |m.directories|
    ensures OnlyDirectoriesAdded(before, live[m.directories[n].path := inode], m)
  {
  }

  lemma IntentWaits(live: map<Path, nat>, intents: seq<Path>, n: nat)
    requires ParentFirst(live, intents) && n < |intents|
    ensures intents[n] != [] && Waits(live, intents[..n], Parent(intents[n]))
  {
  }

  lemma AncestorsMade(before: map<Path, nat>, live: map<Path, nat>, finals: seq<Path>, intents: seq<Path>)
    requires Missing(before, finals, |finals|, intents) && Made(before, live, intents, |intents|)
    ensures Ancestors(live, finals)
  {
    forall i, k | 0 <= i < |finals| && 0 <= k < |finals[i]| ensures Stands(live, finals[i][..k]) {
      assert Waits(before, intents, finals[i][..k]);
      assert intents[..|intents|] == intents;
      MadeStands(before, live, intents, |intents|, finals[i][..k]);
    }
  }

  /** One missing directory: made, then recorded as owned. */
  method MakeDirectory(st: Storage, m: Manifest, n: nat) returns (ok: bool, next: Manifest)
    requires st.Safe() && Steady(st.d, m) && DirectoriesClear(m) && n < |m.directories|
    requires DirectoriesAhead(m, st.d.ours, n) && Progress(st.d.live, st.d.ours, m.entries, 0)
    requires m.directories[n].path !in st.d.live
    modifies st
    ensures st.Safe() && Recoverable(st.d)
    ensures ok ==>
      && Steady(st.d, next) && next.entries == m.entries && |next.directories| == |m.directories|
      && (forall i :: 0 <= i < |m.directories| ==> next.directories[i].path == m.directories[i].path)
      && DirectoriesAhead(next, st.d.ours, n + 1) && Progress(st.d.live, st.d.ours, next.entries, 0)
      && DirectoriesClear(next)
      && st.d.live == old(st.d.live)[m.directories[n].path := old(st.d.nextInode)]
    ensures st.reliable && Stands(old(st.d.live), Parent(m.directories[n].path)) ==> ok
  {
    var path := m.directories[n].path;
    assert path != [] && forall i :: 0 <= i < |m.entries| ==> m.entries[i].final != path;
    hide Recorded, CrashSafe, Progress, Untouched, DirectoriesAhead, DirectoriesClear, Stands;
    next := m;
    AheadStep(m, st.d.ours, n, st.d.nextInode);
    ProgressAside(st.d.live, st.d.ours, m.entries, 0, path, st.d.nextInode);
    MissingSlot(m, st.d.ours, n);
    DirectoryRecorded(m, st.d.ours, n, st.d.nextInode);
    SteadySafe(Created(st.d, path), m);
    var created := st.Create(path);
    if created.None? {
      return false, next;
    }
    next := m.(directories := m.directories[n := m.directories[n].(inode := created)]);
    SlotUpdateRecorded(m, st.d.ours, n, created.value);
    ClearKept(m, next);
    ok := Replace(st, m, next);
  }

  lemma ClearKept(m: Manifest, next: Manifest)
    requires DirectoriesClear(m) && next.entries == m.entries && |next.directories| == |m.directories|
    requires forall i :: 0 <= i < |m.directories| ==> next.directories[i].path == m.directories[i].path
    ensures DirectoriesClear(next)
  {
  }

  lemma MissingSlot(m: Manifest, ours: set<(Path, nat)>, n: nat)
    requires DirectoriesAhead(m, ours, n) && n < |m.directories|
    ensures m.directories[n].inode.None?
  {
  }

  /** `materialize_file_set_parents`: makes the missing directories, recording
      each as owned before the next. */
  method Materialize(st: Storage, m: Manifest, ghost intents: seq<Path>) returns (ok: bool, next: Manifest)
    requires Intends(m, intents) && ParentFirst(st.d.live, intents)
    requires st.Safe() && Steady(st.d, m) && DirectoriesClear(m)
    requires DirectoriesAhead(m, st.d.ours, 0) && Progress(st.d.live, st.d.ours, m.entries, 0)
    modifies st
    ensures st.Safe() && Recoverable(st.d)
    ensures ok ==> Steady(st.d, next) && next.entries == m.entries && Progress(st.d.live, st.d.ours, next.entries, 0)
    ensures ok ==> OnlyDirectoriesAdded(old(st.d.live), st.d.live, m)
    ensures ok ==> Made(old(st.d.live), st.d.live, intents, |intents|)
    ensures st.reliable ==> ok
  {
    hide Recorded, CrashSafe, Progress, Untouched, DirectoriesAhead, Steady, Waits, Made, OnlyDirectoriesAdded,
         DirectoriesClear, ParentFirst, Stands;
    MadeNothing(st.d.live, intents, m);
    next := m;
    for n := 0 to |m.directories|
      invariant st.Safe() && Steady(st.d, next) && DirectoriesClear(next)
      invariant |next.directories| == |m.directories| && next.entries == m.entries
      invariant DirectoriesAhead(next, st.d.ours, n) && Progress(st.d.live, st.d.ours, next.entries, 0)
      invariant forall i :: 0 <= i < |m.directories| ==> next.directories[i].path == m.directories[i].path
      invariant OnlyDirectoriesAdded(old(st.d.live), st.d.live, m)
      invariant Made(old(st.d.live), st.d.live, intents, n)
    {
      var path := next.directories[n].path;
      assert path == intents[n];
      IntentWaits(old(st.d.live), intents, n);
      MadeMore(old(st.d.live), st.d.live, intents, n, st.d.nextInode);
      AddedMore(old(st.d.live), st.d.live, m, n, st.d.nextInode);
      MadeStands(old(st.d.live), st.d.live, intents, n, Parent(path));
      if path !in st.d.live {
        ok, next := MakeDirectory(st, next, n);
        if !ok {
          return false, next;
        }
      } else {
        AheadStep(next, st.d.ours, n, st.d.nextInode);
      }
    }
    SteadyParts(st.d, next);
    return true, next;
  }

  // ---- the whole transaction ----

  datatype Outcome = Published | RetryableFailure | DurableFailure

  ghost predicate Untried(d: Disk) { d.ours == {} && d.manifests == {None} }

  /** Published for good: the only possible manifest says so, and every planned
      file is synced under its final name, in directories that are synced. */
  ghost predicate Finished(d: Disk, finals: seq<Path>) {
    exists m: Manifest ::
      && d.manifests == {Some(m)} && m.phase.Complete? && |m.entries| == |finals| && Settled(d, m)
      && forall i :: 0 <= i < |finals| ==> m.entries[i].final == finals[i]
  }

  method SyncFinals(st: Storage, m: Manifest) returns (ok: bool)
    requires st.Safe() && Steady(st.d, m) && Progress(st.d.live, st.d.ours, m.entries, |m.entries|)
    modifies st
    ensures st.Safe() && Recoverable(st.d)
    ensures st.d.live == old(st.d.live)
    ensures ok ==> Steady(st.d, m) && Progress(st.d.live, st.d.ours, m.entries, |m.entries|)
    ensures ok ==> forall i :: 0 <= i < |m.entries| ==> st.d.live[m.entries[i].final] in st.d.syncedFiles
    ensures st.reliable ==> ok
  {
    hide Recorded, CrashSafe;
    for n := 0 to |m.entries|
      invariant st.Safe() && Steady(st.d, m) && Progress(st.d.live, st.d.ours, m.entries, |m.entries|)
      invariant st.d.live == old(st.d.live)
      invariant forall i :: 0 <= i < n ==> st.d.live[m.entries[i].final] in st.d.syncedFiles
    {
      SyncedSafe(st.d, m, st.d.live[m.entries[n].final]);
      ok := st.SyncFile(m.entries[n].final);
      if !ok {
        return false;
      }
    }
    return true;
  }

  method SyncDirectories(st: Storage, m: Manifest, sync: seq<Path>) returns (ok: bool)
    requires st.Safe() && Steady(st.d, m)
    modifies st
    ensures st.Safe() && Recoverable(st.d)
    ensures ok ==> st.d == old(st.d).(syncedDirectories := st.d.syncedDirectories) && Steady(st.d, m)
    ensures ok ==> forall p :: p in sync ==> p in st.d.syncedDirectories
    ensures st.reliable && (forall p :: p in sync ==> Stands(old(st.d.live), p)) ==> ok
  {
    hide Recorded, CrashSafe;
    for n := 0 to |sync|
      invariant st.Safe() && st.d == old(st.d).(syncedDirectories := st.d.syncedDirectories) && Steady(st.d, m)
      invariant forall i :: 0 <= i < n ==> sync[i] in st.d.syncedDirectories
    {
      SteadySafe(st.d.(syncedDirectories := st.d.syncedDirectories + {sync[n]}), m);
      ok := st.SyncDirectory(sync[n]);
      if !ok {
        return false;
      }
    }
    return true;
  }

  lemma NothingRecorded(m: Manifest)
    ensures Recorded(m, {})
  {
  }

  /** Before anything is published, the prepared manifest may or may not be there. */
  lemma PreparedSafe(d: Disk, m: Manifest)
    requires Untried(d) && m.phase.Prepared?
    ensures CrashSafe(d.(manifests := d.manifests + {Some(m)}))
  {
  }

  lemma FinishedSettled(d: Disk, m: Manifest, finals: seq<Path>, id: string, sync: seq<Path>)
    requires Separate(finals, id) && Named(m, finals, id) && Registered(finals, |finals|, sync)
    requires Progress(d.live, d.ours, m.entries, |m.entries|)
    requires forall i :: 0 <= i < |m.entries| ==> d.live[m.entries[i].final] in d.syncedFiles
    requires (forall p :: p in sync ==> p in d.syncedDirectories) && Ancestors(d.live, finals)
    ensures Settled(d, m)
  {
    forall i | 0 <= i < |m.entries| ensures EntrySettled(d, m.entries[i]) {
      forall k | 0 <= k < |m.entries[i].final|
        ensures m.entries[i].final[..k] in d.syncedDirectories && Stands(d.live, m.entries[i].final[..k])
      {
        assert finals[i][..k] in sync && Stands(d.live, finals[i][..k]);
      }
    }
  }

  function PreparedManifest(finals: seq<Path>, id: string, intents: seq<Path>): Manifest
    requires forall i :: 0 <= i < |finals| ==> finals[i] != []
  {
    Manifest(Prepared, Planned(finals, id),
             seq(|intents|, i requires 0 <= i < |intents| => DirectorySlot(intents[i], None)))
  }

  /** The prepared manifest lists every file and every missing directory. */
  lemma PreparedFits(d: Disk, m: Manifest, finals: seq<Path>, id: string, intents: seq<Path>)
    requires Untried(d) && Separate(finals, id) && Intended(finals, intents)
    requires m == PreparedManifest(finals, id, intents)
    ensures CrashSafe(d.(manifests := d.manifests + {Some(m)}))
    ensures Named(m, finals, id) && Intends(m, intents) && DirectoriesApart(m, finals, id) && DirectoriesClear(m)
    ensures Steady(d.(manifests := {Some(m)}), m)
    ensures DirectoriesAhead(m, d.ours, 0) && Progress(d.live, d.ours, m.entries, 0)
  {
    PreparedSafe(d, m);
    DirectoriesStandApart(finals, id, intents);
    forall i | 0 <= i < |m.directories| ensures m.directories[i].path != [] {
      assert Above(finals, intents[i]);
    }
  }

  /** `publish_recall_inner`.  However it ends, and wherever it is cut off, every
      state it passes through is crash-safe; a retryable failure has created
      nothing and left no manifest. */
  method PublishRecall(st: Storage, finals: seq<Path>, id: string) returns (r: Outcome)
    requires st.Safe() && Untried(st.d) && Separate(finals, id)
    modifies st
    ensures st.Safe()
    ensures r.RetryableFailure? ==> st.d == old(st.d)
    ensures r.RetryableFailure? <==> Untried(st.d)
    ensures finals == [] || (exists i :: 0 <= i < |finals| && finals[i] in old(st.d.live)) ==> r.RetryableFailure?
    ensures r.Published? ==> Finished(st.d, finals)
    ensures st.reliable && finals != [] && NamesFree(old(st.d.live), finals, id, 0) ==> r.Published?
  {
    assert forall i :: 0 <= i < |finals| ==> finals[i] != [];
    assert NamesFree(st.d.live, finals, id, 0) ==> forall i :: 0 <= i < |finals| ==> finals[i] !in st.d.live;
    hide CrashSafe, Untried, Separate, NamesFree, Steady, Named, DirectoriesClear, DirectoriesAhead, Progress,
         DirectoriesApart, Registered, Intended, Missing, ParentFirst, Intends, Listed, PreparedManifest, Finished;
    if finals == [] {
      return RetryableFailure;
    }
    var fault := st.Fault();
    if fault {
      return RetryableFailure;
    }
    for n := 0 to |finals|
      invariant forall i :: 0 <= i < n ==> finals[i] !in st.d.live
    {
      if finals[n] in st.d.live {
        return RetryableFailure;
      }
    }
    var registered, sync, intents := Register(st, finals);
    if !registered {
      return RetryableFailure;
    }
    var m := PreparedManifest(finals, id, intents);
    PreparedFits(st.d, m, finals, id, intents);
    var persisted, renamed := st.Persist(m);
    if !persisted {
      return if renamed then DurableFailure else RetryableFailure;
    }
    r := PublishPrepared(st, m, finals, id, sync, intents);
  }

  /** Each file in turn: written under its partial name, then named for good. */
  method PublishFiles(st: Storage, m: Manifest, finals: seq<Path>, id: string) returns (ok: bool, next: Manifest)
    requires st.Safe() && Separate(finals, id) && Named(m, finals, id) && Ancestors(st.d.live, finals)
    requires Steady(st.d, m) && Progress(st.d.live, st.d.ours, m.entries, 0)
    modifies st
    ensures st.Safe() && Recoverable(st.d)
    ensures ok ==>
      && Named(next, finals, id) && Steady(st.d, next) && Ancestors(st.d.live, finals)
      && |next.entries| == |finals| && Progress(st.d.live, st.d.ours, next.entries, |finals|)
    ensures st.reliable && NamesFree(old(st.d.live), finals, id, 0) ==> ok
  {
    hide Recorded, CrashSafe, Progress, Separate, NamesFree, Ancestors, Stands;
    ghost var free := NamesFree(st.d.live, finals, id, 0);
    next := m;
    for n := 0 to |finals|
      invariant st.Safe() && Named(next, finals, id) && Steady(st.d, next)
      invariant Progress(st.d.live, st.d.ours, next.entries, n)
      invariant free ==> NamesFree(st.d.live, finals, id, n)
      invariant Ancestors(st.d.live, finals)
    {
      AncestorsStay(st.d.live, finals, id, n, st.d.nextInode, st.d.nextInode);
      if free { NextFree(st.d.live, finals, id, n, st.d.nextInode); }
      ok, next := WritePartial(st, next, finals, id, n);
      if !ok {
        return false, next;
      }
      ok, next := NameFinal(st, next, finals, id, n);
      if !ok {
        return false, next;
      }
    }
    return true, next;
  }

  /** Everything after the prepared manifest is durable: a failure from here on
      belongs to recovery. */
  method PublishPrepared(st: Storage, prepared: Manifest, finals: seq<Path>, id: string, sync: seq<Path>,
                         ghost intents: seq<Path>)
    returns (r: Outcome)
    requires Intends(prepared, intents) && ParentFirst(st.d.live, intents)
    requires Missing(st.d.live, finals, |finals|, intents) && Listed(finals, sync)
    requires st.Safe() && Separate(finals, id) && Named(prepared, finals, id) && Registered(finals, |finals|, sync)
    requires Steady(st.d, prepared) && DirectoriesClear(prepared)
    requires DirectoriesAhead(prepared, st.d.ours, 0) && Progress(st.d.live, st.d.ours, prepared.entries, 0)
    requires DirectoriesApart(prepared, finals, id)
    modifies st
    ensures st.Safe() && Recoverable(st.d) && !r.RetryableFailure?
    ensures r.Published? ==> Finished(st.d, finals)
    ensures st.reliable && NamesFree(old(st.d.live), finals, id, 0) ==> r.Published?
  {
    hide Recorded, CrashSafe, Progress, DirectoriesAhead, DirectoriesClear, Registered, Settled, Separate, NamesFree,
         Ancestors, Listed, Stands, Missing, ParentFirst, Intends, Made, DirectoriesApart, OnlyDirectoriesAdded;
    ghost var live, free := st.d.live, NamesFree(st.d.live, finals, id, 0);
    var ok, m := Materialize(st, prepared, intents);
    if !ok {
      return DurableFailure;
    }
    AncestorsMade(live, st.d.live, finals, intents);
    if free { StillFree(live, st.d.live, prepared, finals, id); }
    ok, m := PublishFiles(st, m, finals, id);
    if !ok {
      return DurableFailure;
    }
    ok := SyncFinals(st, m);
    if !ok {
      return DurableFailure;
    }
    ListedStands(st.d.live, finals, sync);
    ok := SyncDirectories(st, m, sync);
    if !ok {
      return DurableFailure;
    }
    FinishedSettled(st.d, m, finals, id, sync);
    r := RecordComplete(st, m, finals, id);
  }

  /** A directory to create is neither a planned file nor its partial name. */
  ghost predicate DirectoriesApart(m: Manifest, finals: seq<Path>, id: string)
    requires Separate(finals, id)
  {
    forall i, j :: 0 <= i < |m.directories| && 0 <= j < |finals| ==>
      m.directories[i].path != finals[j] && m.directories[i].path != PartialOf(finals[j], id)
  }

  lemma DirectoriesStandApart(finals: seq<Path>, id: string, intents: seq<Path>)
    requires Separate(finals, id) && Intended(finals, intents)
    ensures forall i, j :: 0 <= i < |intents| && 0 <= j < |finals| ==>
      intents[i] != finals[j] && intents[i] != PartialOf(finals[j], id)
  {
    forall i, j | 0 <= i < |intents| && 0 <= j < |finals|
      ensures intents[i] != finals[j] && intents[i] != PartialOf(finals[j], id)
    {
      assert Above(finals, intents[i]);
      var k :| 0 <= k < |finals| && intents[i] < finals[k];
    }
  }

  lemma StillFree(before: map<Path, nat>, live: map<Path, nat>, m: Manifest, finals: seq<Path>, id: string)
    requires Separate(finals, id) && NamesFree(before, finals, id, 0)
    requires OnlyDirectoriesAdded(before, live, m) && DirectoriesApart(m, finals, id)
    ensures NamesFree(live, finals, id, 0)
  {
  }

  /** Publishing file `n` takes no name of a later one. */
  lemma NextFree(live: map<Path, nat>, finals: seq<Path>, id: string, n: nat, inode: nat)
    requires Separate(finals, id) && n < |finals| && NamesFree(live, finals, id, n)
    ensures finals[n] != [] && PartialOf(finals[n], id) !in live
    ensures var partial := live[PartialOf(finals[n], id) := inode];
      && finals[n] !in partial
      && NamesFree((partial - {PartialOf(finals[n], id)})[finals[n] := inode], finals, id, n + 1)
  {
    forall i | n < i < |finals|
      ensures PartialOf(finals[i], id) != PartialOf(finals[n], id) && PartialOf(finals[i], id) != finals[n]
    {
      if PartialOf(finals[i], id) == PartialOf(finals[n], id) { PartialsDistinct(finals[i], finals[n], id); }
    }
  }

  method RecordComplete(st: Storage, m: Manifest, finals: seq<Path>, id: string) returns (r: Outcome)
    requires st.Safe() && Separate(finals, id) && Named(m, finals, id) && Steady(st.d, m) && Settled(st.d, m)
    modifies st
    ensures st.Safe() && Recoverable(st.d) && !r.RetryableFailure?
    ensures r.Published? ==> Finished(st.d, finals)
    ensures st.reliable ==> r.Published?
  {
    hide Recorded, CrashSafe;
    var complete := m.(phase := Complete);
    PhaseUpdateRecorded(m, st.d.ours, Complete);
    assert Settled(st.d, complete);
    ReplaceSafe(st.d, m, complete);
    var persisted, renamed := st.Persist(complete);
    if !persisted {
      return DurableFailure;
    }
    forall i | 0 <= i < |complete.entries| ensures EntrySettled(st.d, complete.entries[i]) {
      assert EntrySettled(old(st.d), m.entries[i]);
    }
    assert Finished(st.d, finals);
    var fault := st.Fault();
    if fault {
      return DurableFailure;
    }
    return Published;
  }

  // ---- atomic directory publication ----

  /** The files of a directory after it is renamed. */
  function MovedFiles(live: map<Path, nat>, from: string, to: string, names: seq<string>): map<Path, nat>
    requires forall x :: x in names ==> [from, x] in live
    requires forall i, j :: 0 <= i < j < |names| ==> names[i] != names[j]
  {
    if names == [] then live
    else
      var last := names[|names| - 1];
      (MovedFiles(live, from, to, names[..|names| - 1]) - {[from, last]})[[to, last] := live[[from, last]]]
  }

  function NewNames(live: map<Path, nat>, from: string, to: string, names: seq<string>): set<(Path, nat)>
    requires forall x :: x in names ==> [from, x] in live
  {
    set x | x in names :: ([to, x], live[[from, x]])
  }

  lemma {:induction false} MovedFilesAre(live: map<Path, nat>, from: string, to: string, names: seq<string>)
    requires from != to && forall x :: x in names ==> [from, x] in live
    requires forall i, j :: 0 <= i < j < |names| ==> names[i] != names[j]
    ensures var m := MovedFiles(live, from, to, names);
      && (forall x :: x in names ==> [to, x] in m && m[[to, x]] == live[[from, x]])
      && (forall p :: p in live && (|p| != 2 || (p[0] != from && p[0] != to)) ==> p in m && m[p] == live[p])
  {
    if names != [] {
      MovedFilesAre(live, from, to, names[..|names| - 1]);
    }
  }

  /** Renaming the staging directory moves its files and keeps its own sync. */
  function MovedDirectory(d: Disk, from: string, to: string, names: seq<string>): Disk
    requires [from] in d.live && forall x :: x in names ==> [from, x] in d.live
    requires forall i, j :: 0 <= i < j < |names| ==> names[i] != names[j]
  {
    d.(live := (MovedFiles(d.live, from, to, names) - {[from]})[[to] := d.live[[from]]],
       ours := d.ours + {([to], d.live[[from]])} + NewNames(d.live, from, to, names),
       syncedDirectories := d.syncedDirectories - {[], [from]}
                            + if [from] in d.syncedDirectories then {[to]} else {})
  }

  method RenameDirectory(st: Storage, from: string, to: string, names: seq<string>) returns (ok: bool)
    requires [from] in st.d.live && forall x :: x in names ==> [from, x] in st.d.live
    requires forall i, j :: 0 <= i < j < |names| ==> names[i] != names[j]
    requires st.Safe() && CrashSafe(MovedDirectory(st.d, from, to, names))
    modifies st
    ensures st.Safe()
    ensures !ok ==> st.d == old(st.d) && !(st.reliable && [to] !in st.d.live)
    ensures ok ==> st.d == MovedDirectory(old(st.d), from, to, names)
  {
    var fault := st.Fault();
    if fault {
      return false;
    }
    if [to] in st.d.live {
      return false;
    }
    st.d := MovedDirectory(st.d, from, to, names);
    st.history := st.history + [st.d];
    return true;
  }

  /** A dump's manifest names the staging directory's inode and every file's
      before the one rename that publishes them all. */
  function DumpManifest(live: map<Path, nat>, from: string, to: string, names: seq<string>): Manifest
    requires [from] in live && forall x :: x in names ==> [from, x] in live
  {
    Manifest(Prepared,
             seq(|names|, i requires 0 <= i < |names| => Entry([], [to, names[i]], None, Some(live[[from, names[i]]]))),
             [DirectorySlot([to], Some(live[[from]]))])
  }

  ghost predicate StagedDump(d: Disk, from: string, to: string, names: seq<string>) {
    && from != to && [from] in d.live && (forall x :: x in names ==> [from, x] in d.live)
    && forall i, j :: 0 <= i < j < |names| ==> names[i] != names[j]
  }

  lemma DumpRecorded(d: Disk, from: string, to: string, names: seq<string>)
    requires StagedDump(d, from, to, names) && d.ours == {}
    ensures Recorded(DumpManifest(d.live, from, to, names), MovedDirectory(d, from, to, names).ours)
  {
    var m := DumpManifest(d.live, from, to, names);
    var ours := MovedDirectory(d, from, to, names).ours;
    forall b | b in ours ensures Accounts(m, b.0, b.1) {
      if b == ([to], d.live[[from]]) {
        assert SlotAccounts(m.directories[0], b.0, b.1);
      } else {
        assert b in NewNames(d.live, from, to, names);
        var x :| x in names && b == ([to, x], d.live[[from, x]]);
        var i :| 0 <= i < |names| && names[i] == x;
        assert EntryAccounts(m.entries[i], b.0, b.1);
      }
    }
  }

  method SyncStaged(st: Storage, from: string, names: seq<string>) returns (ok: bool)
    requires st.Safe() && Untried(st.d)
    modifies st
    ensures st.Safe() && Untried(st.d) && st.d.live == old(st.d.live)
    ensures st.reliable && [from] in old(st.d.live) && (forall x :: x in names ==> [from, x] in old(st.d.live)) ==> ok
    ensures ok ==> [from] in st.d.syncedDirectories
    ensures ok ==> forall x :: x in names ==> [from, x] in st.d.live && st.d.live[[from, x]] in st.d.syncedFiles
  {
    for n := 0 to |names|
      invariant st.Safe() && Untried(st.d) && st.d.live == old(st.d.live)
      invariant forall i :: 0 <= i < n ==>
        [from, names[i]] in st.d.live && st.d.live[[from, names[i]]] in st.d.syncedFiles
    {
      ok := st.SyncFile([from, names[n]]);
      if !ok {
        return false;
      }
    }
    ok := st.SyncDirectory([from]);
  }

  /** `publish_dump_inner`: one rename publishes the whole directory, between two
      durable manifests.  Unlike a recall, a failed first manifest is classified
      by looking at its name: a retryable failure leaves nothing behind exactly
      when no look failed at a manifest that was in place (`unseen`). */
  method PublishDump(st: Storage, from: string, to: string, names: seq<string>)
    returns (r: Outcome, ghost unseen: bool)
    requires st.Safe() && Untried(st.d) && StagedDump(st.d, from, to, names)
    modifies st
    ensures st.Safe()
    ensures r.RetryableFailure? ==> st.d.ours == {} && st.d.live == old(st.d.live)
    ensures r.RetryableFailure? ==> (Untried(st.d) <==> !unseen)
    ensures unseen ==> r.RetryableFailure? && !st.reliable
    ensures Untried(st.d) ==> r.RetryableFailure?
    ensures [to] in old(st.d.live) ==> r.RetryableFailure? && !unseen
    ensures st.reliable && [to] !in old(st.d.live) ==> r.Published?
    ensures r.Published? ==> Finished(st.d, seq(|names|, i requires 0 <= i < |names| => [to, names[i]]))
  {
    unseen := false;
    if [to] in st.d.live {
      return RetryableFailure, unseen;
    }
    var m := DumpManifest(st.d.live, from, to, names);
    var ok := SyncStaged(st, from, names);
    if !ok {
      return RetryableFailure, unseen;
    }
    PreparedSafe(st.d, m);
    DumpRecorded(st.d, from, to, names);
    NothingRecorded(m);
    var persisted, renamed := st.Persist(m);
    if !persisted {
      var blind := st.Fault();
      return if renamed && !blind then DurableFailure else RetryableFailure, renamed && blind;
    }
    r := MoveDump(st, m, from, to, names);
  }

  method MoveDump(st: Storage, m: Manifest, from: string, to: string, names: seq<string>) returns (r: Outcome)
    requires st.Safe() && StagedDump(st.d, from, to, names) && st.d.ours == {} && st.d.manifests == {Some(m)}
    requires m == DumpManifest(st.d.live, from, to, names) && [from] in st.d.syncedDirectories
    requires forall x :: x in names ==> st.d.live[[from, x]] in st.d.syncedFiles
    modifies st
    ensures st.Safe() && Recoverable(st.d) && !r.RetryableFailure?
    ensures st.reliable && [to] !in old(st.d.live) ==> r.Published?
    ensures r.Published? ==> Finished(st.d, seq(|names|, i requires 0 <= i < |names| => [to, names[i]]))
  {
    DumpRecorded(st.d, from, to, names);
    MovedFilesAre(st.d.live, from, to, names);
    ghost var before := st.d;
    hide Recorded, CrashSafe, MovedFiles, NewNames;
    SteadySafe(MovedDirectory(st.d, from, to, names), m);
    var ok := RenameDirectory(st, from, to, names);
    if !ok {
      return DurableFailure;
    }
    SteadySafe(st.d.(syncedDirectories := st.d.syncedDirectories + {[]}), m);
    ok := st.SyncDirectory([]);
    if !ok {
      return DurableFailure;
    }
    var complete := m.(phase := Complete);
    PhaseUpdateRecorded(m, st.d.ours, Complete);
    assert Settled(st.d, complete) by { DumpSettled(before, st.d, complete, from, to, names); }
    ReplaceSafe(st.d, m, complete);
    var persisted, renamed := st.Persist(complete);
    if !persisted {
      return DurableFailure;
    }
    assert Settled(st.d, complete) by { DumpSettled(before, st.d, complete, from, to, names); }
    var fault := st.Fault();
    if fault {
      return DurableFailure;
    }
    return Published;
  }

  lemma DumpSettled(before: Disk, d: Disk, m: Manifest, from: string, to: string, names: seq<string>)
    requires StagedDump(before, from, to, names) && [from] in before.syncedDirectories
    requires forall x :: x in names ==> before.live[[from, x]] in before.syncedFiles
    requires m.entries == DumpManifest(before.live, from, to, names).entries
    requires d.live == MovedDirectory(before, from, to, names).live && d.syncedFiles == before.syncedFiles
    requires d.syncedDirectories == MovedDirectory(before, from, to, names).syncedDirectories + {[]}
    ensures Settled(d, m)
  {
    MovedFilesAre(before.live, from, to, names);
    hide MovedFiles;
    forall i | 0 <= i < |m.entries| ensures EntrySettled(d, m.entries[i]) {
      var final := m.entries[i].final;
      assert final[..0] == [] && final[..1] == [to];
      assert names[i] in names;
    }
  }
}
