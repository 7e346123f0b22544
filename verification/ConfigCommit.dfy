/** Saving a configuration and committing a calibration generation with it
    (src/calibration.rs, `save_config_atomic_with_hook_and_name_source`,
    `commit_prepared_generation_with_hooks`).

    The configuration directory holds the target and one temporary name.  A crash
    leaves any target renamed into place since the last successful directory
    sync. */
module ConfigCommit {
  import opened Base

  /** For every channel of every profile, the calibration generation its threshold
      names, if any. */
  datatype Config = Config(profiles: seq<seq<Option<nat>>>)

  function CountIn(channels: seq<Option<nat>>, g: nat): nat {
    if channels == [] then 0
    else CountIn(channels[..|channels| - 1], g) + if channels[|channels| - 1] == Some(g) then 1 else 0
  }

  function Count(profiles: seq<seq<Option<nat>>>, g: nat): nat {
    if profiles == [] then 0
    else Count(profiles[..|profiles| - 1], g) + CountIn(profiles[|profiles| - 1], g)
  }

  predicate References(c: Config, g: nat) { Count(c.profiles, g) > 0 }

  /** `candidate_profile_referencing_prepared`: the only profile that names the
      generation, if it names it once. */
  method ReferencingProfile(c: Config, g: nat) returns (r: Option<nat>)
    ensures r.Some? <==> Count(c.profiles, g) == 1
    ensures r.Some? ==> r.value < |c.profiles| && CountIn(c.profiles[r.value], g) == 1
  {
    var found: Option<nat>, several := None, false;
    for i := 0 to |c.profiles|
      invariant !several && found.None? ==> Count(c.profiles[..i], g) == 0
      invariant !several && found.Some? ==>
        found.value < i && Count(c.profiles[..i], g) == CountIn(c.profiles[found.value], g) > 0
      invariant several ==> Count(c.profiles[..i], g) > 1
    {
      assert c.profiles[..i + 1][..i] == c.profiles[..i];
      if CountIn(c.profiles[i], g) > 0 {
        if found.None? { found := Some(i); } else { several := true; }
      }
    }
    assert c.profiles[..|c.profiles|] == c.profiles;
    if several || found.None? || CountIn(c.profiles[found.value], g) != 1 {
      return None;
    }
    return found;
  }

  // ---- the directory ----

  datatype Store = Store(
    target: Option<nat>,
    temp: Option<nat>,
    contents: map<nat, Config>,
    possible: set<Option<nat>>,  // the targets a crash now may leave
    removed: set<nat>,           // generations of which anything may be gone
    installed: Option<Config>)   // the live policy, once this commit replaced it

  ghost predicate Named(s: Store) {
    && s.target in s.possible && (s.temp.Some? ==> s.temp.value in s.contents)
    && forall t :: t in s.possible && t.Some? ==> t.value in s.contents
  }

  /** No configuration that a crash may leave names a generation that is gone, and
      the live policy never runs ahead of the durable configuration. */
  ghost predicate Sound(s: Store) {
    && Named(s)
    && (forall t, g :: t in s.possible && t.Some? && g in s.removed ==> !References(s.contents[t.value], g))
    && (s.installed.Some? ==> forall t :: t in s.possible ==> t.Some? && s.contents[t.value] == s.installed.value)
  }

  class ConfigStore {
    const reliable: bool  // whether operations never meet an I/O error
    var s: Store
    ghost var history: seq<Store>

    ghost predicate Safe()
      reads this
    {
      && history != [] && history[|history| - 1] == s
      && forall i :: 0 <= i < |history| ==> Sound(history[i])
    }

    constructor (s: Store, reliable: bool)
      requires Sound(s)
      ensures Safe() && this.s == s && this.reliable == reliable
    {
      this.s, history, this.reliable := s, [s], reliable;
    }

    /** Whether the next operation meets an I/O error or a failing check. */
    method Fault() returns (fault: bool)
      ensures reliable ==> !fault
    {
      fault := *;
      fault := fault && !reliable;
    }

    /** One step to another sound state. */
    method Move(next: Store)
      requires Safe() && Sound(next)
      modifies this
      ensures Safe() && s == next
    {
      s := next;
      history := history + [s];
    }

    /** Swaps the temporary file and the target, or gives the temporary file the
        free target name. */
    method Install() returns (ok: bool)
      requires Safe() && s.temp.Some? && Sound(Installed(s))
      modifies this
      ensures Safe()
      ensures reliable ==> ok
      ensures s == if ok then Installed(old(s)) else old(s)
    {
      var fault := Fault();
      if fault {
        return false;
      }
      Move(Installed(s));
      return true;
    }

    method SyncParent() returns (ok: bool)
      requires Safe()
      modifies this
      ensures Safe()
      ensures s == old(s) || s == old(s).(possible := {old(s.target)})
      ensures reliable ==> ok
      ensures ok ==> s == old(s).(possible := {old(s.target)})
    {
      var fault := Fault();
      if fault {
        return false;
      }
      Move(s.(possible := {s.target}));
      fault := Fault();
      if fault {
        return false;
      }
      return true;
    }

    method RemoveTemp() returns (ok: bool)
      requires Safe()
      modifies this
      ensures Safe()
      ensures reliable ==> ok
      ensures s == if ok then old(s).(temp := None) else old(s)
    {
      var fault := Fault();
      if fault {
        return false;
      }
      Move(s.(temp := None));
      return true;
    }

    method RemoveTarget() returns (ok: bool)
      requires Safe() && s.installed.None?
      modifies this
      ensures Safe()
      ensures reliable ==> ok
      ensures s == if ok then Uninstalled(old(s)) else old(s)
    {
      var fault := Fault();
      if fault {
        return false;
      }
      Move(Uninstalled(s));
      return true;
    }

    /** Gives up before anything was renamed. */
    method GiveUp() returns (r: Saving)
      requires Safe()
      modifies this
      ensures Safe()
      ensures r == Failed(Plain) || r == Failed(CleanupFailed)
      ensures s == old(s).(temp := s.temp)
    {
      var removed := RemoveTemp();
      return Failed(if removed then Plain else CleanupFailed);
    }

    /** Reports success only when every crash leaves the candidate, and a plain
        failure only when no crash can bring up the candidate; any other failure
        says that neither is certain.  An earlier save may have left several
        possible targets, and a temporary file under a name of its own. */
    method Save(candidate: Config, inode: nat) returns (r: Saving)
      requires Safe() && s.installed.None? && inode !in s.contents
      requires forall g :: g in s.removed ==> !References(candidate, g)
      modifies this
      ensures Safe() && s.removed == old(s.removed) && s.installed.None?
      ensures s.contents == old(s.contents) || s.contents == old(s.contents)[inode := candidate]
      ensures s.possible <= old(s.possible) + {Some(inode)}
      ensures reliable ==> r.Saved?
      ensures r.Saved? ==> s.target == Some(inode) && s.possible == {Some(inode)} && inode in s.contents
      ensures r == Failed(Plain) ==> s.target == old(s.target) && s.possible <= old(s.possible)
    {
      var fault := Fault();
      if fault {
        return Failed(Plain);
      }
      var previous := s.target;
      Move(s.(temp := Some(inode), contents := s.contents[inode := candidate]));
      fault := Fault();
      if fault {
        r := GiveUp();
        return;
      }
      fault := Fault();
      if fault {
        return Failed(Plain);
      }
      var ok := Install();
      if !ok {
        r := GiveUp();
        return;
      }
      fault := Fault();
      if fault {
        return Failed(Indeterminate);
      }
      ok := Publish();
      if !ok {
        if previous.Some? { r := ExchangeBack(previous, inode); } else { r := TakeBack(inode); }
        return;
      }
      if previous.Some? {
        ok := RemoveTemp();
        if ok { ok := SyncParent(); }
      }
      return Saved;
    }

    /** The directory sync between the two checkpoints; either may fail around it. */
    method Publish() returns (ok: bool)
      requires Safe()
      modifies this
      ensures Safe()
      ensures s == old(s) || s == old(s).(possible := {old(s.target)})
      ensures reliable ==> ok
      ensures ok ==> s == old(s).(possible := {old(s.target)})
    {
      var fault := Fault();
      if fault {
        return false;
      }
      ok := SyncParent();
      fault := Fault();
      if fault {
        return false;
      }
    }

    method ExchangeBack(previous: Option<nat>, inode: nat) returns (r: Saving)
      requires Safe() && previous.Some? && previous.value in s.contents && s.installed.None?
      requires s.target == Some(inode) && s.temp == previous
      requires forall g :: g in s.removed ==> !References(s.contents[previous.value], g)
      modifies this
      ensures Safe() && s.removed == old(s.removed) && s.contents == old(s.contents) && s.installed.None?
      ensures s.possible <= old(s.possible) + {previous} && !r.Saved?
      ensures r == Failed(Plain) ==> s.target == previous && s.possible == {previous}
    {
      var fault := Fault();
      if fault {
        return Failed(Indeterminate);
      }
      var ok := Install();
      if !ok {
        return Failed(Indeterminate);
      }
      fault := Fault();
      if fault {
        return Failed(Indeterminate);
      }
      ok := SyncParent();
      if !ok {
        return Failed(Indeterminate);
      }
      ok := RemoveTemp();
      if ok {
        ok := SyncParent();
      }
      return Failed(if ok then Plain else CleanupFailed);
    }

    method TakeBack(inode: nat) returns (r: Saving)
      requires Safe() && s.installed.None? && s.target == Some(inode)
      modifies this
      ensures Safe() && s.removed == old(s.removed) && s.contents == old(s.contents) && s.installed.None?
      ensures s.possible <= old(s.possible) + {None} && !r.Saved?
      ensures r == Failed(Plain) ==> s.target == None && s.possible == {None}
    {
      var fault := Fault();
      if fault {
        return Failed(Indeterminate);
      }
      var ok := RemoveTarget();
      if ok {
        ok := SyncParent();
      }
      return Failed(if ok then Plain else CleanupFailed);
    }

    /** Removes a generation; even a failed removal may have taken part of it. */
    method Remove(g: nat) returns (complete: bool)
      requires Safe()
      modifies this
      ensures s == old(s) || s == old(s).(removed := old(s.removed) + {g})
      ensures complete ==> g in s.removed
      ensures reliable ==> complete
      ensures Sound(s) ==> Safe()
    {
      var fault := Fault();
      if fault {
        return false;
      }
      s := s.(removed := s.removed + {g});
      history := history + [s];
      fault := Fault();
      complete := !fault;
    }

    /** The live policy follows the durable configuration. */
    method InstallPolicy(c: Config)
      requires Safe() && forall t :: t in s.possible ==> t.Some? && s.contents[t.value] == c
      modifies this
      ensures Safe() && s == old(s).(installed := Some(c))
    {
      Move(s.(installed := Some(c)));
    }
  }

  /** No configuration that a crash may leave names the generation. */
  ghost predicate Unnamed(s: Store, g: nat)
    requires Named(s)
  {
    forall t :: t in s.possible && t.Some? ==> !References(s.contents[t.value], g)
  }

  lemma RemovalSound(s: Store, g: nat)
    requires Sound(s) && Unnamed(s, g)
    ensures Sound(s.(removed := s.removed + {g}))
  {
  }

  class PreparedGeneration {
    const generation: nat
    var authoritative: bool

    constructor (generation: nat)
      ensures this.generation == generation && !authoritative
    {
      this.generation, authoritative := generation, false;
    }

    /** Removes the generation unless a configuration may have come to own it. */
    method Cleanup(st: ConfigStore) returns (complete: bool)
      requires st.Safe() && (!authoritative ==> Unnamed(st.s, generation))
      modifies st
      ensures st.Safe() && st.s == old(st.s).(removed := st.s.removed)
      ensures st.s.removed <= old(st.s.removed) + {generation}
      ensures authoritative ==> !complete && st.s == old(st.s)
      ensures complete ==> generation in st.s.removed
      ensures st.reliable && !authoritative ==> complete
    {
      if authoritative {
        return false;
      }
      RemovalSound(st.s, generation);
      complete := st.Remove(generation);
    }
  }

  datatype OldGeneration = NotRequested | Removed | Pending

  datatype Commit = Aliased | Rejected(cleaned: bool) | SaveFailed(why: Failure) | Committed(old_: OldGeneration)

  /** Commits the candidate and the generation it was calibrated with.  A generation
      is removed only when no configuration that a crash may leave names it, and
      the candidate goes live only once it is durable; the one exception is a
      candidate that still names the previous generation, whose removal then
      leaves it dangling. */
  method CommitGeneration(st: ConfigStore, candidate: Config, inode: nat, prepared: PreparedGeneration,
                          previous: Option<nat>)
    returns (r: Commit)
    requires st.Safe() && st.s.installed.None?
    requires inode !in st.s.contents && !prepared.authoritative && Unnamed(st.s, prepared.generation)
    requires forall g :: g in st.s.removed ==> !References(candidate, g)
    modifies st, prepared
    ensures (previous.Some? ==> !References(candidate, previous.value)) ==> st.Safe()
    ensures r == Committed(Removed) ==>
      previous.Some? && (Sound(st.s) <==> !References(candidate, previous.value))
    ensures st.reliable && previous != Some(prepared.generation) && Count(candidate.profiles, prepared.generation) == 1
            ==> r == Committed(if previous.None? then NotRequested else Removed)
    ensures r.Aliased? <==> previous == Some(prepared.generation)
    ensures r.Aliased? ==> st.s == old(st.s)
    ensures Count(candidate.profiles, prepared.generation) != 1 ==> r.Aliased? || r.Rejected?
    ensures r.Rejected? ==>
      && st.s == old(st.s).(removed := st.s.removed) && st.s.removed <= old(st.s.removed) + {prepared.generation}
      && (r.cleaned ==> prepared.generation in st.s.removed)
    ensures r.SaveFailed? && !r.why.Plain? ==> st.s.removed == old(st.s.removed)
    ensures r == SaveFailed(Plain) ==>
      st.s.target == old(st.s.target) && st.s.removed <= old(st.s.removed) + {prepared.generation}
    ensures r.Committed? ==>
      match previous
      case None => r.old_.NotRequested? && st.s.removed == old(st.s.removed)
      case Some(g) =>
        && !r.old_.NotRequested? && st.s.removed <= old(st.s.removed) + {g}
        && (r.old_.Removed? ==> g in st.s.removed)
    ensures r.Committed? <==> st.s.installed.Some?
    ensures r.Committed? ==>
      && st.s.possible == {Some(inode)} && inode in st.s.contents && st.s.contents[inode] == candidate
      && st.s.installed == Some(candidate) && Count(candidate.profiles, prepared.generation) == 1
    ensures prepared.authoritative <==> r.Committed? || r == SaveFailed(Indeterminate) || r == SaveFailed(CleanupFailed)
    ensures !prepared.authoritative ==>
      Named(st.s) && Unnamed(st.s, prepared.generation) && st.s.possible <= old(st.s.possible)
  {
    if previous == Some(prepared.generation) {
      return Aliased;
    }
    var profile := ReferencingProfile(candidate, prepared.generation);
    var invalid := st.Fault();
    if profile.None? || invalid {
      var cleaned := prepared.Cleanup(st);
      return Rejected(cleaned);
    }
    var saved := st.Save(candidate, inode);
    if saved.Failed? {
      if saved.why.Plain? {
        var cleaned := prepared.Cleanup(st);
        return SaveFailed(Plain);
      }
      prepared.authoritative := true;
      return SaveFailed(saved.why);
    }
    prepared.authoritative := true;
    st.InstallPolicy(candidate);
    if previous.None? {
      return Committed(NotRequested);
    }
    if !References(candidate, previous.value) {
      RemovalSound(st.s, previous.value);
    }
    var complete := st.Remove(previous.value);
    return Committed(if complete then Removed else Pending);
  }

  /** The previous generation and the new one can share a profile. */
  lemma SharedProfile(generation: nat, previous: nat)
    requires generation != previous
    ensures var c := Config([[Some(generation), Some(previous)]]);
            Count(c.profiles, generation) == 1 && References(c, previous)
  {
    var channels: seq<Option<nat>> := [Some(generation), Some(previous)];
    OneProfile(channels, generation);
    OneProfile(channels, previous);
    var head := channels[..1];
    assert head == [Some(generation)];
    SingleCount(Some(generation), generation);
    SingleCount(Some(generation), previous);
  }

  lemma OneProfile(channels: seq<Option<nat>>, g: nat)
    ensures Count([channels], g) == CountIn(channels, g)
  {
    var profiles := [channels];
    assert profiles[..0] == [];
  }

  lemma SingleCount(channel: Option<nat>, g: nat)
    ensures CountIn([channel], g) == if channel == Some(g) then 1 else 0
  {
    var channels := [channel];
    assert channels[..0] == [];
  }

  /** A commit that meets no error and still breaks its configuration: the
      candidate keeps the previous generation for one channel, and loses it. */
  method CommitThatDangles(generation: nat, previous: nat) returns (st: ConfigStore)
    requires generation != previous
    ensures !Sound(st.s)
  {
    var before, candidate := Config([[Some(previous)]]), Config([[Some(generation), Some(previous)]]);
    st := new ConfigStore(Store(Some(0), None, map[0 := before], {Some(0)}, {}, None), true);
    var prepared := new PreparedGeneration(generation);
    SharedProfile(generation, previous);
    OneProfile([Some(previous)], generation);
    SingleCount(Some(previous), generation);
    var r := CommitGeneration(st, candidate, 1, prepared, Some(previous));
  }

  datatype Failure = Plain | Indeterminate | CleanupFailed

  datatype Saving = Saved | Failed(why: Failure)

  function Uninstalled(s: Store): Store { s.(target := None, possible := s.possible + {None}) }

  function Installed(s: Store): Store
    requires s.temp.Some?
  {
    s.(target := s.temp, temp := s.target, possible := s.possible + {s.temp})
  }
}