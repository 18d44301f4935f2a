/**
 * Instance creation under one lock: a staged directory, a rollback, a registry published by rename, readers throughout.
 */
module Instances {
  import opened Options

  type Name = string
  type Worker = nat

  /** What a registry file holds: part of a document while it is being written, then all of it. */
  datatype Content = Part | Whole(names: seq<Name>)

  datatype Disk = Disk(dirs: set<Name>, registry: Content, staging: Option<Content>)

  /** Where one request to create an instance has got to. */
  datatype Pc =
    | Waiting(name: Name)
    | Entered(name: Name)
    | Staged(name: Name)
    | Undoing(name: Name)
    | Registered(name: Name)
    | Writing(name: Name, names: seq<Name>)
    | Filling(name: Name, names: seq<Name>)
    | Ready(name: Name, names: seq<Name>)
    | Published(name: Name)
    | Unlocked(name: Name)
    | Mounted(name: Name)
    | Exists(name: Name)
    | Failed(name: Name, removed: bool)

  predicate Inside(pc: Pc) {
    || pc.Entered? || pc.Staged? || pc.Undoing? || pc.Registered?
    || pc.Writing? || pc.Filling? || pc.Ready? || pc.Published?
  }

  /** Between staging the directory and publishing the name. */
  predicate Building(pc: Pc) {
    pc.Staged? || pc.Undoing? || pc.Registered? || pc.Writing? || pc.Filling? || pc.Ready?
  }

  predicate Succeeded(pc: Pc) { pc.Published? || pc.Unlocked? || pc.Mounted? }

  /** `entry` is the disk as the lock's holder found it; `seen` is what readers of the registry were given. */
  datatype State = State(
    disk: Disk, lock: Option<Worker>, pcs: map<Worker, Pc>, mounted: seq<Name>, entry: Disk, seen: seq<Content>)

  datatype Act =
    | Enter
    | Stage
    | Register(ok: bool)
    | Undo(removed: bool)
    | ReadNames
    | Truncate
    | Fill
    | Rename
    | Leave
    | Mount

  datatype Step = Ask(w: Worker, name: Name) | By(w: Worker, act: Act) | Look

  predicate Enabled(s: State, step: Step) {
    match step
    case Ask(w, _) => w !in s.pcs
    case Look => true
    case By(w, act) =>
      w in s.pcs &&
      var pc := s.pcs[w];
      match act
      case Enter => pc.Waiting? && s.lock == None
      case Stage => pc.Entered?
      case Register(_) => pc.Staged?
      case Undo(_) => pc.Undoing?
      case ReadNames => pc.Registered?
      case Truncate => pc.Writing?
      case Fill => pc.Filling?
      case Rename => pc.Ready? && s.disk.staging.Some?
      case Leave => pc.Published?
      case Mount => pc.Unlocked?
  }

  /** A registry that cannot be read counts as empty. */
  function NamesIn(c: Content): seq<Name> { if c.Whole? then c.names else [] }

  function At(s: State, w: Worker, pc: Pc): State { s.(pcs := s.pcs[w := pc]) }

  function Staging(s: State, w: Worker, name: Name): State {
    if name in s.disk.dirs || name in s.mounted then At(s, w, Exists(name)).(lock := None)
    else At(s, w, Staged(name)).(disk := s.disk.(dirs := s.disk.dirs + {name}))
  }

  function Undone(s: State, w: Worker, name: Name, removed: bool): State {
    At(s, w, Failed(name, removed))
      .(lock := None, disk := if removed then s.disk.(dirs := s.disk.dirs - {name}) else s.disk)
  }

  function Acted(s: State, w: Worker, act: Act): State
    requires Enabled(s, By(w, act))
  {
    var pc := s.pcs[w];
    match act
    case Enter => At(s, w, Entered(pc.name)).(lock := Some(w), entry := s.disk)
    case Stage => Staging(s, w, pc.name)
    case Register(ok) => At(s, w, if ok then Registered(pc.name) else Undoing(pc.name))
    case Undo(removed) => Undone(s, w, pc.name, removed)
    case ReadNames => At(s, w, Writing(pc.name, NamesIn(s.disk.registry) + [pc.name]))
    case Truncate => At(s, w, Filling(pc.name, pc.names)).(disk := s.disk.(staging := Some(Part)))
    case Fill => At(s, w, Ready(pc.name, pc.names)).(disk := s.disk.(staging := Some(Whole(pc.names))))
    case Rename => At(s, w, Published(pc.name)).(disk := s.disk.(registry := s.disk.staging.value, staging := None))
    case Leave => At(s, w, Unlocked(pc.name)).(lock := None)
    case Mount =>
      At(s, w, Mounted(pc.name)).(mounted := if pc.name in s.mounted then s.mounted else s.mounted + [pc.name])
  }

  function Apply(s: State, step: Step): State
    requires Enabled(s, step)
  {
    match step
    case Ask(w, name) => At(s, w, Waiting(name))
    case By(w, act) => Acted(s, w, act)
    case Look => s.(seen := s.seen + [s.disk.registry])
  }

  ghost predicate IsRun(s: State, steps: seq<Step>)
    decreases |steps|
  {
    steps == [] || (Enabled(s, steps[0]) && IsRun(Apply(s, steps[0]), steps[1..]))
  }

  ghost function After(s: State, steps: seq<Step>): State
    requires IsRun(s, steps)
    decreases |steps|
  {
    if steps == [] then s else After(Apply(s, steps[0]), steps[1..])
  }

  // ----- What every step keeps -----

  predicate Distinct(names: seq<Name>) { forall i, j :: 0 <= i < j < |names| ==> names[i] != names[j] }

  /** The published registry: all of a document, no name twice, every name with its directory, nothing else mounted. */
  ghost predicate DiskOk(s: State) {
    && s.disk.registry.Whole? && Distinct(s.disk.registry.names) && Distinct(s.mounted)
    && (forall n :: n in s.disk.registry.names ==> n in s.disk.dirs)
    && (forall n :: n in s.mounted ==> n in s.disk.registry.names)
    && (forall i :: 0 <= i < |s.seen| ==> s.seen[i].Whole? && s.seen[i].names <= s.disk.registry.names)
  }

  /** What the lock's holder may count on. */
  ghost predicate HolderOk(s: State, pc: Pc)
    requires s.disk.registry.Whole?
  {
    && (pc.Entered? ==> s.disk == s.entry)
    && (Building(pc) ==>
          && s.disk.dirs == s.entry.dirs + {pc.name} && pc.name !in s.entry.dirs
          && s.disk.registry == s.entry.registry && pc.name !in s.disk.registry.names)
    && (pc.Writing? || pc.Filling? || pc.Ready? ==> pc.names == s.disk.registry.names + [pc.name])
    && (pc.Ready? ==> s.disk.staging == Some(Whole(pc.names)))
  }

  ghost predicate PcOk(s: State, w: Worker)
    requires w in s.pcs && s.disk.registry.Whole?
  {
    && (Inside(s.pcs[w]) <==> s.lock == Some(w))
    && (Succeeded(s.pcs[w]) ==> s.pcs[w].name in s.disk.registry.names)
    && (s.pcs[w].Mounted? ==> s.pcs[w].name in s.mounted)
    && (Inside(s.pcs[w]) ==> HolderOk(s, s.pcs[w]))
  }

  ghost predicate Alone(s: State, w: Worker)
    requires w in s.pcs
  {
    Succeeded(s.pcs[w]) ==> forall v :: v in s.pcs && v != w && Succeeded(s.pcs[v]) ==> s.pcs[v].name != s.pcs[w].name
  }

  /** Its creator has published the name and is about to mount it. */
  ghost predicate AboutToMount(s: State, n: Name) {
    exists w :: w in s.pcs && (s.pcs[w].Published? || s.pcs[w].Unlocked?) && s.pcs[w].name == n
  }

  /** Every published instance is mounted, or is about to be. */
  ghost predicate AllMounted(s: State) {
    forall n :: n in NamesIn(s.disk.registry) ==> n in s.mounted || AboutToMount(s, n)
  }

  ghost predicate Inv(s: State) {
    && DiskOk(s) && AllMounted(s)
    && (forall w :: w in s.pcs ==> PcOk(s, w))
    && (forall w :: w in s.pcs ==> Alone(s, w))
    && (s.lock.Some? ==> s.lock.value in s.pcs)
  }

  /** A host that starts with a registry whose names have directories, all of them mounted. */
  ghost predicate Initial(s: State) {
    && s.disk.registry.Whole? && Distinct(s.disk.registry.names) && s.mounted == s.disk.registry.names
    && (forall n :: n in s.disk.registry.names ==> n in s.disk.dirs)
    && s.lock == None && s.pcs == map[] && s.seen == []
  }

  ghost predicate PcsOk(s: State)
    requires s.disk.registry.Whole?
  {
    forall w :: w in s.pcs ==> PcOk(s, w)
  }

  ghost predicate AllAlone(s: State) { forall w :: w in s.pcs ==> Alone(s, w) }

  /** The creators that have succeeded stay the only ones, unless one more joins under a name none of them has. */
  lemma AloneStays(s: State, t: State, w: Worker)
    requires AllAlone(s) && w in t.pcs && t.pcs == s.pcs[w := t.pcs[w]]
    requires Succeeded(t.pcs[w]) ==>
      (w in s.pcs && Succeeded(s.pcs[w]) && s.pcs[w].name == t.pcs[w].name) ||
      (forall v :: v in s.pcs && Succeeded(s.pcs[v]) ==> s.pcs[v].name != t.pcs[w].name)
    ensures AllAlone(t)
  {
    forall v | v in t.pcs ensures Alone(t, v) {
      if v != w { assert Alone(s, v); } else if w in s.pcs { assert Alone(s, w); }
    }
  }

  /** A step by `w` that leaves the registry alone concerns nobody else. */
  lemma OthersStay(s: State, t: State, w: Worker)
    requires DiskOk(s) && PcsOk(s) && t.disk.registry == s.disk.registry
    requires w in t.pcs && t.pcs == s.pcs[w := t.pcs[w]] && PcOk(t, w) && s.mounted <= t.mounted
    requires s.lock != Some(w) ==> s.lock == None || t.lock == s.lock
    requires t.lock == s.lock || t.lock == None || t.lock == Some(w)
    requires s.lock.Some? && s.lock != Some(w) ==> t.disk == s.disk && t.entry == s.entry
    ensures PcsOk(t)
  {
    forall v | v in t.pcs ensures PcOk(t, v) {
      if v != w { assert PcOk(s, v); }
    }
  }

  /** Whoever is about to mount still is, or has just done so. */
  lemma MountsStay(s: State, t: State, w: Worker)
    requires AllMounted(s) && s.mounted <= t.mounted
    requires w in t.pcs && t.pcs == s.pcs[w := t.pcs[w]]
    requires w in s.pcs && (s.pcs[w].Published? || s.pcs[w].Unlocked?) ==>
      t.pcs[w].name == s.pcs[w].name && (t.pcs[w].Unlocked? || s.pcs[w].name in t.mounted)
    requires forall n :: n in NamesIn(t.disk.registry) ==>
      n in NamesIn(s.disk.registry) || (t.pcs[w].Published? && t.pcs[w].name == n)
    ensures AllMounted(t)
  {
    forall n | n in NamesIn(t.disk.registry) ensures n in t.mounted || AboutToMount(t, n) {
      if n !in NamesIn(s.disk.registry) {
        assert t.pcs[w].Published? && t.pcs[w].name == n;
      } else if n !in s.mounted {
        var v :| v in s.pcs && (s.pcs[v].Published? || s.pcs[v].Unlocked?) && s.pcs[v].name == n;
        assert v in t.pcs;
        if v != w { assert t.pcs[v] == s.pcs[v]; }
      }
    }
  }

  lemma EnterKeeps(s: State, w: Worker)
    requires Inv(s) && Enabled(s, By(w, Enter))
    ensures Inv(Acted(s, w, Enter))
  {
    var t := Acted(s, w, Enter);
    OthersStay(s, t, w);
    AloneStays(s, t, w);
    MountsStay(s, t, w);
  }

  lemma StageKeeps(s: State, w: Worker)
    requires Inv(s) && Enabled(s, By(w, Stage))
    ensures Inv(Acted(s, w, Stage))
  {
    var t := Acted(s, w, Stage);
    assert PcOk(s, w);
    OthersStay(s, t, w);
    AloneStays(s, t, w);
    MountsStay(s, t, w);
  }

  lemma RegisterKeeps(s: State, w: Worker, ok: bool)
    requires Inv(s) && Enabled(s, By(w, Register(ok)))
    ensures Inv(Acted(s, w, Register(ok)))
  {
    var t := Acted(s, w, Register(ok));
    assert PcOk(s, w);
    OthersStay(s, t, w);
    AloneStays(s, t, w);
    MountsStay(s, t, w);
  }

  lemma UndoKeeps(s: State, w: Worker, removed: bool)
    requires Inv(s) && Enabled(s, By(w, Undo(removed)))
    ensures Inv(Acted(s, w, Undo(removed)))
  {
    var t := Acted(s, w, Undo(removed));
    assert PcOk(s, w);
    OthersStay(s, t, w);
    AloneStays(s, t, w);
    MountsStay(s, t, w);
  }

  lemma WriteKeeps(s: State, w: Worker, act: Act)
    requires Inv(s) && Enabled(s, By(w, act)) && (act.ReadNames? || act.Truncate? || act.Fill?)
    ensures Inv(Acted(s, w, act))
  {
    var t := Acted(s, w, act);
    assert PcOk(s, w);
    OthersStay(s, t, w);
    AloneStays(s, t, w);
    MountsStay(s, t, w);
  }

  lemma RenameKeeps(s: State, w: Worker)
    requires Inv(s) && Enabled(s, By(w, Rename))
    ensures Inv(Acted(s, w, Rename))
  {
    var t, pc := Acted(s, w, Rename), s.pcs[w];
    assert PcOk(s, w);
    var was, now := s.disk.registry.names, t.disk.registry.names;
    assert now == was + [pc.name] && was <= now;
    forall v | v in t.pcs ensures PcOk(t, v) {
      if v != w { assert PcOk(s, v); }
    }
    forall v | v in s.pcs && Succeeded(s.pcs[v]) ensures s.pcs[v].name != pc.name {
      assert PcOk(s, v);
    }
    AloneStays(s, t, w);
    MountsStay(s, t, w);
    assert DiskOk(t) by {
      assert forall n :: n in now ==> n in was || n == pc.name;
    }
  }

  lemma LeaveKeeps(s: State, w: Worker)
    requires Inv(s) && Enabled(s, By(w, Leave))
    ensures Inv(Acted(s, w, Leave))
  {
    var t := Acted(s, w, Leave);
    assert PcOk(s, w);
    OthersStay(s, t, w);
    AloneStays(s, t, w);
    MountsStay(s, t, w);
  }

  lemma MountKeeps(s: State, w: Worker)
    requires Inv(s) && Enabled(s, By(w, Mount))
    ensures Inv(Acted(s, w, Mount))
  {
    var t := Acted(s, w, Mount);
    assert PcOk(s, w);
    OthersStay(s, t, w);
    AloneStays(s, t, w);
    MountsStay(s, t, w);
  }

  lemma ActKeeps(s: State, w: Worker, act: Act)
    requires Inv(s) && Enabled(s, By(w, act))
    ensures Inv(Acted(s, w, act))
  {
    match act
    case Enter => EnterKeeps(s, w);
    case Stage => StageKeeps(s, w);
    case Register(ok) => RegisterKeeps(s, w, ok);
    case Undo(removed) => UndoKeeps(s, w, removed);
    case Rename => RenameKeeps(s, w);
    case Leave => LeaveKeeps(s, w);
    case Mount => MountKeeps(s, w);
    case _ => WriteKeeps(s, w, act);
  }

  lemma StepKeeps(s: State, step: Step)
    requires Inv(s) && Enabled(s, step)
    ensures Inv(Apply(s, step))
  {
    match step
    case Ask(w, name) => AskKeeps(s, w, name);
    case By(w, act) => ActKeeps(s, w, act);
    case Look => LookKeeps(s);
  }

  lemma AskKeeps(s: State, w: Worker, name: Name)
    requires Inv(s) && w !in s.pcs
    ensures Inv(At(s, w, Waiting(name)))
  {
    var t := At(s, w, Waiting(name));
    OthersStay(s, t, w);
    AloneStays(s, t, w);
    MountsStay(s, t, w);
  }

  lemma LookKeeps(s: State)
    requires Inv(s)
    ensures Inv(Apply(s, Look))
  {
    var t := Apply(s, Look);
    forall w | w in t.pcs ensures PcOk(t, w) && Alone(t, w) {
      assert PcOk(s, w) && Alone(s, w);
    }
    forall n | n in NamesIn(t.disk.registry) ensures n in t.mounted || AboutToMount(t, n) {
      if n !in s.mounted { assert AboutToMount(s, n); }
    }
  }

  lemma {:induction false} RunKeeps(s: State, steps: seq<Step>)
    requires Inv(s) && IsRun(s, steps)
    ensures Inv(After(s, steps))
    decreases |steps|
  {
    if steps != [] {
      StepKeeps(s, steps[0]);
      RunKeeps(Apply(s, steps[0]), steps[1..]);
    }
  }

  // ----- Main results -----

  lemma StepKeepsNames(s: State, step: Step)
    requires Inv(s) && Enabled(s, step)
    ensures NamesIn(s.disk.registry) <= NamesIn(Apply(s, step).disk.registry)
  {
    if step.By? { assert PcOk(s, step.w); }
  }

  /** No published name is ever lost or moved: the registry only grows at its end. */
  lemma {:induction false} NoNameIsLost(s: State, steps: seq<Step>)
    requires Inv(s) && IsRun(s, steps)
    ensures s.disk.registry.Whole? && After(s, steps).disk.registry.Whole?
    ensures s.disk.registry.names <= After(s, steps).disk.registry.names
    decreases |steps|
  {
    RunKeeps(s, steps);
    if steps != [] {
      StepKeepsNames(s, steps[0]);
      StepKeeps(s, steps[0]);
      NoNameIsLost(Apply(s, steps[0]), steps[1..]);
    }
  }

  /**
   * In every run: one creator per name succeeds, each name is listed once and has its directory, only listed names
   * are mounted and none twice, every listed name is mounted or its creator is about to mount it, and every reader was
   * given a whole list that the registry still begins with.
   */
  lemma {:induction false} CreationIsSafe(s: State, steps: seq<Step>)
    requires Initial(s) && IsRun(s, steps)
    ensures var t := After(s, steps);
            && t.disk.registry.Whole? && s.disk.registry.names <= t.disk.registry.names
            && Distinct(t.disk.registry.names) && Distinct(t.mounted)
            && (forall n :: n in t.disk.registry.names ==> n in t.disk.dirs)
            && (forall n :: n in t.mounted ==> n in t.disk.registry.names)
            && (forall i :: 0 <= i < |t.seen| ==> t.seen[i].Whole? && t.seen[i].names <= t.disk.registry.names)
    ensures AllAlone(After(s, steps)) && AllMounted(After(s, steps))
    ensures forall w :: w in After(s, steps).pcs && After(s, steps).pcs[w].Mounted? ==>
              After(s, steps).pcs[w].name in After(s, steps).mounted
    ensures forall w :: w in After(s, steps).pcs && Succeeded(After(s, steps).pcs[w]) ==>
              After(s, steps).pcs[w].name in NamesIn(After(s, steps).disk.registry)
  {
    assert Inv(s);
    RunKeeps(s, steps);
    NoNameIsLost(s, steps);
    var t := After(s, steps);
    forall w | w in t.pcs
      ensures Succeeded(t.pcs[w]) ==> t.pcs[w].name in NamesIn(t.disk.registry)
      ensures t.pcs[w].Mounted? ==> t.pcs[w].name in t.mounted
    {
      assert PcOk(t, w);
    }
  }

  /**
   * A failed registration puts directories and registry back exactly as its request found them under the lock if and
   * only if the staged directory was removed; until then nobody else could change either.
   */
  lemma {:induction false} FailureRestores(s: State, w: Worker, removed: bool)
    requires Inv(s) && Enabled(s, By(w, Undo(removed)))
    ensures var t := Apply(s, By(w, Undo(removed)));
            && t.lock == None && t.disk.registry == s.entry.registry
            && (t.disk.dirs == s.entry.dirs <==> removed)
            && s.pcs[w].name !in NamesIn(t.disk.registry) && s.pcs[w].name !in t.mounted
  {
    assert PcOk(s, w);
  }

  /** While one request holds the lock no step of another changes directories, registry or what the holder found. */
  lemma {:induction false} HolderIsUndisturbed(s: State, w: Worker, step: Step)
    requires Inv(s) && Enabled(s, step) && s.lock == Some(w) && !(step.By? && step.w == w)
    ensures var t := Apply(s, step); t.disk == s.disk && t.entry == s.entry && t.lock == s.lock
  {
    if step.By? { assert PcOk(s, step.w); }
  }

  /**
   * A name can be created exactly when it has no directory: a retry after a failure goes through iff the failure
   * removed its own.
   */
  lemma {:induction false} RetryGoesThrough(s: State, w: Worker, removed: bool, v: Worker)
    requires Inv(s) && Enabled(s, By(w, Undo(removed))) && v !in s.pcs
    ensures var name := s.pcs[w].name;
            var t := Apply(s, By(w, Undo(removed)));
            var asked := Apply(t, Ask(v, name));
            var entered := Apply(asked, By(v, Enter));
            Apply(entered, By(v, Stage)).pcs[v] == (if removed then Staged(name) else Exists(name))
  {
    assert PcOk(s, w);
    FailureRestores(s, w, removed);
  }

  /** The request is refused exactly when the name has a directory; refused, it lets go and has changed nothing. */
  lemma {:induction false} StagedExactlyWhenNew(s: State, w: Worker)
    requires Inv(s) && Enabled(s, By(w, Stage))
    ensures var t, name := Apply(s, By(w, Stage)), s.pcs[w].name;
            && (t.pcs[w] == Staged(name) <==> name !in s.disk.dirs)
            && (name in s.disk.dirs ==> t == s.(pcs := s.pcs[w := Exists(name)], lock := None))
            && (name !in s.disk.dirs ==> t.disk == s.disk.(dirs := s.disk.dirs + {name}) && t.lock == Some(w))
  {
    assert PcOk(s, w);
  }

  /** A request whose account could not be registered publishes nothing, however the run goes on. */
  lemma {:induction false} FailedPublishesNothing(s: State, w: Worker, later: seq<Step>)
    requires w in s.pcs && (s.pcs[w].Undoing? || s.pcs[w].Failed?) && IsRun(s, later)
    ensures var t := After(s, later); w in t.pcs && (t.pcs[w].Undoing? || t.pcs[w].Failed?)
    decreases |later|
  {
    if later != [] { FailedPublishesNothing(Apply(s, later[0]), w, later[1..]); }
  }

  /** And a failed registration makes it such a request; one that went through makes it a publisher. */
  lemma {:induction false} RegistrationDecides(s: State, w: Worker, ok: bool)
    requires Enabled(s, By(w, Register(ok)))
    ensures var t := Apply(s, By(w, Register(ok))); t.disk == s.disk && t.lock == s.lock
    ensures Apply(s, By(w, Register(ok))).pcs[w].Undoing? <==> !ok
    ensures Apply(s, By(w, Register(ok))).pcs[w].Registered? <==> ok
  {
  }

  /** The lock is never stuck: whoever holds it has a step to take, and a failed account can always be undone. */
  lemma {:induction false} HolderGoesOn(s: State, w: Worker)
    requires Inv(s) && s.lock == Some(w)
    ensures exists act :: Enabled(s, By(w, act))
  {
    assert PcOk(s, w);
    match s.pcs[w]
    case Entered(_) => assert Enabled(s, By(w, Stage));
    case Staged(_) => assert Enabled(s, By(w, Register(true)));
    case Undoing(_) => assert Enabled(s, By(w, Undo(true)));
    case Registered(_) => assert Enabled(s, By(w, ReadNames));
    case Writing(_, _) => assert Enabled(s, By(w, Truncate));
    case Filling(_, _) => assert Enabled(s, By(w, Fill));
    case Ready(_, _) => assert Enabled(s, By(w, Rename));
    case Published(_) => assert Enabled(s, By(w, Leave));
  }

  /** The steps of a creation that meets no failure: up to its account, and from there on. */
  function Preparing(w: Worker, name: Name): seq<Step> {
    [Ask(w, name), By(w, Enter), By(w, Stage), By(w, Register(true))]
  }

  function Publishing(w: Worker): seq<Step> {
    [By(w, ReadNames), By(w, Truncate), By(w, Fill), By(w, Rename), By(w, Leave), By(w, Mount)]
  }

  function Prepared(s: State, w: Worker, name: Name): State {
    s.(pcs := s.pcs[w := Registered(name)], lock := Some(w), entry := s.disk,
       disk := s.disk.(dirs := s.disk.dirs + {name}))
  }

  lemma {:induction false} PreparingGoes(s: State, w: Worker, name: Name)
    requires s.lock == None && w !in s.pcs && name !in s.disk.dirs && name !in s.mounted
    ensures IsRun(s, Preparing(w, name)) && After(s, Preparing(w, name)) == Prepared(s, w, name)
  {
    var steps := Preparing(w, name);
    var s1 := Apply(s, steps[0]);
    var s2 := Apply(s1, steps[1]);
    var s3 := Apply(s2, steps[2]);
    var s4 := Apply(s3, steps[3]);
    assert s4.pcs == s.pcs[w := Registered(name)];
    RunOf(s, steps, [s, s1, s2, s3, s4]);
  }

  lemma {:induction false} PublishingGoes(s: State, w: Worker, name: Name)
    requires w in s.pcs && s.pcs[w] == Registered(name) && s.disk.registry.Whole? && name !in s.mounted
    ensures IsRun(s, Publishing(w))
    ensures After(s, Publishing(w)) ==
            s.(disk := Disk(s.disk.dirs, Whole(s.disk.registry.names + [name]), None), lock := None,
               mounted := s.mounted + [name], pcs := s.pcs[w := Mounted(name)])
  {
    var steps := Publishing(w);
    var s1 := Apply(s, steps[0]);
    var s2 := Apply(s1, steps[1]);
    var s3 := Apply(s2, steps[2]);
    var s4 := Apply(s3, steps[3]);
    assert s4.pcs == s.pcs[w := Published(name)];
    var s5 := Apply(s4, steps[4]);
    var s6 := Apply(s5, steps[5]);
    assert s6.pcs == s.pcs[w := Mounted(name)];
    RunOf(s, steps, [s, s1, s2, s3, s4, s5, s6]);
  }

  /** A new name that nobody is creating gets its directory, its place at the end of the registry, and its mount. */
  lemma {:induction false} CreationGoesThrough(s: State, w: Worker, name: Name)
    requires Inv(s) && s.lock == None && w !in s.pcs && name !in s.disk.dirs
    ensures IsRun(s, Preparing(w, name)) && IsRun(After(s, Preparing(w, name)), Publishing(w))
    ensures var t := After(After(s, Preparing(w, name)), Publishing(w));
            && t.disk == Disk(s.disk.dirs + {name}, Whole(s.disk.registry.names + [name]), None)
            && t.mounted == s.mounted + [name] && t.lock == None && t.pcs == s.pcs[w := Mounted(name)]
  {
    PreparingGoes(s, w, name);
    PublishingGoes(Prepared(s, w, name), w, name);
    assert s.pcs[w := Registered(name)][w := Mounted(name)] == s.pcs[w := Mounted(name)];
  }

  /** A list of states, each made from the one before by the next step, is the run. */
  lemma {:induction false} RunOf(s: State, steps: seq<Step>, states: seq<State>)
    requires |states| == |steps| + 1 && states[0] == s
    requires forall i :: 0 <= i < |steps| ==>
             Enabled(states[i], steps[i]) && states[i + 1] == Apply(states[i], steps[i])
    ensures IsRun(s, steps) && After(s, steps) == states[|steps|]
    decreases |steps|
  {
    if steps != [] {
      assert Enabled(states[0], steps[0]) && states[1] == Apply(states[0], steps[0]);
      RunOf(states[1], steps[1..], states[1..]);
    }
  }
}
