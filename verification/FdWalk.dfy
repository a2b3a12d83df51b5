/** The fd-anchored walks against a changing filesystem: every hop opens an entry
    of the directory opened by the hop before, never following a symlink. */
module FdWalk {
  import opened Wrappers
  import opened Disk

  type Ino = nat
  type Tid = nat

  datatype Obj = DirObj(entries: map<string, Ino>) | FileObj(data: Bytes) | LinkObj | SpecialObj

  /** All inodes, and which of them belong to the workspace. */
  datatype World = World(fs: map<Ino, Obj>, inside: set<Ino>)

  predicate SameKind(a: Obj, b: Obj) {
    (a.DirObj? <==> b.DirObj?) && (a.FileObj? <==> b.FileObj?) && (a.LinkObj? <==> b.LinkObj?)
  }

  function Entry(w: World, i: Ino, name: string): Option<Ino> {
    if i in w.fs && w.fs[i].DirObj? && name in w.fs[i].entries then Some(w.fs[i].entries[name]) else None
  }

  /** `j` may stand in a workspace directory: a workspace inode, or a symlink. */
  predicate Allowed(w: World, j: Ino) {
    j in w.fs && (j in w.inside || w.fs[j].LinkObj?)
  }

  /** Workspace directories list only workspace inodes and symlinks. */
  ghost predicate Closed(w: World) {
    && (forall i | i in w.inside :: i in w.fs)
    && (forall i, n | i in w.inside && Entry(w, i, n).Some? :: Allowed(w, Entry(w, i, n).value))
  }

  /** Anything else on the machine may happen between two syscalls, except that
      a pre-existing outside inode other than a symlink is never placed inside. */
  ghost predicate EnvStep(w: World, w': World) {
    && (forall i | i in w.fs :: i in w'.fs && SameKind(w.fs[i], w'.fs[i]))
    && w.inside <= w'.inside
    && (forall i | i in w'.inside && i !in w.inside :: i !in w.fs && i in w'.fs)
    && (forall i, n | i in w'.inside && Entry(w', i, n).Some? ::
          (i in w.inside && Entry(w, i, n) == Entry(w', i, n)) || Allowed(w', Entry(w', i, n).value))
  }

  lemma EnvKeepsClosed(w: World, w': World)
    requires Closed(w) && EnvStep(w, w')
    ensures Closed(w')
  {
    forall i, n | i in w'.inside && Entry(w', i, n).Some? ensures Allowed(w', Entry(w', i, n).value) {
      if i in w.inside && Entry(w, i, n) == Entry(w', i, n) { assert Allowed(w, Entry(w, i, n).value); }
    }
  }

  // ----- One walker ----------------------------------------------------------

  datatype Mode = Read | Write(data: Bytes)

  /** Where the walk stands: about to open the next component, to create it, to
      open it again, to open it as a plain file, to write through the leaf's fd. */
  datatype Phase = Opening | Making | Reopening | Trying | Flushing | Finished | Failed

  /** `trail` holds every inode opened so far, the anchor first; `rest` the components to go. */
  datatype Walker = Walker(mode: Mode, trail: seq<Ino>, rest: seq<string>, phase: Phase)

  predicate Hopping(k: Walker) {
    k.phase in {Opening, Making, Reopening, Trying} && k.trail != [] && k.rest != []
  }

  predicate CanStep(k: Walker) {
    Hopping(k) || (k.phase == Flushing && k.trail != [] && k.mode.Write?)
  }

  function Here(k: Walker): Ino
    requires k.trail != []
  { k.trail[|k.trail| - 1] }

  function Hop(k: Walker, j: Ino, phase: Phase): Walker
    requires k.rest != []
  { Walker(k.mode, k.trail + [j], k.rest[1..], phase) }

  function Fail(k: Walker): Walker { k.(phase := Failed) }

  /** The object `name` stands for in directory `i`, if any. */
  function ObjAt(w: World, i: Ino, name: string): Option<Obj> {
    var e := Entry(w, i, name);
    if e.Some? && e.value in w.fs then Some(w.fs[e.value]) else None
  }

  /** A new inode `f` linked at `name` in directory `i`. */
  function Link(w: World, i: Ino, name: string, f: Ino, o: Obj): World {
    if i in w.fs && w.fs[i].DirObj?
    then World(w.fs[f := o][i := DirObj(w.fs[i].entries[name := f])], w.inside + {f})
    else w
  }

  /** New content for inode `j` if it is a regular file; a device swallows the write. */
  function Fill(w: World, j: Ino, data: Bytes): World {
    if j in w.fs && w.fs[j].FileObj? then w.(fs := w.fs[j := FileObj(data)]) else w
  }

  /** What one syscall of the walk does to the world; `f` is an unused inode. */
  function WorldAfter(w: World, k: Walker, f: Ino): World
    requires CanStep(k)
  {
    if k.mode.Read? then w
    else if k.phase == Flushing then Fill(w, Here(k), k.mode.data)
    else
      var i, n := Here(k), k.rest[0];
      var e := Entry(w, i, n);
      if |k.rest| > 1 then
        if k.phase == Making && e.None? then Link(w, i, n, f, DirObj(map[])) else w
      else if e.None? then Link(w, i, n, f, FileObj([]))
      else Fill(w, e.value, [])
  }

  /** Where the walk stands after it. */
  function WalkerAfter(w: World, k: Walker, f: Ino): Walker
    requires CanStep(k)
  {
    if k.phase == Flushing then k.(phase := Finished)
    else
      var i, n := Here(k), k.rest[0];
      var e, o := Entry(w, i, n), ObjAt(w, i, n);
      var last := |k.rest| == 1;
      if k.mode.Read? then
        if o.None? || o.value.LinkObj? then Fail(k)
        else if k.phase == Trying then Hop(k, e.value, if last && o.value.FileObj? then Finished else Failed)
        else if o.value.DirObj? then Hop(k, e.value, if last then Finished else Opening)
        else k.(phase := Trying)
      else if !last then
        if k.phase == Making then k.(phase := Reopening)
        else if e.None? && k.phase == Opening then k.(phase := Making)
        else if o.Some? && o.value.DirObj? then Hop(k, e.value, Opening)
        else Fail(k)
      else if e.None? then (if i in w.fs && w.fs[i].DirObj? then Hop(k, f, Flushing) else Fail(k))
      else if o.None? || o.value.LinkObj? || o.value.DirObj? then Fail(k)
      else Hop(k, e.value, Flushing)
  }

  ghost predicate TrailInside(w: World, k: Walker) {
    forall i | i in k.trail :: i in w.inside
  }

  /** `w'` differs from `w` inside the workspace only. */
  ghost predicate OutsideSame(w: World, w': World) {
    && w.inside <= w'.inside
    && (forall i | i in w.fs :: i in w'.fs)
    && (forall i | i in w.fs && i !in w.inside :: w'.fs[i] == w.fs[i])
    && (forall i | i in w'.fs && i !in w.fs :: i in w'.inside)
  }

  lemma LinkKeeps(w: World, i: Ino, n: string, f: Ino, o: Obj)
    requires Closed(w) && i in w.inside && f !in w.fs
    requires o.FileObj? || o == DirObj(map[])
    ensures Closed(Link(w, i, n, f, o)) && OutsideSame(w, Link(w, i, n, f, o))
  {
    var w' := Link(w, i, n, f, o);
    forall a, b | a in w'.inside && Entry(w', a, b).Some? ensures Allowed(w', Entry(w', a, b).value) {
      if w' != w && a != f && !(a == i && b == n) { assert Entry(w, a, b) == Entry(w', a, b) && Allowed(w, Entry(w, a, b).value); }
    }
  }

  lemma FillKeeps(w: World, j: Ino, data: Bytes)
    requires Closed(w) && (j in w.fs && w.fs[j].FileObj? ==> j in w.inside)
    ensures Closed(Fill(w, j, data)) && OutsideSame(w, Fill(w, j, data))
  {
    var w' := Fill(w, j, data);
    forall a, b | a in w'.inside && Entry(w', a, b).Some? ensures Allowed(w', Entry(w', a, b).value) {
      assert Entry(w, a, b) == Entry(w', a, b) && Allowed(w, Entry(w, a, b).value);
    }
  }

  /** `k'` is `k`, or `k` one hop further, onto what is now a non-symlink entry of
      the directory `k` had open. */
  ghost predicate OneHop(w': World, k: Walker, k': Walker) {
    || (k'.trail == k.trail && k'.rest == k.rest)
    || (k.trail != [] && k.rest != [] && k'.rest == k.rest[1..]
        && |k'.trail| == |k.trail| + 1 && k.trail <= k'.trail
        && Entry(w', Here(k), k.rest[0]) == Some(Here(k'))
        && Here(k') in w'.fs && !w'.fs[Here(k')].LinkObj?)
  }

  /** What the syscall may do: nothing, link a new inode into the open directory,
      or refill a file that is in the workspace. */
  lemma WorldStep(w: World, k: Walker, f: Ino)
    requires Closed(w) && CanStep(k) && TrailInside(w, k) && f !in w.fs
    ensures Closed(WorldAfter(w, k, f)) && OutsideSame(w, WorldAfter(w, k, f))
  {
    var i := Here(k);
    assert i in k.trail;
    if k.mode.Read? {
    } else if k.phase == Flushing {
      FillKeeps(w, i, k.mode.data);
    } else if Entry(w, i, k.rest[0]).None? {
      if |k.rest| > 1 {
        LinkKeeps(w, i, k.rest[0], f, DirObj(map[]));
      } else {
        LinkKeeps(w, i, k.rest[0], f, FileObj([]));
      }
    } else {
      assert Allowed(w, Entry(w, i, k.rest[0]).value);
      FillKeeps(w, Entry(w, i, k.rest[0]).value, []);
    }
  }

  lemma HopStep(w: World, k: Walker, f: Ino)
    requires CanStep(k) && f !in w.fs
    ensures OneHop(WorldAfter(w, k, f), k, WalkerAfter(w, k, f))
  {
    if k.mode.Write? && k.phase != Flushing && |k.rest| == 1 {
      var i, n := Here(k), k.rest[0];
      var e := Entry(w, i, n);
      if e.Some? {
        assert Entry(Fill(w, e.value, []), i, n) == e;
      } else if i in w.fs && w.fs[i].DirObj? {
        assert Entry(Link(w, i, n, f, FileObj([])), i, n) == Some(f);
      }
    }
  }

  lemma HopLandsInside(w': World, k: Walker, k': Walker)
    requires Closed(w') && TrailInside(w', k) && OneHop(w', k, k')
    ensures TrailInside(w', k')
  {
    if k'.trail != k.trail {
      assert Here(k) in k.trail;
      assert Allowed(w', Entry(w', Here(k), k.rest[0]).value);
      assert k'.trail == k.trail + [Here(k')];
    }
  }

  /** One syscall of a walk: at that instant it opens a non-symlink entry of the
      directory opened before it, inside the workspace, and changes nothing outside. */
  lemma WalkStepStaysInside(w: World, k: Walker, f: Ino)
    requires Closed(w) && CanStep(k) && TrailInside(w, k) && f !in w.fs
    ensures Closed(WorldAfter(w, k, f)) && OutsideSame(w, WorldAfter(w, k, f))
    ensures TrailInside(WorldAfter(w, k, f), WalkerAfter(w, k, f))
    ensures OneHop(WorldAfter(w, k, f), k, WalkerAfter(w, k, f))
  {
    WorldStep(w, k, f);
    HopStep(w, k, f);
    HopLandsInside(WorldAfter(w, k, f), k, WalkerAfter(w, k, f));
  }

  // ----- Any number of walks, and everything else, interleaved ---------------

  datatype System = System(root: Ino, w: World, walkers: map<Tid, Walker>)

  datatype Step = Env(after: World) | Begin(t: Tid, mode: Mode, path: seq<string>) | Walk(t: Tid, unused: Ino) | Error(t: Tid)

  ghost predicate Enabled(s: System, a: Step) {
    match a
    case Env(w') => EnvStep(s.w, w')
    case Begin(t, _, path) => t !in s.walkers && path != []
    case Walk(t, f) => t in s.walkers && CanStep(s.walkers[t]) && f !in s.w.fs
    case Error(t) => t in s.walkers
  }

  ghost function Next(s: System, a: Step): System
    requires Enabled(s, a)
  {
    match a
    case Env(w') => s.(w := w')
    case Begin(t, mode, path) => s.(walkers := s.walkers[t := Walker(mode, [s.root], path, Opening)])
    case Walk(t, f) =>
      s.(w := WorldAfter(s.w, s.walkers[t], f), walkers := s.walkers[t := WalkerAfter(s.w, s.walkers[t], f)])
    case Error(t) => s.(walkers := s.walkers[t := Fail(s.walkers[t])])
  }

  ghost predicate Inv(s: System) {
    && Closed(s.w)
    && s.root in s.w.inside
    && (forall t | t in s.walkers :: TrailInside(s.w, s.walkers[t]))
  }

  lemma NextKeepsInv(s: System, a: Step)
    requires Inv(s) && Enabled(s, a)
    ensures Inv(Next(s, a))
  {
    match a
    case Env(w') => EnvKeepsClosed(s.w, w');
    case Begin(_, _, _) =>
    case Walk(t, f) => WalkStepStaysInside(s.w, s.walkers[t], f);
    case Error(_) =>
  }

  ghost predicate Run(states: seq<System>, steps: seq<Step>) {
    && |states| == |steps| + 1
    && (forall i | 0 <= i < |steps| :: Enabled(states[i], steps[i]) && states[i + 1] == Next(states[i], steps[i]))
  }

  lemma {:induction false} InvAlongRun(states: seq<System>, steps: seq<Step>, i: nat)
    requires Run(states, steps) && i < |states|
    requires states[0].walkers == map[] && Closed(states[0].w) && states[0].root in states[0].w.inside
    ensures Inv(states[i])
  {
    if i > 0 {
      InvAlongRun(states, steps, i - 1);
      NextKeepsInv(states[i - 1], steps[i - 1]);
    }
  }

  /** Over every run: whatever the environment does between any two syscalls, no
      walk ever holds an inode outside the workspace, each hop goes to a
      non-symlink entry of the hop before it, and the only steps that touch
      anything outside are the environment's own. */
  lemma EveryRunStaysInside(states: seq<System>, steps: seq<Step>, i: nat)
    requires Run(states, steps) && i < |steps|
    requires states[0].walkers == map[] && Closed(states[0].w) && states[0].root in states[0].w.inside
    ensures forall t, j | t in states[i].walkers && j in states[i].walkers[t].trail :: j in states[i].w.inside
    ensures !steps[i].Env? ==> OutsideSame(states[i].w, states[i + 1].w)
    ensures forall t | t in states[i].walkers ::
              t in states[i + 1].walkers && OneHop(states[i + 1].w, states[i].walkers[t], states[i + 1].walkers[t])
  {
    InvAlongRun(states, steps, i);
    if steps[i].Walk? {
      WalkStepStaysInside(states[i].w, states[i].walkers[steps[i].t], steps[i].unused);
    }
  }
}
