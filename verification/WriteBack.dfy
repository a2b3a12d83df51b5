/** Write-back: how filesystem events and the reconciliation pass carry changes
    made directly on disk into a workspace's file map and watch table. */
module WriteBack {
  import opened Wrappers
  import opened Paths
  import opened Disk
  import opened ShadowStore

  /** A watch descriptor: the kernel hands out one per watched inode, and a new
      one after the old watch was removed. */
  datatype Wd = Wd(ino: nat, generation: nat)

  datatype WatchEntry = WatchEntry(ws: Uuid, relDir: string)

  datatype State = State(
    files: map<Uuid, map<string, Oid>>,
    disks: map<Uuid, Node>,
    watches: map<Wd, WatchEntry>,
    live: set<nat>,        // inodes the kernel watches now
    gens: map<nat, nat>)   // how often an inode's watch was removed

  datatype Kind = Create | MovedTo | CloseWrite | Delete | MovedFrom | DeleteSelf | MoveSelf | Ignored | Overflow

  datatype Event = Event(wd: Wd, kind: Kind, isDir: bool, name: string)

  function Gen(st: State, i: nat): nat {
    if i in st.gens then st.gens[i] else 0
  }

  /** The descriptor the kernel uses for inode `i` in this state. */
  function WdOf(st: State, i: nat): Wd {
    Wd(i, Gen(st, i))
  }

  predicate IsLive(st: State, wd: Wd) {
    wd.ino in st.live && wd == WdOf(st, wd.ino)
  }

  /** The projected tree; a removed workspace directory shows nothing inside. */
  function TreeOf(st: State, ws: Uuid): Node {
    if ws in st.disks then st.disks[ws] else Other
  }

  function DirPath(relDir: string): seq<string> {
    if relDir == "" then [] else Split(relDir)
  }

  // ----- File map updates -------------------------------------------------

  function WithFiles(st: State, ws: Uuid, files: map<string, Oid>): State {
    st.(files := st.files[ws := files])
  }

  /** `wb_apply_write` for every file a scan from `at` finds; a rejected path is skipped. */
  ghost predicate Absorbed(files: map<string, Oid>, files': map<string, Oid>, d: Node, at: seq<string>) {
    forall s :: Get(files', s) == if at < Split(s) && FileAt(d, s).Some? then FileAt(d, s) else Get(files, s)
  }

  /** The file half of `reconcile_workspace`: found files recorded, the rest forgotten. */
  ghost predicate Repaired(files: map<string, Oid>, files': map<string, Oid>, d: Node) {
    forall s :: Get(files', s) ==
      if !See(d, Split(s)).SawFile? then None else if Accepted(s) then FileAt(d, s) else Get(files, s)
  }

  /** `wb_apply_delete_prefix`. */
  function DeletePrefix(files: map<string, Oid>, relDir: string): map<string, Oid> {
    if relDir == "" then map[]
    else map s | s in files && !(relDir + "/" <= s) :: files[s]
  }

  // ----- Watch table updates ----------------------------------------------

  /** The kernel watches the directory at `p` and the engine knows it by that path. */
  predicate WatchedAt(st: State, ws: Uuid, p: seq<string>, i: nat) {
    i in st.live && WdOf(st, i) in st.watches && st.watches[WdOf(st, i)] == WatchEntry(ws, Join(p))
  }

  /** A directory that a scan from `at` adds a watch for, `skip` aside. */
  predicate Scanned(st: State, ws: Uuid, at: seq<string>, skip: set<string>, p: seq<string>) {
    at <= p && See(TreeOf(st, ws), p).SawDir? && Join(p) !in skip
  }

  /** `wd` belongs to a scanned directory. */
  ghost predicate Touched(st: State, ws: Uuid, at: seq<string>, skip: set<string>, wd: Wd) {
    exists p :: Scanned(st, ws, at, skip, p) && wd == WdOf(st, See(TreeOf(st, ws), p).ino)
  }

  /** `add_single_watch` for each scanned directory: those are watched under
      their path, and every other table entry is as before. */
  ghost predicate Armed(st: State, st': State, ws: Uuid, at: seq<string>, skip: set<string>) {
    && st'.gens == st.gens
    && (forall p | Scanned(st, ws, at, skip, p) :: WatchedAt(st', ws, p, See(TreeOf(st, ws), p).ino))
    && (forall wd | wd in st'.watches :: Touched(st, ws, at, skip, wd) || (wd in st.watches && st'.watches[wd] == st.watches[wd]))
    && (forall wd | wd in st.watches :: wd in st'.watches)
    && (forall i | i in st.live :: i in st'.live)
    && (forall i | i in st'.live :: i in st.live || Touched(st, ws, at, skip, WdOf(st, i)))
  }

  predicate Under(d: string, relDir: string) {
    relDir == "" || d == relDir || relDir + "/" <= d
  }

  function Stale(st: State, ws: Uuid, relDir: string): set<Wd> {
    set wd | wd in st.watches && st.watches[wd].ws == ws && Under(st.watches[wd].relDir, relDir)
  }

  /** The kernel side of `inotify_rm_watch` for a set of descriptors. */
  function Disarm(st: State, wds: set<Wd>): State {
    var stopped := set wd | wd in wds && IsLive(st, wd) :: wd.ino;
    st.(live := st.live - stopped,
        gens := map i | i in st.gens.Keys + stopped :: if i in stopped then Gen(st, i) + 1 else st.gens[i])
  }

  function RemoveWatchesUnder(st: State, ws: Uuid, relDir: string): State {
    var stale := Stale(st, ws, relDir);
    Disarm(st, stale).(watches := st.watches - stale)
  }

  /** The directories the watch table already has an entry for. */
  function Recorded(st: State, ws: Uuid): set<string> {
    set wd | wd in st.watches && st.watches[wd].ws == ws :: st.watches[wd].relDir
  }

  // ----- Event handling ---------------------------------------------------

  function SyncFile(st: State, ws: Uuid, path: string): State
    requires ws in st.files
  {
    if FileAt(TreeOf(st, ws), path).Some?
    then WithFiles(st, ws, st.files[ws][path := FileAt(TreeOf(st, ws), path).value])
    else st
  }

  function DeleteFile(st: State, ws: Uuid, path: string): State
    requires ws in st.files
  {
    WithFiles(st, ws, st.files[ws] - {path})
  }

  function DropSubtree(st: State, ws: Uuid, relDir: string): State
    requires ws in st.files
  {
    RemoveWatchesUnder(WithFiles(st, ws, DeletePrefix(st.files[ws], relDir)), ws, relDir)
  }

  ghost predicate SubtreeSynced(st: State, st': State, ws: Uuid, relDir: string)
    requires ws in st.files
  {
    && st'.disks == st.disks && st'.files.Keys == st.files.Keys
    && (forall k | k in st.files && k != ws :: st'.files[k] == st.files[k])
    && Absorbed(st.files[ws], st'.files[ws], TreeOf(st, ws), DirPath(relDir))
    && Armed(st, st', ws, DirPath(relDir), {})
  }

  /** `reconcile_workspace`: map and watches against one scan of the whole tree. */
  ghost predicate Reconciled(st: State, st': State, ws: Uuid) {
    if ws !in st.files then st' == st
    else
      && st'.disks == st.disks && st'.files.Keys == st.files.Keys
      && (forall k | k in st.files && k != ws :: st'.files[k] == st.files[k])
      && Repaired(st.files[ws], st'.files[ws], TreeOf(st, ws))
      && Armed(st, st', ws, [], Recorded(st, ws))
  }

  /** `reconcile_all`: every workspace of `todo` once, in some order. */
  ghost predicate ReconciledAll(st: State, st': State, todo: set<Uuid>)
    decreases todo
  {
    if todo == {} then st' == st
    else exists ws, mid :: ws in todo && Reconciled(st, mid, ws) && ReconciledAll(mid, st', todo - {ws})
  }

  /** `handle_event`. */
  ghost predicate Handled(st: State, e: Event, st': State) {
    if e.kind == Overflow then ReconciledAll(st, st', st.files.Keys)
    else if e.kind == Ignored then st' == st.(watches := st.watches - {e.wd})
    else if e.wd !in st.watches || st.watches[e.wd].ws !in st.files then st' == st
    else
      var ws, relDir := st.watches[e.wd].ws, st.watches[e.wd].relDir;
      var path := Child(relDir, e.name);
      if e.kind == DeleteSelf || e.kind == MoveSelf then st' == DropSubtree(st, ws, relDir)
      else if e.kind == Delete || e.kind == MovedFrom then
        st' == if e.isDir then DropSubtree(st, ws, path) else DeleteFile(st, ws, path)
      else if e.isDir && e.kind != CloseWrite then SubtreeSynced(st, st', ws, path)
      else st' == SyncFile(st, ws, path)
  }

  /** The states an event list leads through. */
  ghost predicate Run(sts: seq<State>, es: seq<Event>) {
    |sts| == |es| + 1 && forall i | 0 <= i < |es| :: Handled(sts[i], es[i], sts[i + 1])
  }

  // ----- What write-back keeps --------------------------------------------

  predicate Known(st: State, ws: Uuid) {
    ws in st.files && ws in st.disks && st.disks[ws].Dir?
  }

  /** Every directory of tree `d` is watched under its path in `d`. */
  ghost predicate Tracks(st: State, ws: Uuid, d: Node) {
    forall p | See(d, p).SawDir? :: WatchedAt(st, ws, p, See(d, p).ino)
  }

  /** Map equals disk view, and every directory on disk is watched. */
  ghost predicate Mirrored(st: State, ws: Uuid) {
    Known(st, ws) && IsView(st.files[ws], st.disks[ws]) && Tracks(st, ws, st.disks[ws])
  }

  /** A directory inode sits at one place only. */
  ghost predicate UniqueInos(disks: map<Uuid, Node>) {
    forall a, p, b, q | a in disks && b in disks && See(disks[a], p).SawDir? && See(disks[b], q) == See(disks[a], p) ::
      a == b && p == q
  }
}
