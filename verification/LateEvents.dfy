/** Events that reach the engine after it gave up the watch they belong to. Every
    watch that handling an event removes makes the kernel raise IGNORED for it, and
    other events of that watch may still be queued: all of them find nothing. */
module LateEvents {
  import opened Paths
  import opened ShadowStore
  import opened WriteBack

  /** The engine has no entry for `wd`, and the kernel never hands it out again. */
  predicate Gone(st: State, wd: Wd) {
    wd !in st.watches && wd.generation < Gen(st, wd.ino)
  }

  predicate Late(st: State, e: Event) {
    e.kind != Overflow && Gone(st, e.wd)
  }

  lemma LateIsIdle(st: State, e: Event, st': State)
    requires Late(st, e) && Handled(st, e, st')
    ensures st' == st
  {
    assert st.watches - {e.wd} == st.watches;
  }

  // ----- A watch the engine removes is gone for good -----------------------------

  lemma DisarmRaisesGens(st: State, wds: set<Wd>, i: nat)
    ensures Gen(st, i) <= Gen(Disarm(st, wds), i)
    ensures forall wd | wd in wds && IsLive(st, wd) :: wd.generation < Gen(Disarm(st, wds), wd.ino)
  {
  }

  lemma DropKeepsGone(st: State, ws: Uuid, relDir: string, wd: Wd)
    requires ws in st.files && (Gone(st, wd) || (wd in Stale(st, ws, relDir) && IsLive(st, wd)))
    ensures Gone(DropSubtree(st, ws, relDir), wd)
  {
    DisarmRaisesGens(WithFiles(st, ws, DeletePrefix(st.files[ws], relDir)), Stale(st, ws, relDir), wd.ino);
  }

  lemma ArmedKeepsGone(st: State, st': State, ws: Uuid, at: seq<string>, skip: set<string>, wd: Wd)
    requires Armed(st, st', ws, at, skip) && Gone(st, wd)
    ensures Gone(st', wd)
  {
  }

  lemma {:induction false} ReconciledAllKeepsGone(st: State, st': State, todo: set<Uuid>, wd: Wd)
    requires ReconciledAll(st, st', todo) && Gone(st, wd)
    ensures Gone(st', wd)
    decreases todo
  {
    if todo != {} {
      var k, mid :| k in todo && Reconciled(st, mid, k) && ReconciledAll(mid, st', todo - {k});
      if k in st.files { ArmedKeepsGone(st, mid, k, [], Recorded(st, k), wd); }
      ReconciledAllKeepsGone(mid, st', todo - {k}, wd);
    }
  }

  /** Whatever is handled later, a descriptor that is gone stays gone. */
  lemma GoneForever(st: State, e: Event, st': State, wd: Wd)
    requires Handled(st, e, st') && Gone(st, wd)
    ensures Gone(st', wd)
  {
    if e.kind == Overflow {
      ReconciledAllKeepsGone(st, st', st.files.Keys, wd);
    } else if e.kind != Ignored && e.wd in st.watches && st.watches[e.wd].ws in st.files {
      var ws, relDir := st.watches[e.wd].ws, st.watches[e.wd].relDir;
      var path := Child(relDir, e.name);
      if e.kind == DeleteSelf || e.kind == MoveSelf {
        DropKeepsGone(st, ws, relDir, wd);
      } else if e.kind == Delete || e.kind == MovedFrom {
        if e.isDir { DropKeepsGone(st, ws, path, wd); }
      } else if e.isDir && e.kind != CloseWrite {
        ArmedKeepsGone(st, st', ws, DirPath(path), {}, wd);
      }
    }
  }

  /** A watch that handling an event takes from the kernel is gone: the IGNORED it
      raises, and whatever else was queued for it, is late from then on. */
  lemma RemovedIsGone(st: State, e: Event, st': State, wd: Wd)
    requires Handled(st, e, st') && e.kind != Overflow
    requires wd in st.watches && IsLive(st, wd) && !IsLive(st', wd)
    ensures Gone(st', wd)
  {
    if e.kind != Ignored && e.wd in st.watches && st.watches[e.wd].ws in st.files {
      var ws, relDir := st.watches[e.wd].ws, st.watches[e.wd].relDir;
      var path := Child(relDir, e.name);
      if e.kind == DeleteSelf || e.kind == MoveSelf {
        if wd in Stale(st, ws, relDir) { DropKeepsGone(st, ws, relDir, wd); } else { DropSparesOthers(st, ws, relDir, wd); }
      } else if (e.kind == Delete || e.kind == MovedFrom) && e.isDir {
        if wd in Stale(st, ws, path) { DropKeepsGone(st, ws, path, wd); } else { DropSparesOthers(st, ws, path, wd); }
      }
    }
  }

  lemma DropSparesOthers(st: State, ws: Uuid, relDir: string, wd: Wd)
    requires ws in st.files && wd !in Stale(st, ws, relDir) && IsLive(st, wd)
    ensures IsLive(DropSubtree(st, ws, relDir), wd)
  {
    var mid := WithFiles(st, ws, DeletePrefix(st.files[ws], relDir));
    forall w | w in Stale(st, ws, relDir) && IsLive(mid, w) ensures w.ino != wd.ino { }
  }

  // ----- What the engine sees of an operation --------------------------------------

  /** `all` is what is handled while the events `es` of an operation begun in `st0`
      come in: those whose watch was alive then, in order, and any late ones in between. */
  ghost predicate Played(st0: State, sts: seq<State>, all: seq<Event>, es: seq<Event>)
    requires |sts| == |all| + 1
    decreases |all| + |es|
  {
    if es != [] && !IsLive(st0, es[0].wd) then Played(st0, sts, all, es[1..])
    else if all == [] then es == []
    else
      || (es != [] && all[0] == es[0] && Played(st0, sts[1..], all[1..], es[1..]))
      || (Late(sts[0], all[0]) && Played(st0, sts[1..], all[1..], es))
  }

  /** Handling `e` if its watch was alive in `st0`. */
  ghost predicate HeardStep(st0: State, st: State, e: Event, st': State) {
    if IsLive(st0, e.wd) then Handled(st, e, st') else st' == st
  }

  ghost predicate HeardRun(st0: State, hs: seq<State>, es: seq<Event>) {
    |hs| == |es| + 1 && forall i | 0 <= i < |es| :: HeardStep(st0, hs[i], es[i], hs[i + 1])
  }

  lemma HeardCons(st0: State, st: State, e: Event, hs: seq<State>, es: seq<Event>)
    requires HeardRun(st0, hs, es) && HeardStep(st0, st, e, hs[0])
    ensures HeardRun(st0, [st] + hs, [e] + es)
  {
    forall i | 0 <= i < |es| + 1 ensures HeardStep(st0, ([st] + hs)[i], ([e] + es)[i], ([st] + hs)[i + 1]) {
      if i > 0 { assert HeardStep(st0, hs[i - 1], es[i - 1], hs[i]); }
    }
  }

  lemma HeardDrop(st0: State, hs: seq<State>, es: seq<Event>, k: nat)
    requires HeardRun(st0, hs, es) && k <= |es|
    ensures HeardRun(st0, hs[k..], es[k..]) && hs[k..][|es[k..]|] == hs[|es|]
  {
    forall i | 0 <= i < |es| - k ensures HeardStep(st0, hs[k..][i], es[k..][i], hs[k..][i + 1]) {
      assert HeardStep(st0, hs[i + k], es[i + k], hs[i + k + 1]);
    }
  }

  /** Late events change nothing, so the run ends as if they had never come. */
  lemma {:induction false} Unplay(st0: State, sts: seq<State>, all: seq<Event>, es: seq<Event>) returns (hs: seq<State>)
    requires Run(sts, all) && Played(st0, sts, all, es)
    ensures HeardRun(st0, hs, es) && hs[0] == sts[0] && hs[|es|] == sts[|all|]
    decreases |all| + |es|
  {
    if all == [] && es == [] { assert HeardRun(st0, sts, es); }
    hide Handled, Late, HeardRun;
    if es != [] && !IsLive(st0, es[0].wd) {
      hs := Unplay(st0, sts, all, es[1..]);
      HeardCons(st0, sts[0], es[0], hs, es[1..]);
      hs := [sts[0]] + hs;
      assert es == [es[0]] + es[1..];
    } else if all == [] {
      hs := sts;
    } else {
      RunTail(sts, all);
      if es != [] && all[0] == es[0] && Played(st0, sts[1..], all[1..], es[1..]) {
        hs := Unplay(st0, sts[1..], all[1..], es[1..]);
        HeardCons(st0, sts[0], es[0], hs, es[1..]);
        hs := [sts[0]] + hs;
        assert es == [es[0]] + es[1..];
      } else {
        LateIsIdle(sts[0], all[0], sts[1]);
        hs := Unplay(st0, sts[1..], all[1..], es);
      }
    }
  }

  lemma RunTail(sts: seq<State>, all: seq<Event>)
    requires Run(sts, all) && all != []
    ensures Run(sts[1..], all[1..]) && Handled(sts[0], all[0], sts[1])
  {
    forall i | 0 <= i < |all| - 1 ensures Handled(sts[1..][i], all[1..][i], sts[1..][i + 1]) {
      assert Handled(sts[i + 1], all[i + 1], sts[i + 2]);
    }
  }

  /** When every watch was alive, nothing is missed. */
  lemma AllHeard(st0: State, hs: seq<State>, es: seq<Event>)
    requires HeardRun(st0, hs, es) && forall e | e in es :: IsLive(st0, e.wd)
    ensures Run(hs, es)
  {
    forall i | 0 <= i < |es| ensures Handled(hs[i], es[i], hs[i + 1]) {
      assert HeardStep(st0, hs[i], es[i], hs[i + 1]) && es[i] in es;
    }
  }
}
