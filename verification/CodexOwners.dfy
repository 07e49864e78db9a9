/** Which Codex process a terminal belongs to, and its session's title
    (crates/machine/src/codex_title.rs). */
module CodexOwners {
  import opened Basics

  type Pid = nat

  /** A path, component by component. */
  type Path = seq<string>

  datatype Process = Process(pid: Pid, parent: Option<Pid>, name: string)
  datatype Pane = Pane(pid: Option<Pid>, command: Option<string>)
  datatype Rollout = Rollout(path: Path, home: Path, thread: string)

  predicate IsCodexPane(pane: Pane)
  {
    pane.pid.Some? && pane.command.Some? && (pane.command.value == "codex" || pane.command.value == "node")
  }

  predicate IsCodex(table: seq<Process>, pid: Pid)
  {
    exists p | p in table :: p.pid == pid && p.name == "codex"
  }

  predicate Child(table: seq<Process>, parent: Pid, pid: Pid)
  {
    exists p | p in table :: p.pid == pid && p.parent == Some(parent)
  }

  function Children(table: seq<Process>, parent: Pid): seq<Pid>
  {
    if table == [] then []
    else (if table[0].parent == Some(parent) then [table[0].pid] else []) + Children(table[1..], parent)
  }

  lemma {:induction false} ChildrenAre(table: seq<Process>, parent: Pid, pid: Pid)
    ensures pid in Children(table, parent) <==> Child(table, parent, pid)
  {
    if table != [] {
      ChildrenAre(table[1..], parent, pid);
      assert forall p :: p in table <==> p == table[0] || p in table[1..];
    }
  }

  /** A way down the process tree from the pane's root that passes through no
      codex on the way. */
  predicate Way(table: seq<Process>, root: Pid, pid: Pid, way: seq<Pid>)
    decreases |way|
  {
    && way != [] && way[|way| - 1] == pid
    && if |way| == 1 then pid == root
       else
         var above := way[|way| - 2];
         !IsCodex(table, above) && Child(table, above, pid) && Way(table, root, above, way[..|way| - 1])
  }

  ghost predicate Reached(table: seq<Process>, root: Pid, pid: Pid)
  {
    exists way :: Way(table, root, pid, way)
  }

  /** The codex processes the terminal owns. */
  ghost predicate Owned(table: seq<Process>, root: Pid, pid: Pid)
  {
    IsCodex(table, pid) && Reached(table, root, pid)
  }

  lemma ReachedRoot(table: seq<Process>, root: Pid)
    ensures Reached(table, root, root)
  {
    assert Way(table, root, root, [root]);
  }

  lemma ReachedChild(table: seq<Process>, root: Pid, above: Pid, pid: Pid)
    requires Reached(table, root, above) && !IsCodex(table, above) && Child(table, above, pid)
    ensures Reached(table, root, pid)
  {
    var way :| Way(table, root, above, way);
    assert (way + [pid])[..|way|] == way;
    assert Way(table, root, pid, way + [pid]);
  }

  /** What the search computes, level by level: the root, and the children of
      reached processes that are no codex. */
  lemma ReachedExactly(table: seq<Process>, root: Pid, pid: Pid)
    ensures Reached(table, root, pid) <==>
            pid == root || exists above :: Reached(table, root, above) && !IsCodex(table, above) && Child(table, above, pid)
  {
    if Reached(table, root, pid) && pid != root {
      var way :| Way(table, root, pid, way);
      assert Way(table, root, way[|way| - 2], way[..|way| - 1]);
    }
    if pid == root {
      ReachedRoot(table, root);
    } else if above :| Reached(table, root, above) && !IsCodex(table, above) && Child(table, above, pid) {
      ReachedChild(table, root, above, pid);
    }
  }

  // ----- the worklist -----

  function Pids(table: seq<Process>): set<Pid>
  {
    set p | p in table :: p.pid
  }

  predicate NoDuplicates(s: seq<Pid>)
  {
    forall i, j | 0 <= i < j < |s| :: s[i] != s[j]
  }

  /** Everything one step below a visited process is visited or pending. */
  ghost predicate Closed(table: seq<Process>, visited: set<Pid>, pending: seq<Pid>)
  {
    forall above, pid | above in visited && !IsCodex(table, above) && Child(table, above, pid) ::
      pid in visited || pid in pending
  }

  lemma {:induction false} ClosedIsReached(table: seq<Process>, root: Pid, pid: Pid, way: seq<Pid>, visited: set<Pid>)
    requires Way(table, root, pid, way) && root in visited && Closed(table, visited, [])
    ensures pid in visited
    decreases |way|
  {
    if |way| > 1 {
      ClosedIsReached(table, root, way[|way| - 2], way[..|way| - 1], visited);
    }
  }

  ghost predicate Sound(table: seq<Process>, root: Pid, visited: set<Pid>, pending: seq<Pid>)
  {
    && (forall pid | pid in visited :: Reached(table, root, pid) && pid in Pids(table) + {root})
    && (forall pid | pid in pending :: Reached(table, root, pid) && pid in Pids(table) + {root})
    && (root in visited || root in pending)
  }

  /** What the worklist becomes when pid is visited for the first time. */
  function Below(table: seq<Process>, pid: Pid): seq<Pid>
  {
    if IsCodex(table, pid) then [] else Children(table, pid)
  }

  lemma VisitSound(table: seq<Process>, root: Pid, visited: set<Pid>, pending: seq<Pid>, pid: Pid)
    requires Sound(table, root, visited, pending + [pid])
    ensures Sound(table, root, visited + {pid}, pending + Below(table, pid))
  {
    assert pid in pending + [pid];
    forall c | c in Below(table, pid)
      ensures Reached(table, root, c) && c in Pids(table)
    {
      ChildrenAre(table, pid, c);
      ReachedChild(table, root, pid, c);
    }
    forall q | q in pending ensures Reached(table, root, q) && q in Pids(table) + {root} {
      assert q in pending + [pid];
    }
  }

  lemma VisitClosed(table: seq<Process>, visited: set<Pid>, pending: seq<Pid>, pid: Pid)
    requires Closed(table, visited, pending + [pid])
    ensures Closed(table, visited + {pid}, pending + Below(table, pid))
  {
    forall above, c | above in visited + {pid} && !IsCodex(table, above) && Child(table, above, c)
      ensures c in visited + {pid} || c in pending + Below(table, pid)
    {
      if above == pid {
        ChildrenAre(table, pid, c);
      } else {
        assert c in visited || c in pending + [pid];
      }
    }
  }

  lemma Skip(table: seq<Process>, root: Pid, visited: set<Pid>, pending: seq<Pid>, pid: Pid)
    requires Sound(table, root, visited, pending + [pid]) && Closed(table, visited, pending + [pid])
    requires pid in visited
    ensures Sound(table, root, visited, pending) && Closed(table, visited, pending)
  {
    assert forall q :: q in pending + [pid] <==> q in pending || q == pid;
  }

  lemma LessLeft(universe: set<Pid>, visited: set<Pid>, pid: Pid)
    requires pid in universe && pid !in visited
    ensures |universe - (visited + {pid})| < |universe - visited|
  {
    assert universe - (visited + {pid}) == (universe - visited) - {pid};
  }

  /** The codex processes among the visited, each once. */
  ghost predicate Collected(table: seq<Process>, visited: set<Pid>, candidates: seq<Pid>)
  {
    && (forall pid :: pid in candidates <==> pid in visited && IsCodex(table, pid))
    && NoDuplicates(candidates)
  }

  lemma Collect(table: seq<Process>, visited: set<Pid>, candidates: seq<Pid>, pid: Pid)
    requires Collected(table, visited, candidates) && pid !in visited
    ensures Collected(table, visited + {pid}, if IsCodex(table, pid) then candidates + [pid] else candidates)
  {
    forall i | 0 <= i < |candidates| ensures candidates[i] != pid {
      assert candidates[i] in candidates;
    }
  }

  lemma AllCollected(table: seq<Process>, root: Pid, visited: set<Pid>, candidates: seq<Pid>)
    requires Sound(table, root, visited, []) && Closed(table, visited, [])
    requires Collected(table, visited, candidates)
    ensures forall pid :: pid in candidates <==> Owned(table, root, pid)
  {
    forall pid | Owned(table, root, pid) ensures pid in visited {
      var way :| Way(table, root, pid, way);
      ClosedIsReached(table, root, pid, way, visited);
    }
  }

  ghost predicate Searching(table: seq<Process>, root: Pid, visited: set<Pid>, pending: seq<Pid>, candidates: seq<Pid>)
  {
    Sound(table, root, visited, pending) && Closed(table, visited, pending) && Collected(table, visited, candidates)
  }

  lemma Visit(table: seq<Process>, root: Pid, visited: set<Pid>, pending: seq<Pid>, pid: Pid, candidates: seq<Pid>)
    requires Searching(table, root, visited, pending + [pid], candidates)
    ensures pid in visited ==> Searching(table, root, visited, pending, candidates)
    ensures pid !in visited ==>
              && |Pids(table) + {root} - (visited + {pid})| < |Pids(table) + {root} - visited|
              && Searching(table, root, visited + {pid}, pending + Below(table, pid),
                           if IsCodex(table, pid) then candidates + [pid] else candidates)
  {
    if pid in visited {
      Skip(table, root, visited, pending, pid);
    } else {
      assert pid in pending + [pid];
      LessLeft(Pids(table) + {root}, visited, pid);
      VisitSound(table, root, visited, pending, pid);
      VisitClosed(table, visited, pending, pid);
      Collect(table, visited, candidates, pid);
    }
  }

  lemma SearchStarts(table: seq<Process>, root: Pid)
    ensures Searching(table, root, {}, [root], [])
  {
    ReachedRoot(table, root);
  }

  lemma Popped(pending: seq<Pid>)
    requires pending != []
    ensures pending == pending[..|pending| - 1] + [pending[|pending| - 1]]
  {
  }

  lemma NothingBelow(table: seq<Process>, pid: Pid, pending: seq<Pid>)
    requires IsCodex(table, pid)
    ensures pending + Below(table, pid) == pending
  {
  }

  /** Main result: on any table, cyclic ones too, the search ends with the owned
      processes, each once. */
  method OwnedCodexes(table: seq<Process>, root: Pid) returns (candidates: seq<Pid>)
    ensures forall pid :: pid in candidates <==> Owned(table, root, pid)
    ensures NoDuplicates(candidates)
  {
    var pending := [root];
    var visited: set<Pid> := {};
    candidates := [];
    SearchStarts(table, root);
    while pending != []
      invariant Searching(table, root, visited, pending, candidates)
      decreases |Pids(table) + {root} - visited|, |pending|
    {
      var pid := pending[|pending| - 1];
      Popped(pending);
      pending := pending[..|pending| - 1];
      Visit(table, root, visited, pending, pid, candidates);
      if pid !in visited {
        visited := visited + {pid};
        if IsCodex(table, pid) {
          candidates := candidates + [pid];
          NothingBelow(table, pid, pending);
        } else {
          pending := pending + Children(table, pid);
        }
      }
    }
    AllCollected(table, root, visited, candidates);
  }

  // ----- from process to title -----

  const PREFIX := "rollout-"
  const SUFFIX := ".jsonl"

  /** The Codex home and thread a rollout file belongs to. */
  function RolloutIdentity(path: Path): Option<(Path, string)>
  {
    var n := |path|;
    if n < 5 then None
    else
      var file := path[n - 1];
      if |file| < |PREFIX| + |SUFFIX| || file[..|PREFIX|] != PREFIX || file[|file| - |SUFFIX|..] != SUFFIX then None
      else
        var stem := file[|PREFIX|..|file| - |SUFFIX|];
        if |stem| < 36 || !IsHyphenatedUuid(stem[|stem| - 36..]) || path[n - 5] != "sessions" then None
        else Some((path[..n - 5], stem[|stem| - 36..]))
  }

  function Rollouts(files: seq<Path>): set<Rollout>
  {
    set f | f in files && RolloutIdentity(f).Some? ::
      Rollout(f, RolloutIdentity(f).value.0, RolloutIdentity(f).value.1)
  }

  /** A path of home/sessions/<three parts>/rollout-<stamp><id>.jsonl. */
  predicate RolloutPath(path: Path, home: Path, dates: Path, stamp: string, id: string)
  {
    |dates| == 3 && IsHyphenatedUuid(id) && path == home + ["sessions"] + dates + [PREFIX + stamp + id + SUFFIX]
  }

  lemma RolloutNamed(path: Path, home: Path, dates: Path, stamp: string, id: string)
    requires RolloutPath(path, home, dates, stamp, id)
    ensures RolloutIdentity(path) == Some((home, id))
  {
    var file := PREFIX + stamp + id + SUFFIX;
    assert path[|path| - 1] == file && path[|path| - 5] == "sessions";
    assert file[|PREFIX|..|file| - |SUFFIX|] == stamp + id;
    assert (stamp + id)[|stamp|..] == id;
    assert path[..|path| - 5] == home;
  }

  lemma FileParts(file: string, stem: string)
    requires |file| >= |PREFIX| + |SUFFIX| && file[..|PREFIX|] == PREFIX && file[|file| - |SUFFIX|..] == SUFFIX
    requires stem == file[|PREFIX|..|file| - |SUFFIX|] && |stem| >= 36
    ensures file == PREFIX + stem[..|stem| - 36] + stem[|stem| - 36..] + SUFFIX
  {
    assert file == PREFIX + stem + SUFFIX;
    assert stem == stem[..|stem| - 36] + stem[|stem| - 36..];
    Assoc(PREFIX, stem[..|stem| - 36], stem[|stem| - 36..]);
  }

  lemma PathParts(path: Path)
    requires |path| >= 5
    ensures var n := |path|; path == path[..n - 5] + [path[n - 5]] + path[n - 4..n - 1] + [path[n - 1]]
  {
  }

  lemma RolloutHasForm(path: Path, home: Path, id: string)
    requires RolloutIdentity(path) == Some((home, id))
    ensures exists dates, stamp :: RolloutPath(path, home, dates, stamp, id)
  {
    var n := |path|;
    var file := path[n - 1];
    var stem := file[|PREFIX|..|file| - |SUFFIX|];
    FileParts(file, stem);
    PathParts(path);
    assert |path[n - 4..n - 1]| == 3;
    assert id == stem[|stem| - 36..] && home == path[..n - 5];
    assert path == home + ["sessions"] + path[n - 4..n - 1] + [PREFIX + stem[..|stem| - 36] + id + SUFFIX];
    assert RolloutPath(path, home, path[n - 4..n - 1], stem[..|stem| - 36], id);
  }

  /** A file names a session exactly if its path has the form of a rollout, and
      then its home and its id. */
  lemma RolloutIdentityExactly(path: Path, home: Path, id: string)
    ensures RolloutIdentity(path) == Some((home, id)) <==>
            exists dates, stamp :: RolloutPath(path, home, dates, stamp, id)
  {
    if RolloutIdentity(path) == Some((home, id)) {
      RolloutHasForm(path, home, id);
    }
    if dates, stamp :| RolloutPath(path, home, dates, stamp, id) {
      RolloutNamed(path, home, dates, stamp, id);
    }
  }

  /** The title of a pane: only if one codex and one rollout leave no doubt. */
  ghost predicate Titled(table: seq<Process>, openFiles: Pid -> seq<Path>, read: Rollout -> Option<string>,
                         pane: Pane, title: string)
  {
    && IsCodexPane(pane)
    && exists pid, rollout ::
         && Owned(table, pane.pid.value, pid)
         && (forall other | Owned(table, pane.pid.value, other) :: other == pid)
         && Rollouts(openFiles(pid)) == {rollout}
         && read(rollout) == Some(title)
  }

  method TitleOf(table: seq<Process>, openFiles: Pid -> seq<Path>, read: Rollout -> Option<string>, pane: Pane)
    returns (title: Option<string>)
    ensures title.Some? ==> Titled(table, openFiles, read, pane, title.value)
    ensures forall t | Titled(table, openFiles, read, pane, t) :: title == Some(t)
  {
    if !IsCodexPane(pane) { return None; }
    var candidates := OwnedCodexes(table, pane.pid.value);
    if |candidates| != 1 {
      assert |candidates| > 1 ==> candidates[0] in candidates && candidates[1] in candidates;
      return None;
    }
    var pid := candidates[0];
    assert pid in candidates;
    assert forall other | other in candidates :: other == pid;
    var rollouts := Rollouts(openFiles(pid));
    if |rollouts| != 1 { return None; }
    var rollout :| rollout in rollouts;
    Singleton(rollouts, rollout);
    title := read(rollout);
  }

  lemma Singleton<T>(s: set<T>, x: T)
    requires |s| == 1 && x in s
    ensures s == {x}
  {
    assert |s - {x}| == 0;
  }

  /** A fresh table of titles, so sessions that are gone or in doubt drop out. */
  method ResolveWith(panes: map<string, Pane>, table: seq<Process>, openFiles: Pid -> seq<Path>,
                     read: Rollout -> Option<string>) returns (titles: map<string, string>)
    ensures forall id | id in titles :: id in panes && Titled(table, openFiles, read, panes[id], titles[id])
    ensures forall id, t | id in panes && Titled(table, openFiles, read, panes[id], t) ::
              id in titles && titles[id] == t
  {
    titles := map[];
    var todo := panes.Keys;
    while todo != {}
      invariant todo <= panes.Keys
      invariant titles.Keys <= panes.Keys - todo
      invariant forall id | id in titles :: Titled(table, openFiles, read, panes[id], titles[id])
      invariant forall id, t | id in panes && id !in todo && Titled(table, openFiles, read, panes[id], t) ::
                  id in titles && titles[id] == t
    {
      var id :| id in todo;
      var title := TitleOf(table, openFiles, read, panes[id]);
      if title.Some? { titles := titles[id := title.value]; }
      todo := todo - {id};
    }
  }
}
