/** Which directories stay watched (watcher/watcher.go): the walk's modification times are folded from the last
    directory back to the first, so that each directory knows the newest thing below it. */
module Walks {
  import opened Types

  /** A path by its components; its directory is the path without the last. */
  type Path = seq<string>

  function Parent(path: Path): Path
    requires path != []
  {
    path[..|path| - 1]
  }

  const TOOL_RESULTS := "tool-results"

  /** One file or directory, in the order the walk visits them. */
  datatype Entry = Entry(path: Path, isDir: bool, modTime: Time)
  {
    /** A tool-results directory is seen but not entered. */
    predicate IsListed() { isDir && !(path != [] && path[|path| - 1] == TOOL_RESULTS) }
  }

  function Max(a: Time, b: Time): Time { if a < b then b else a }

  // ---- The fold over the directories ----

  /** The root first, every other directory after the one it is in, none twice. */
  ghost predicate InOrder(dirs: seq<Path>) {
    && dirs != []
    && (forall k :: 0 < k < |dirs| ==> dirs[k] != [] && Parent(dirs[k]) in dirs[..k])
    && (forall i, k :: 0 <= i < k < |dirs| ==> dirs[i] != dirs[k])
  }

  /** What has reached d once the directories from `from` on are folded into theirs. */
  predicate Reaches(dirs: seq<Path>, from: nat, x: Path, d: Path)
    requires from <= |dirs|
  {
    x == d || (d < x && x[..|d| + 1] in dirs[from..])
  }

  /** The newest own time that has reached d. */
  ghost predicate IsFolded(own: map<Path, Time>, dirs: seq<Path>, from: nat, d: Path, time: Time)
    requires from <= |dirs| && forall x :: x in dirs ==> x in own
  {
    && (forall x :: x in dirs && Reaches(dirs, from, x, d) ==> own[x] <= time)
    && (exists x :: x in dirs && Reaches(dirs, from, x, d) && own[x] == time)
  }

  lemma IndexOf(dirs: seq<Path>, d: Path) returns (k: nat)
    requires d in dirs
    ensures k < |dirs| && dirs[k] == d
  {
    k :| k < |dirs| && dirs[k] == d;
  }

  lemma ParentIndex(dirs: seq<Path>, m: nat) returns (p: nat)
    requires InOrder(dirs) && 0 < m < |dirs|
    ensures dirs[m] != [] && p < m && dirs[p] == Parent(dirs[m])
  {
    p := IndexOf(dirs[..m], Parent(dirs[m]));
  }

  lemma OneIndex(dirs: seq<Path>, i: nat, k: nat)
    requires InOrder(dirs) && i < |dirs| && k < |dirs| && dirs[i] == dirs[k]
    ensures i == k
  {
  }

  /** Below a directory, the step towards anything comes later in the list. */
  lemma {:induction false} StepComesLater(dirs: seq<Path>, j: nat, m: nat)
    requires InOrder(dirs) && j < |dirs| && m < |dirs| && dirs[j] < dirs[m]
    ensures dirs[m][..|dirs[j]| + 1] in dirs[j + 1..]
    decreases |dirs[m]|
  {
    hide InOrder;
    RootIsShortest(dirs, j);
    if m > 0 {
      var p := ParentIndex(dirs, m);
      if |dirs[m]| == |dirs[j]| + 1 {
        assert Parent(dirs[m]) == dirs[j];
        OneIndex(dirs, p, j);
        assert dirs[m] == dirs[j + 1..][m - j - 1];
        assert dirs[m][..|dirs[m]|] == dirs[m];
      } else {
        StepComesLater(dirs, j, p);
        assert dirs[p][..|dirs[j]| + 1] == dirs[m][..|dirs[j]| + 1];
      }
    }
  }

  lemma {:induction false} RootIsShortest(dirs: seq<Path>, k: nat)
    requires InOrder(dirs) && k < |dirs|
    ensures |dirs[0]| <= |dirs[k]|
  {
    hide InOrder;
    if k > 0 {
      var p := ParentIndex(dirs, k);
      RootIsShortest(dirs, p);
    }
  }

  lemma FromHere(dirs: seq<Path>, j: nat, x: Path)
    requires j < |dirs|
    ensures x in dirs[j..] <==> x == dirs[j] || x in dirs[j + 1..]
  {
    assert dirs[j..] == [dirs[j]] + dirs[j + 1..];
  }

  /** Everything below a directory has reached it when the directories after it are folded. */
  lemma AllHaveReached(dirs: seq<Path>, j: nat, x: Path)
    requires InOrder(dirs) && j < |dirs| && x in dirs
    ensures Reaches(dirs, j + 1, x, dirs[j]) <==> dirs[j] <= x
  {
    if dirs[j] < x {
      var m := IndexOf(dirs, x);
      StepComesLater(dirs, j, m);
    }
  }

  /** Folding the j-th directory: what is below it reaches the directory it is in. */
  lemma ReachesNext(dirs: seq<Path>, j: nat, x: Path, d: Path)
    requires InOrder(dirs) && 0 < j < |dirs| && x in dirs
    ensures Reaches(dirs, j, x, d) <==> Reaches(dirs, j + 1, x, d) || (d == Parent(dirs[j]) && dirs[j] <= x)
  {
    hide InOrder;
    HasParent(dirs, j);
    if d < x {
      FromHere(dirs, j, x[..|d| + 1]);
      if x[..|d| + 1] == dirs[j] {
        assert Parent(dirs[j]) == d;
      }
    }
    if d == Parent(dirs[j]) && dirs[j] <= x {
      assert x[..|d| + 1] == dirs[j];
      FromHere(dirs, j, dirs[j]);
    }
  }

  lemma FoldOne(own: map<Path, Time>, dirs: seq<Path>, j: nat, d: Path, time: Time, below: Time)
    requires InOrder(dirs) && 0 < j < |dirs| && forall x :: x in dirs ==> x in own
    requires IsFolded(own, dirs, j + 1, d, time) && IsFolded(own, dirs, j + 1, dirs[j], below)
    ensures IsFolded(own, dirs, j, d, if d == Parent(dirs[j]) then Max(time, below) else time)
  {
    hide Reaches, InOrder;
    HasParent(dirs, j);
    var after := if d == Parent(dirs[j]) then Max(time, below) else time;
    forall x | x in dirs
      ensures Reaches(dirs, j, x, d) <==>
              Reaches(dirs, j + 1, x, d) || (d == Parent(dirs[j]) && Reaches(dirs, j + 1, x, dirs[j]))
    {
      ReachesNext(dirs, j, x, d);
      AllHaveReached(dirs, j, x);
    }
    var x :| x in dirs && Reaches(dirs, j + 1, x, d) && own[x] == time;
    var y :| y in dirs && Reaches(dirs, j + 1, y, dirs[j]) && own[y] == below;
    assert own[if d == Parent(dirs[j]) && time < below then y else x] == after;
  }

  lemma NothingReached(own: map<Path, Time>, dirs: seq<Path>, d: Path)
    requires d in dirs && forall x :: x in dirs ==> x in own
    ensures IsFolded(own, dirs, |dirs|, d, own[d])
  {
    assert Reaches(dirs, |dirs|, d, d);
  }

  /** The reverse pass: each directory's time goes into the one it is in. */
  method FoldNewest(dirs: seq<Path>, own: map<Path, Time>) returns (newest: map<Path, Time>)
    requires InOrder(dirs) && forall x :: x in dirs ==> x in own
    ensures forall d :: d in dirs ==> d in newest && IsNewestOwn(own, dirs, d, newest[d])
  {
    hide InOrder, IsFolded;
    newest := own;
    forall d | d in dirs ensures IsFolded(own, dirs, |dirs|, d, newest[d]) {
      NothingReached(own, dirs, d);
    }
    var index := |dirs|;
    while index > 1
      invariant index <= |dirs| && (|dirs| > 0 ==> index > 0)
      invariant forall d :: d in dirs ==> d in newest && IsFolded(own, dirs, index, d, newest[d])
    {
      index := index - 1;
      HasParent(dirs, index);
      var dir := dirs[index];
      var parent := Parent(dir);
      forall d | d in dirs
        ensures IsFolded(own, dirs, index, d, if d == parent then Max(newest[d], newest[dir]) else newest[d])
      {
        FoldOne(own, dirs, index, d, newest[d], newest[dir]);
      }
      if newest[parent] < newest[dir] {
        newest := newest[parent := newest[dir]];
      }
    }
    forall d | d in dirs ensures IsNewestOwn(own, dirs, d, newest[d]) {
      FoldedIsNewest(own, dirs, d, newest[d], index);
    }
  }

  lemma HasParent(dirs: seq<Path>, k: nat)
    requires InOrder(dirs) && 0 < k < |dirs|
    ensures dirs[k] != [] && Parent(dirs[k]) in dirs
  {
  }

  /** The newest of the own times at or below d. */
  ghost predicate IsNewestOwn(own: map<Path, Time>, dirs: seq<Path>, d: Path, time: Time)
    requires forall x :: x in dirs ==> x in own
  {
    && (forall x :: x in dirs && d <= x ==> own[x] <= time)
    && (exists x :: x in dirs && d <= x && own[x] == time)
  }

  lemma FoldedIsNewest(own: map<Path, Time>, dirs: seq<Path>, d: Path, time: Time, from: nat)
    requires InOrder(dirs) && d in dirs && forall x :: x in dirs ==> x in own
    requires from == 1 && IsFolded(own, dirs, from, d, time)
    ensures IsNewestOwn(own, dirs, d, time)
  {
    hide InOrder;
    var j := IndexOf(dirs, d);
    forall x | x in dirs ensures Reaches(dirs, from, x, d) <==> d <= x {
      if d < x {
        var m := IndexOf(dirs, x);
        StepComesLater(dirs, j, m);
        assert dirs[j + 1..] == dirs[1..][j..];
      }
    }
  }

  // ---- The walk ----

  /** What a directory walk guarantees: it starts at a root directory, visits a directory before what is in it,
      and nothing twice. */
  ghost predicate IsWalk(visited: seq<Entry>) {
    && visited != [] && visited[0].IsListed()
    && (forall j :: 0 < j < |visited| ==> IsInside(visited, j))
    && (forall i, j :: 0 <= i < j < |visited| ==> visited[i].path != visited[j].path)
  }

  ghost predicate IsInside(visited: seq<Entry>, j: nat)
    requires j < |visited|
  {
    visited[j].path != [] && exists i :: 0 <= i < j && visited[i].IsListed() && visited[i].path == Parent(visited[j].path)
  }

  /** A directory's own time and those of the files in it. */
  predicate IsOwn(d: Path, e: Entry) { if e.isDir then e.path == d else e.path != [] && Parent(e.path) == d }

  /** Everything at or below a directory, tool results apart. */
  predicate IsBelow(d: Path, e: Entry) { d <= e.path && (e.isDir ==> e.IsListed()) }

  /** The directories of the walk, in the order of their visit. */
  ghost predicate AreDirs(visited: seq<Entry>, n: nat, dirs: seq<Path>)
    requires n <= |visited|
  {
    && (forall d :: d in dirs <==> exists i :: 0 <= i < n && visited[i].IsListed() && visited[i].path == d)
    && (n > 0 ==> InOrder(dirs))
  }

  ghost predicate IsNewestSoFar(visited: seq<Entry>, n: nat, d: Path, time: Time)
    requires n <= |visited|
  {
    && (forall i :: 0 <= i < n && IsOwn(d, visited[i]) ==> visited[i].modTime <= time)
    && (exists i :: 0 <= i < n && IsOwn(d, visited[i]) && visited[i].modTime == time)
  }

  ghost predicate OwnTimes(visited: seq<Entry>, n: nat, newest: map<Path, Time>)
    requires n <= |visited|
  {
    forall i :: 0 <= i < n && visited[i].isDir ==>
      visited[i].path in newest && IsNewestSoFar(visited, n, visited[i].path, newest[visited[i].path])
  }

  lemma InOrderNext(dirs: seq<Path>, path: Path)
    requires InOrder(dirs) && path != [] && Parent(path) in dirs && path !in dirs
    ensures InOrder(dirs + [path])
  {
    var more := dirs + [path];
    forall k | 0 < k < |more| ensures more[k] != [] && Parent(more[k]) in more[..k] {
      assert k < |dirs| ==> more[..k] == dirs[..k] && more[k] == dirs[k];
      assert k == |dirs| ==> more[..k] == dirs;
    }
  }

  lemma NewDir(visited: seq<Entry>, n: nat, dirs: seq<Path>)
    requires IsWalk(visited) && 0 < n < |visited| && AreDirs(visited, n, dirs)
    ensures visited[n].path != [] && Parent(visited[n].path) in dirs && visited[n].path !in dirs
  {
    assert IsInside(visited, n);
  }

  lemma DirsNext(visited: seq<Entry>, n: nat, dirs: seq<Path>)
    requires IsWalk(visited) && n < |visited| && AreDirs(visited, n, dirs) && (n == 0 ==> dirs == [])
    ensures AreDirs(visited, n + 1, if visited[n].IsListed() then dirs + [visited[n].path] else dirs)
  {
    hide InOrder, IsInside;
    var e := visited[n];
    if n == 0 {
      OneDir(e.path);
      assert dirs + [e.path] == [e.path];
    } else {
      NewDir(visited, n, dirs);
      if e.IsListed() {
        InOrderNext(dirs, e.path);
      }
    }
    if e.IsListed() {
      ListedNext(visited, n, dirs);
    }
  }

  lemma ListedNext(visited: seq<Entry>, n: nat, dirs: seq<Path>)
    requires n < |visited| && visited[n].IsListed()
    requires forall d :: d in dirs <==> exists i :: 0 <= i < n && visited[i].IsListed() && visited[i].path == d
    ensures forall d :: d in dirs + [visited[n].path] <==>
            exists i :: 0 <= i < n + 1 && visited[i].IsListed() && visited[i].path == d
  {
    var more := dirs + [visited[n].path];
    forall d | d in more ensures exists i :: 0 <= i < n + 1 && visited[i].IsListed() && visited[i].path == d {
      if d !in dirs {
        assert visited[n].IsListed() && visited[n].path == d;
      }
    }
    forall i | 0 <= i < n + 1 && visited[i].IsListed() ensures visited[i].path in more {
      if i < n {
        assert visited[i].path in dirs;
      } else {
        assert more[|dirs|] == visited[i].path;
      }
    }
  }

  lemma OneDir(path: Path)
    ensures InOrder([path])
  {
  }

  lemma DirRecorded(visited: seq<Entry>, n: nat, newest: map<Path, Time>)
    requires IsWalk(visited) && n < |visited| && visited[n].isDir && OwnTimes(visited, n, newest)
    ensures OwnTimes(visited, n + 1, newest[visited[n].path := visited[n].modTime])
  {
    var d := visited[n].path;
    forall i | 0 <= i < n ensures !IsOwn(d, visited[i]) {
      if !visited[i].isDir && visited[i].path != [] && Parent(visited[i].path) == d {
        ParentIsBefore(visited, i, n);
      }
    }
    assert IsOwn(d, visited[n]);
    forall i | 0 <= i < n && visited[i].isDir
      ensures IsNewestSoFar(visited, n + 1, visited[i].path, newest[visited[i].path])
    {
      assert IsNewestSoFar(visited, n, visited[i].path, newest[visited[i].path]);
    }
  }

  lemma ParentIsBefore(visited: seq<Entry>, i: nat, n: nat)
    requires IsWalk(visited) && i < n < |visited| && visited[i].path != [] && !visited[i].isDir
    ensures Parent(visited[i].path) != visited[n].path
  {
    assert i > 0;
    assert IsInside(visited, i);
  }

  lemma FileRecorded(visited: seq<Entry>, n: nat, newest: map<Path, Time>)
    requires IsWalk(visited) && 0 < n < |visited| && !visited[n].isDir && OwnTimes(visited, n, newest)
    ensures visited[n].path != [] && Parent(visited[n].path) in newest
    ensures var parent := Parent(visited[n].path);
            OwnTimes(visited, n + 1, newest[parent := Max(newest[parent], visited[n].modTime)])
  {
    assert IsInside(visited, n);
    var parent := Parent(visited[n].path);
    var p :| 0 <= p < n && visited[p].IsListed() && visited[p].path == parent;
    assert IsNewestSoFar(visited, n, visited[p].path, newest[parent]);
    var after := newest[parent := Max(newest[parent], visited[n].modTime)];
    forall i | 0 <= i < n && visited[i].isDir
      ensures IsNewestSoFar(visited, n + 1, visited[i].path, after[visited[i].path])
    {
      assert IsNewestSoFar(visited, n, visited[i].path, newest[visited[i].path]);
      if visited[i].path == parent {
        assert IsOwn(parent, visited[n]);
        var w :| 0 <= w < n && IsOwn(parent, visited[w]) && visited[w].modTime == newest[parent];
        assert visited[if newest[parent] < visited[n].modTime then n else w].modTime == after[parent];
      } else {
        assert !IsOwn(visited[i].path, visited[n]);
      }
    }
  }

  /** recordModTime over the walk. */
  method RecordModTimes(visited: seq<Entry>) returns (newest: map<Path, Time>, dirs: seq<Path>)
    requires IsWalk(visited)
    ensures AreDirs(visited, |visited|, dirs) && OwnTimes(visited, |visited|, newest)
  {
    hide AreDirs, OwnTimes, IsWalk;
    newest, dirs := map[], [];
    NothingVisited(visited);
    for n := 0 to |visited|
      invariant AreDirs(visited, n, dirs) && OwnTimes(visited, n, newest) && (n == 0 ==> dirs == [])
    {
      var e := visited[n];
      DirsNext(visited, n, dirs);
      if e.isDir {
        DirRecorded(visited, n, newest);
        newest := newest[e.path := e.modTime];
      } else {
        StartsWithADir(visited);
        FileRecorded(visited, n, newest);
        var parent := Parent(e.path);
        if newest[parent] < e.modTime {
          newest := newest[parent := e.modTime];
        } else {
          assert newest[parent := newest[parent]] == newest;
        }
      }
      if e.IsListed() {
        dirs := dirs + [e.path];
      }
    }
  }

  lemma NothingVisited(visited: seq<Entry>)
    ensures AreDirs(visited, 0, []) && OwnTimes(visited, 0, map[])
  {
  }

  lemma StartsWithADir(visited: seq<Entry>)
    requires IsWalk(visited)
    ensures visited[0].isDir
  {
  }

  // ---- What stays watched ----

  /** The newest of everything at or below a directory, tool results apart. */
  ghost predicate IsNewestBelow(visited: seq<Entry>, d: Path, time: Time) {
    && (forall i :: 0 <= i < |visited| && IsBelow(d, visited[i]) ==> visited[i].modTime <= time)
    && (exists i :: 0 <= i < |visited| && IsBelow(d, visited[i]) && visited[i].modTime == time)
  }

  /** What is below a directory is some listed directory's own. */
  lemma BelowIsOwned(visited: seq<Entry>, dirs: seq<Path>, d: Path, i: nat) returns (x: Path)
    requires IsWalk(visited) && AreDirs(visited, |visited|, dirs) && d in dirs && i < |visited|
    requires IsBelow(d, visited[i])
    ensures x in dirs && d <= x && IsOwn(x, visited[i])
  {
    var e := visited[i];
    if e.isDir {
      x := e.path;
    } else {
      StartsWithADir(visited);
      assert IsInside(visited, i);
      x := Parent(e.path);
      var p :| 0 <= p < i && visited[p].IsListed() && visited[p].path == x;
      assert d != e.path by { FileIsNoDir(visited, dirs, d, i); }
    }
  }

  lemma FileIsNoDir(visited: seq<Entry>, dirs: seq<Path>, d: Path, i: nat)
    requires IsWalk(visited) && AreDirs(visited, |visited|, dirs) && d in dirs && i < |visited| && !visited[i].isDir
    ensures d != visited[i].path
  {
    var k :| 0 <= k < |visited| && visited[k].IsListed() && visited[k].path == d;
    assert k != i;
  }

  lemma OwnIsBelow(visited: seq<Entry>, dirs: seq<Path>, d: Path, x: Path, i: nat)
    requires AreDirs(visited, |visited|, dirs) && IsWalk(visited) && x in dirs && d <= x && i < |visited|
    requires IsOwn(x, visited[i])
    ensures IsBelow(d, visited[i])
  {
    if visited[i].isDir {
      var k :| 0 <= k < |visited| && visited[k].IsListed() && visited[k].path == x;
      assert k == i;
    }
  }

  lemma NewestOfAll(visited: seq<Entry>, dirs: seq<Path>, own: map<Path, Time>, d: Path, time: Time)
    requires IsWalk(visited) && AreDirs(visited, |visited|, dirs) && OwnTimes(visited, |visited|, own) && d in dirs
    requires (forall x :: x in dirs ==> x in own) && IsNewestOwn(own, dirs, d, time)
    requires forall x :: x in dirs ==> IsNewestSoFar(visited, |visited|, x, own[x])
    ensures IsNewestBelow(visited, d, time)
  {
    hide IsWalk, AreDirs, OwnTimes, IsBelow, IsOwn;
    forall i | 0 <= i < |visited| && IsBelow(d, visited[i]) ensures visited[i].modTime <= time {
      var x := BelowIsOwned(visited, dirs, d, i);
      assert IsNewestSoFar(visited, |visited|, x, own[x]);
    }
    var x :| x in dirs && d <= x && own[x] == time;
    assert IsNewestSoFar(visited, |visited|, x, own[x]);
    var i :| 0 <= i < |visited| && IsOwn(x, visited[i]) && visited[i].modTime == own[x];
    OwnIsBelow(visited, dirs, d, x, i);
  }

  predicate IsExpired(d: Path, agentDir: Path, cutoff: Time, newest: Time) {
    d != agentDir && cutoff != 0 && newest < cutoff
  }

  /** walkAndWatch: each directory's time is the newest of everything below it; the expired ones are unwatched. */
  method WalkAndWatch(visited: seq<Entry>, agentDir: Path,
                      cutoff: Time) returns (newest: map<Path, Time>, kept: seq<Path>)
    requires IsWalk(visited) && agentDir <= visited[0].path
    ensures forall i :: 0 <= i < |visited| && visited[i].IsListed() ==>
              && visited[i].path in newest && IsNewestBelow(visited, visited[i].path, newest[visited[i].path])
              && (visited[i].path in kept <==>
                    visited[i].path == agentDir || cutoff == 0
                    || exists k :: 0 <= k < |visited| && IsBelow(visited[i].path, visited[k]) && visited[k].modTime >= cutoff)
    ensures forall path :: path in kept ==>
              && (path != [] ==> path[|path| - 1] != "tool-results")
              && exists i :: 0 <= i < |visited| && visited[i].isDir && visited[i].path == path
  {
    hide IsWalk, AreDirs, OwnTimes, InOrder, IsNewestOwn, IsNewestBelow, IsNewestSoFar;
    var own, dirs := RecordModTimes(visited);
    ListedAreDirs(visited, dirs, own);
    newest := FoldNewest(dirs, own);
    forall d | d in dirs ensures IsNewestBelow(visited, d, newest[d]) {
      NewestOfAll(visited, dirs, own, d, newest[d]);
    }
    kept := Unexpired(dirs, newest, agentDir, cutoff);
    forall path | path in kept
      ensures (path != [] ==> path[|path| - 1] != "tool-results")
              && exists i :: 0 <= i < |visited| && visited[i].isDir && visited[i].path == path
    {
      DirIsListed(visited, dirs, path);
    }
    forall i | 0 <= i < |visited| && visited[i].IsListed()
      ensures visited[i].path in kept <==>
                visited[i].path == agentDir || cutoff == 0
                || exists k :: 0 <= k < |visited| && IsBelow(visited[i].path, visited[k]) && visited[k].modTime >= cutoff
    {
      ExpiredIsOld(visited, visited[i].path, agentDir, cutoff, newest[visited[i].path]);
    }
  }

  lemma DirIsListed(visited: seq<Entry>, dirs: seq<Path>, d: Path)
    requires AreDirs(visited, |visited|, dirs) && d in dirs
    ensures d != [] ==> d[|d| - 1] != "tool-results"
    ensures exists i :: 0 <= i < |visited| && visited[i].isDir && visited[i].path == d
  {
    var i :| 0 <= i < |visited| && visited[i].IsListed() && visited[i].path == d;
  }

  lemma ExpiredIsOld(visited: seq<Entry>, d: Path, agentDir: Path, cutoff: Time, time: Time)
    requires IsNewestBelow(visited, d, time)
    ensures IsExpired(d, agentDir, cutoff, time) <==>
              d != agentDir && cutoff != 0
              && forall k :: 0 <= k < |visited| && IsBelow(d, visited[k]) ==> visited[k].modTime < cutoff
  {
    hide IsBelow;
  }

  method Unexpired(dirs: seq<Path>, newest: map<Path, Time>, agentDir: Path, cutoff: Time) returns (kept: seq<Path>)
    requires forall d :: d in dirs ==> d in newest
    ensures forall d :: d in kept ==> d in dirs
    ensures forall d :: d in dirs ==> (d in kept <==> !IsExpired(d, agentDir, cutoff, newest[d]))
  {
    kept := [];
    for k := 0 to |dirs|
      invariant forall d :: d in kept <==> d in dirs[..k] && !IsExpired(d, agentDir, cutoff, newest[d])
    {
      assert dirs[..k + 1] == dirs[..k] + [dirs[k]];
      if !IsExpired(dirs[k], agentDir, cutoff, newest[dirs[k]]) {
        kept := kept + [dirs[k]];
      }
    }
    assert dirs[..|dirs|] == dirs;
  }

  lemma ListedAreDirs(visited: seq<Entry>, dirs: seq<Path>, own: map<Path, Time>)
    requires IsWalk(visited) && AreDirs(visited, |visited|, dirs) && OwnTimes(visited, |visited|, own)
    ensures InOrder(dirs)
    ensures forall d :: d in dirs ==> d in own && IsNewestSoFar(visited, |visited|, d, own[d])
    ensures forall i :: 0 <= i < |visited| && visited[i].IsListed() ==> visited[i].path in dirs
  {
  }

  /** The directory a kept directory is in is kept, and what is unwatched has nothing recent below it. */
  lemma KeptAreClosed(visited: seq<Entry>, agentDir: Path, cutoff: Time, d: Path, time: Time, parentTime: Time)
    requires d != [] && IsNewestBelow(visited, d, time) && IsNewestBelow(visited, Parent(d), parentTime)
    requires agentDir <= Parent(d)
    ensures !IsExpired(d, agentDir, cutoff, time) ==> !IsExpired(Parent(d), agentDir, cutoff, parentTime)
    ensures IsExpired(d, agentDir, cutoff, time) ==>
              forall i :: 0 <= i < |visited| && IsBelow(d, visited[i]) ==> visited[i].modTime < cutoff
  {
    var i :| 0 <= i < |visited| && IsBelow(d, visited[i]) && visited[i].modTime == time;
    assert IsBelow(Parent(d), visited[i]);
  }
}
