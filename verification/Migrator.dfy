/** The SQL migration runner: reading a directory of scripts, applying them in order, undoing the latest. What a script
    does to a schema is a parameter; None stands for a statement the database rejects. */
module Migrator {
  import opened Wrappers

  datatype Kind = UpScript | DownScript | OtherScript

  /** A directory entry after its name has been split at the first underscore: no version when that is impossible or the
      part before it is not a number, no content when the file cannot be read. */
  datatype File = File(isDir: bool, version: Option<int>, rest: string, kind: Kind, content: Option<string>)

  datatype Migration = Migration(version: int, name: string, up: string, down: string)

  datatype Db<S> = Db(schema: S, applied: map<int, string>)

  type Exec<!S> = (string, S) -> Option<S>

  // ---------------------------------------------------------------- reading the scripts

  function AddScript(m: Migration, kind: Kind, content: string): Migration {
    match kind
    case UpScript => m.(up := content)
    case DownScript => m.(down := content)
    case OtherScript => m
  }

  /** None when a script cannot be read. */
  function ByVersion(files: seq<File>): Option<map<int, Migration>> {
    if files == [] then Some(map[])
    else
      var before, f := ByVersion(files[..|files| - 1]), files[|files| - 1];
      if before.None? || f.isDir || f.version.None? then before
      else if f.content.None? then None
      else
        var v, found := f.version.value, before.value;
        var m := if v in found then found[v] else Migration(v, f.rest, "", "");
        Some(found[v := AddScript(m, f.kind, f.content.value)])
  }

  predicate IsScript(f: File, v: int) {
    !f.isDir && f.version == Some(v)
  }

  /** File i is the last of this kind with this version. */
  predicate IsLastOf(files: seq<File>, i: nat, v: int, kind: Kind) {
    && i < |files| && IsScript(files[i], v) && files[i].kind == kind
    && forall j :: i < j < |files| ==> !(IsScript(files[j], v) && files[j].kind == kind)
  }

  /** The text is the content of the last file of this kind with this version, or empty if there is none. */
  ghost predicate IsText(files: seq<File>, v: int, kind: Kind, text: string) {
    || (text == "" && forall i :: 0 <= i < |files| ==> !(IsScript(files[i], v) && files[i].kind == kind))
    || (exists i :: 0 <= i < |files| && IsLastOf(files, i, v, kind) && files[i].content == Some(text))
  }

  /** The name is the rest of the first file name with this version. */
  ghost predicate IsName(files: seq<File>, v: int, name: string) {
    exists i ::
      && 0 <= i < |files| && IsScript(files[i], v) && files[i].rest == name
      && forall j :: 0 <= j < i ==> !IsScript(files[j], v)
  }

  /** What a version stands for in the directory. */
  ghost predicate IsMigration(files: seq<File>, v: int, m: Migration) {
    && m.version == v && IsName(files, v, m.name)
    && IsText(files, v, UpScript, m.up) && IsText(files, v, DownScript, m.down)
  }

  ghost predicate Unreadable(files: seq<File>) {
    exists i :: 0 <= i < |files| && !files[i].isDir && files[i].version.Some? && files[i].content.None?
  }

  /** Reading fails exactly when a versioned script cannot be read; else there is one migration for each version that a
      script has, with the text of its up script and of its down script. */
  ghost predicate Reads(files: seq<File>, found: Option<map<int, Migration>>) {
    && (found.None? <==> Unreadable(files))
    && (found.Some? ==>
          && (forall v :: v in found.value <==> exists i :: 0 <= i < |files| && IsScript(files[i], v))
          && (forall v :: v in found.value ==> IsMigration(files, v, found.value[v])))
  }

  lemma IsTextAfter(files: seq<File>, f: File, v: int, kind: Kind, text: string)
    requires IsText(files, v, kind, text)
    ensures !(IsScript(f, v) && f.kind == kind) ==> IsText(files + [f], v, kind, text)
  {
    var all := files + [f];
    assert forall i :: 0 <= i < |files| ==> all[i] == files[i];
    if !(IsScript(f, v) && f.kind == kind) {
      if i :| 0 <= i < |files| && IsLastOf(files, i, v, kind) && files[i].content == Some(text) {
        assert IsLastOf(all, i, v, kind) && all[i].content == Some(text);
      }
    }
  }

  lemma IsTextNow(files: seq<File>, f: File, v: int)
    requires IsScript(f, v) && f.content.Some?
    ensures IsText(files + [f], v, f.kind, f.content.value)
  {
    var all := files + [f];
    assert IsLastOf(all, |files|, v, f.kind) && all[|files|].content == f.content;
  }

  lemma IsNameAfter(files: seq<File>, f: File, v: int, name: string)
    requires IsName(files, v, name)
    ensures IsName(files + [f], v, name)
  {
    var all := files + [f];
    assert forall i :: 0 <= i < |files| ==> all[i] == files[i];
    var i :|
      && 0 <= i < |files| && IsScript(files[i], v) && files[i].rest == name
      && forall j :: 0 <= j < i ==> !IsScript(files[j], v);
    assert IsScript(all[i], v) && all[i].rest == name;
  }

  lemma {:induction false} ByVersionReads(files: seq<File>)
    ensures Reads(files, ByVersion(files))
  {
    if files != [] {
      var n := |files| - 1;
      var front, f := files[..n], files[n];
      assert front + [f] == files;
      ByVersionReads(front);
      assert forall i :: 0 <= i < n ==> front[i] == files[i];
      if ByVersion(files).Some? {
        forall v
          ensures v in ByVersion(files).value <==> exists i :: 0 <= i < |files| && IsScript(files[i], v)
          ensures v in ByVersion(files).value ==> IsMigration(files, v, ByVersion(files).value[v])
        {
          VersionReads(front, f, v);
        }
      } else if ByVersion(front).None? {
        var i :| 0 <= i < n && !front[i].isDir && front[i].version.Some? && front[i].content.None?;
        assert files[i] == front[i];
      }
    }
  }

  /** One more file, for one version. */
  lemma {:induction false} VersionReads(front: seq<File>, f: File, v: int)
    requires Reads(front, ByVersion(front)) && ByVersion(front + [f]).Some?
    ensures v in ByVersion(front + [f]).value <==> exists i :: 0 <= i < |front + [f]| && IsScript((front + [f])[i], v)
    ensures v in ByVersion(front + [f]).value ==> IsMigration(front + [f], v, ByVersion(front + [f]).value[v])
  {
    var files := front + [f];
    assert files[..|front|] == front && files[|front|] == f;
    assert forall i :: 0 <= i < |front| ==> files[i] == front[i];
    var before, after := ByVersion(front).value, ByVersion(files).value;
    if v in before {
      var i :| 0 <= i < |front| && IsScript(front[i], v);
      assert IsScript(files[i], v);
      var m := before[v];
      assert IsMigration(front, v, m);
      IsNameAfter(front, f, v, m.name);
      IsTextAfter(front, f, v, UpScript, m.up);
      IsTextAfter(front, f, v, DownScript, m.down);
    } else {
      assert forall i :: 0 <= i < |front| ==> !IsScript(front[i], v);
      if IsScript(f, v) {
        assert IsText(front, v, UpScript, "") && IsText(front, v, DownScript, "");
        IsTextAfter(front, f, v, UpScript, "");
        IsTextAfter(front, f, v, DownScript, "");
        assert IsScript(files[|front|], v) && IsName(files, v, f.rest);
      }
    }
    if IsScript(f, v) {
      IsTextNow(front, f, v);
    }
    hide IsText, IsName;
  }

  ghost predicate Ascending(all: seq<Migration>) {
    forall i, j :: 0 <= i < j < |all| ==> all[i].version < all[j].version
  }

  /** `all` lists the entries of `found` once each, by version. */
  ghost predicate IsListing(all: seq<Migration>, found: map<int, Migration>) {
    && Ascending(all)
    && (forall i :: 0 <= i < |all| ==> all[i].version in found && found[all[i].version] == all[i])
    && (forall v :: v in found ==> found[v].version == v && found[v] in all)
  }

  lemma {:induction false} VersionsAreOwnKeys(files: seq<File>)
    ensures ByVersion(files).Some? ==>
      forall v :: v in ByVersion(files).value ==> ByVersion(files).value[v].version == v
  {
    if files != [] {
      VersionsAreOwnKeys(files[..|files| - 1]);
    }
  }

  /** The order in which the map is walked cannot matter: its sorted listing is unique. */
  lemma {:induction false} ListingIsUnique(a: seq<Migration>, b: seq<Migration>, found: map<int, Migration>)
    requires IsListing(a, found) && IsListing(b, found)
    ensures a == b
    decreases |a|
  {
    EmptyListing(a, found);
    EmptyListing(b, found);
    if a != [] {
      var x, y := a[|a| - 1], b[|b| - 1];
      assert found[x.version] in b && found[y.version] in a;
      assert x == y;
      var rest := found - {x.version};
      DropLast(a, found);
      DropLast(b, found);
      hide IsListing;
      ListingIsUnique(a[..|a| - 1], b[..|b| - 1], rest);
    }
  }

  lemma EmptyListing(all: seq<Migration>, found: map<int, Migration>)
    requires IsListing(all, found)
    ensures all == [] <==> found == map[]
  {
    if all != [] {
      assert all[0].version in found;
    }
    if found != map[] {
      HasElement(found.Keys);
      var v :| v in found.Keys;
      assert found[v] in all;
    }
  }

  lemma DropLast(a: seq<Migration>, found: map<int, Migration>)
    requires IsListing(a, found) && a != []
    ensures IsListing(a[..|a| - 1], found - {a[|a| - 1].version})
  {
    var rest := found - {a[|a| - 1].version};
    forall v | v in rest ensures rest[v] in a[..|a| - 1] {
      assert found[v] in a;
      var i :| 0 <= i < |a| && a[i] == found[v];
      assert a[i].version in found && found[a[i].version] == a[i];
    }
  }

  // ---------------------------------------------------------------- applying them

  function Apply<S>(db: Db<S>, m: Migration, exec: Exec<S>): Option<Db<S>> {
    if m.version in db.applied then Some(db)
    else
      var s := exec(m.up, db.schema);
      if s.None? then None else Some(Db(s.value, db.applied[m.version := m.name]))
  }

  /** The database after working through `all`, and whether no script was rejected. Working through a prefix of the
      scripts is what a runner that is killed, or loses its connection, leaves behind. */
  function Upgrade<S>(db: Db<S>, all: seq<Migration>, exec: Exec<S>): (Db<S>, bool) {
    if all == [] then (db, true)
    else
      var (d, ok) := Upgrade(db, all[..|all| - 1], exec);
      if !ok then (d, false)
      else
        var next := Apply(d, all[|all| - 1], exec);
        if next.None? then (d, false) else (next.value, true)
  }

  /** The scripts that Up commits, in the order it commits them. */
  function Committed<S>(db: Db<S>, all: seq<Migration>, exec: Exec<S>): seq<Migration> {
    if all == [] then []
    else
      var front, last := all[..|all| - 1], all[|all| - 1];
      var (d, ok) := Upgrade(db, front, exec);
      Committed(db, front, exec) + if ok && last.version !in d.applied && Apply(d, last, exec).Some? then [last] else []
  }

  function Versions(all: seq<Migration>): set<int> {
    set m | m in all :: m.version
  }

  ghost predicate Recorded<S>(db: Db<S>, all: seq<Migration>) {
    forall i :: 0 <= i < |all| ==> all[i].version in db.applied
  }

  lemma {:induction false} UpRecords<S>(db: Db<S>, all: seq<Migration>, exec: Exec<S>)
    ensures Upgrade(db, all, exec).1 ==> Recorded(Upgrade(db, all, exec).0, all)
    ensures db.applied.Keys <= Upgrade(db, all, exec).0.applied.Keys
  {
    if all != [] {
      UpRecords(db, all[..|all| - 1], exec);
    }
  }

  lemma {:induction false} RecordedIsSkipped<S>(db: Db<S>, all: seq<Migration>, exec: Exec<S>)
    requires Recorded(db, all)
    ensures Upgrade(db, all, exec) == (db, true) && Committed(db, all, exec) == []
  {
    if all != [] {
      RecordedIsSkipped(db, all[..|all| - 1], exec);
    }
  }

  /** A second Up continues where an interrupted one stopped: same database, and together the two commit exactly what
      one uninterrupted Up commits. */
  lemma {:induction false} UpResumes<S>(db: Db<S>, all: seq<Migration>, k: nat, exec: Exec<S>)
    requires k <= |all|
    ensures Upgrade(Upgrade(db, all[..k], exec).0, all, exec) == Upgrade(db, all, exec)
    ensures Committed(db, all[..k], exec) + Committed(Upgrade(db, all[..k], exec).0, all, exec) ==
      Committed(db, all, exec)
  {
    var d := Upgrade(db, all[..k], exec).0;
    if k == |all| {
      assert all[..k] == all;
      RerunIsIdle(db, all, exec);
    } else {
      var n := |all| - 1;
      assert all[..n][..k] == all[..k];
      UpResumes(db, all[..n], k, exec);
    }
  }

  lemma {:induction false} RerunIsIdle<S>(db: Db<S>, all: seq<Migration>, exec: Exec<S>)
    ensures Upgrade(Upgrade(db, all, exec).0, all, exec) == Upgrade(db, all, exec)
    ensures Committed(Upgrade(db, all, exec).0, all, exec) == []
  {
    var d := Upgrade(db, all, exec).0;
    if Upgrade(db, all, exec).1 {
      UpRecords(db, all, exec);
      RecordedIsSkipped(d, all, exec);
    } else {
      RerunIsIdle(db, all[..|all| - 1], exec);
    }
  }

  function Interrupted<S>(db: Db<S>, all: seq<Migration>, stops: seq<nat>, exec: Exec<S>): Db<S>
    requires forall i :: 0 <= i < |stops| ==> stops[i] <= |all|
  {
    if stops == [] then db
    else
      var n := |stops| - 1;
      Upgrade(Interrupted(db, all, stops[..n], exec), all[..stops[n]], exec).0
  }

  /** However often Up is interrupted, and wherever, running it again ends as if it had run once. */
  lemma {:induction false} AnyInterruptionsResume<S>(db: Db<S>, all: seq<Migration>, stops: seq<nat>, exec: Exec<S>)
    requires forall i :: 0 <= i < |stops| ==> stops[i] <= |all|
    ensures Upgrade(Interrupted(db, all, stops, exec), all, exec) == Upgrade(db, all, exec)
  {
    if stops != [] {
      var n := |stops| - 1;
      UpResumes(Interrupted(db, all, stops[..n], exec), all, stops[n], exec);
      AnyInterruptionsResume(db, all, stops[..n], exec);
    }
  }

  function RunScripts<S>(s: S, scripts: seq<Migration>, exec: Exec<S>): Option<S> {
    if scripts == [] then Some(s)
    else
      var before := RunScripts(s, scripts[..|scripts| - 1], exec);
      if before.None? then None else exec(scripts[|scripts| - 1].up, before.value)
  }

  /** What Up commits is in ascending order, each script once, and none of it was recorded before. */
  lemma {:induction false} CommittedInOrder<S>(db: Db<S>, all: seq<Migration>, exec: Exec<S>)
    requires Ascending(all)
    ensures Ascending(Committed(db, all, exec))
    ensures forall m :: m in Committed(db, all, exec) ==> m in all && m.version !in db.applied
  {
    hide Apply, Upgrade;
    if all != [] {
      var n := |all| - 1;
      CommittedInOrder(db, all[..n], exec);
      UpRecords(db, all[..n], exec);
      var before, done := Committed(db, all[..n], exec), Committed(db, all, exec);
      forall i | 0 <= i < |before| ensures before[i].version < all[n].version {
        assert before[i] in all[..n];
      }
      assert done == before || done == before + [all[n]];
    }
  }

  /** The schema after Up is the result of running exactly the committed scripts. */
  lemma {:induction false} CommittedMakesTheSchema<S>(db: Db<S>, all: seq<Migration>, exec: Exec<S>)
    ensures RunScripts(db.schema, Committed(db, all, exec), exec) == Some(Upgrade(db, all, exec).0.schema)
  {
    if all != [] {
      var n := |all| - 1;
      CommittedMakesTheSchema(db, all[..n], exec);
      var before, done := Committed(db, all[..n], exec), Committed(db, all, exec);
      if done != before {
        assert done[..|before|] == before;
      }
    }
  }

  /** Exactly the committed scripts are newly recorded. */
  lemma {:induction false} CommittedIsRecorded<S>(db: Db<S>, all: seq<Migration>, exec: Exec<S>)
    ensures Upgrade(db, all, exec).0.applied.Keys == db.applied.Keys + Versions(Committed(db, all, exec))
  {
    if all != [] {
      var n := |all| - 1;
      CommittedIsRecorded(db, all[..n], exec);
      var d, last := Upgrade(db, all[..n], exec).0, all[n];
      ApplyKeys(d, last, exec);
      VersionsAppend(Committed(db, all[..n], exec), last);
      hide Apply, Versions;
      assert Committed(db, all[..n], exec) + [] == Committed(db, all[..n], exec);
    }
  }

  lemma VersionsAppend(all: seq<Migration>, m: Migration)
    ensures Versions(all + [m]) == Versions(all) + {m.version}
  {
  }

  // ---------------------------------------------------------------- prefixes

  lemma VersionsOfPrefix(all: seq<Migration>, i: nat)
    requires i < |all|
    ensures Versions(all[..i + 1]) == Versions(all[..i]) + {all[i].version}
    ensures Ascending(all) ==> all[i].version !in Versions(all[..i])
  {
    assert all[..i + 1] == all[..i] + [all[i]];
  }

  lemma UpgradeStep<S>(db: Db<S>, all: seq<Migration>, k: nat, exec: Exec<S>)
    requires k < |all|
    ensures
      var (d, ok) := Upgrade(db, all[..k], exec);
      var next := Apply(d, all[k], exec);
      Upgrade(db, all[..k + 1], exec) == if !ok || next.None? then (d, false) else (next.value, true)
  {
    assert all[..k + 1][..k] == all[..k];
  }

  predicate Rejects<S>(exec: Exec<S>, m: Migration, s: S) {
    exec(m.up, s).None?
  }

  /** The first k scripts left the database at the first i versions: all of the k unless script i was rejected. */
  predicate StandsAt<S>(d: Db<S>, ok: bool, all: seq<Migration>, j: nat, k: nat, i: nat, exec: Exec<S>)
    requires j <= |all| && k <= |all|
  {
    && j <= i <= |all|
    && d.applied.Keys == Versions(all[..i])
    && (if ok then i == if j < k then k else j else i < k && Rejects(exec, all[i], d.schema))
  }

  lemma StandsAfterStep<S>(d: Db<S>, all: seq<Migration>, j: nat, k: nat, i: nat, exec: Exec<S>)
    requires Ascending(all) && j <= |all| && k < |all| && StandsAt(d, true, all, j, k, i, exec)
    ensures
      var next := Apply(d, all[k], exec);
      if next.None? then StandsAt(d, false, all, j, k + 1, i, exec)
      else StandsAt(next.value, true, all, j, k + 1, if j <= k then k + 1 else j, exec)
  {
    ApplyKeys(d, all[k], exec);
    if k < j {
      InPrefix(all, k, j);
    } else {
      VersionsOfPrefix(all, k);
    }
  }

  /** From a prefix of the versions, Up leaves a longer prefix wherever it stops, and all of them if nothing fails. */
  lemma {:induction false} UpLeavesAPrefix<S>(db: Db<S>, all: seq<Migration>, j: nat, k: nat, exec: Exec<S>)
    returns (i: nat)
    requires Ascending(all) && j <= |all| && k <= |all|
    requires db.applied.Keys == Versions(all[..j])
    ensures StandsAt(Upgrade(db, all[..k], exec).0, Upgrade(db, all[..k], exec).1, all, j, k, i, exec)
  {
    hide StandsAt;
    if k == 0 {
      i := j;
      StandsAtFirst(db, all, j, exec);
    } else {
      hide Apply, Rejects, Versions, Ascending;
      i := UpLeavesAPrefix(db, all, j, k - 1, exec);
      UpgradeStep(db, all, k - 1, exec);
      var r := Upgrade(db, all[..k - 1], exec);
      if r.1 {
        StandsAfterStep(r.0, all, j, k - 1, i, exec);
        if Upgrade(db, all[..k], exec).1 {
          i := if j <= k - 1 then k else j;
        }
      } else {
        StandsStill(r.0, all, j, k - 1, i, exec);
      }
    }
  }

  lemma StandsAtFirst<S>(db: Db<S>, all: seq<Migration>, j: nat, exec: Exec<S>)
    requires j <= |all| && db.applied.Keys == Versions(all[..j])
    ensures StandsAt(Upgrade(db, all[..0], exec).0, Upgrade(db, all[..0], exec).1, all, j, 0, j, exec)
  {
  }

  lemma StandsStill<S>(d: Db<S>, all: seq<Migration>, j: nat, k: nat, i: nat, exec: Exec<S>)
    requires j <= |all| && k < |all| && StandsAt(d, false, all, j, k, i, exec)
    ensures StandsAt(d, false, all, j, k + 1, i, exec)
  {
  }

  lemma ApplyKeys<S>(db: Db<S>, m: Migration, exec: Exec<S>)
    ensures m.version in db.applied.Keys ==> Apply(db, m, exec) == Some(db)
    ensures Apply(db, m, exec).Some? ==> Apply(db, m, exec).value.applied.Keys == db.applied.Keys + {m.version}
    ensures Apply(db, m, exec).None? ==> Rejects(exec, m, db.schema)
  {
  }

  lemma InPrefix(all: seq<Migration>, i: nat, j: nat)
    requires i < j <= |all|
    ensures all[i].version in Versions(all[..j])
  {
    assert all[..j][i] == all[i];
  }

  // ---------------------------------------------------------------- undoing the latest

  predicate IsLatest(v: int, versions: set<int>) {
    v in versions && forall w :: w in versions ==> w <= v
  }

  lemma HasElement(versions: set<int>)
    ensures versions == {} || exists v :: v in versions
  {
    if forall v :: v !in versions {
      assert versions == {};
    }
  }

  lemma {:induction false} LatestExists(versions: set<int>)
    requires versions != {}
    ensures exists v :: IsLatest(v, versions)
  {
    HasElement(versions);
    var x :| x in versions;
    if versions != {x} {
      var others := versions - {x};
      assert versions == others + {x};
      LatestExists(others);
      var y :| IsLatest(y, others);
      assert forall w :: w in versions ==> w == x || w in others;
      assert IsLatest(if x < y then y else x, versions);
    } else {
      assert IsLatest(x, versions);
    }
  }

  lemma LatestIsUnique(v: int, w: int, versions: set<int>)
    requires IsLatest(v, versions) && IsLatest(w, versions)
    ensures v == w
  {
  }

  ghost function Latest(versions: set<int>): (v: int)
    requires versions != {}
    ensures IsLatest(v, versions)
  {
    LatestExists(versions);
    var v :| IsLatest(v, versions);
    v
  }

  function Find(all: seq<Migration>, version: int): Option<Migration> {
    if all == [] then None
    else if all[0].version == version then Some(all[0])
    else Find(all[1..], version)
  }

  ghost function Rollback<S>(db: Db<S>, all: seq<Migration>, exec: Exec<S>): (Db<S>, bool) {
    if db.applied.Keys == {} then (db, false)
    else
      var version := Latest(db.applied.Keys);
      var target := Find(all, version);
      if target.None? then (db, false)
      else
        var s := exec(target.value.down, db.schema);
        if s.None? then (db, false) else (Db(s.value, db.applied - {version}), true)
  }

  ghost function Rollbacks<S>(db: Db<S>, all: seq<Migration>, k: nat, exec: Exec<S>): (Db<S>, bool) {
    if k == 0 then (db, true)
    else
      var (d, ok) := Rollbacks(db, all, k - 1, exec);
      if !ok then (d, false) else Rollback(d, all, exec)
  }

  /** Each down script takes back what its up script did. */
  ghost predicate DownsInvertUps<S(!new)>(all: seq<Migration>, exec: Exec<S>) {
    forall m: Migration, s: S :: m in all && exec(m.up, s).Some? ==> exec(m.down, exec(m.up, s).value) == Some(s)
  }

  lemma {:induction false} FindInAscending(all: seq<Migration>, i: nat)
    requires Ascending(all) && i < |all|
    ensures Find(all, all[i].version) == Some(all[i])
  {
    if i > 0 {
      assert all[1..][i - 1] == all[i];
      FindInAscending(all[1..], i - 1);
    }
  }

  /** One Down undoes the last of the first n scripts. */
  lemma DownUndoesLast<S(!new)>(db: Db<S>, all: seq<Migration>, j: nat, n: nat, exec: Exec<S>)
    requires Ascending(all) && DownsInvertUps(all, exec) && j < n <= |all|
    requires db.applied.Keys == Versions(all[..j]) && Upgrade(db, all[..n], exec).1
    ensures Upgrade(db, all[..n - 1], exec).1
    ensures Rollback(Upgrade(db, all[..n], exec).0, all, exec) == (Upgrade(db, all[..n - 1], exec).0, true)
  {
    hide Upgrade, Versions;
    var last := all[n - 1];
    var before, after := Upgrade(db, all[..n - 1], exec).0, Upgrade(db, all[..n], exec).0;
    UpgradeStep(db, all, n - 1, exec);
    var i := UpLeavesAPrefix(db, all, j, n - 1, exec);
    VersionsOfPrefix(all, n - 1);
    assert last.version !in before.applied.Keys;
    assert after.applied == before.applied[last.version := last.name];
    assert IsLatest(last.version, after.applied.Keys) by {
      forall w | w in before.applied ensures w <= last.version {
        BelowNext(all, n - 1, w);
      }
    }
    LatestIsUnique(Latest(after.applied.Keys), last.version, after.applied.Keys);
    FindInAscending(all, n - 1);
    assert last in all && exec(last.up, before.schema) == Some(after.schema);
    assert exec(last.down, after.schema) == Some(before.schema);
    assert after.applied - {last.version} == before.applied;
  }

  lemma BelowNext(all: seq<Migration>, i: nat, w: int)
    requires Ascending(all) && i < |all| && w in Versions(all[..i])
    ensures w < all[i].version
  {
  }

  /** k Downs after an Up restore what the first n - k scripts make. */
  lemma {:induction false} DownsRestore<S(!new)>(db: Db<S>, all: seq<Migration>, j: nat, k: nat, exec: Exec<S>)
    requires Ascending(all) && DownsInvertUps(all, exec) && j + k <= |all|
    requires db.applied.Keys == Versions(all[..j]) && Upgrade(db, all, exec).1
    ensures Upgrade(db, all[..|all| - k], exec).1
    ensures Rollbacks(Upgrade(db, all, exec).0, all, k, exec) == (Upgrade(db, all[..|all| - k], exec).0, true)
  {
    hide Upgrade, Rollback, Versions, DownsInvertUps;
    if k == 0 {
      assert all[..|all|] == all;
    } else {
      DownsRestore(db, all, j, k - 1, exec);
      DownUndoesLast(db, all, j, |all| - k + 1, exec);
    }
  }

  /** Down takes back the greatest version. That is the most recently applied one exactly when no version above it was
      already recorded when it was applied. */
  lemma {:induction false} DownTakesTheMostRecentIff<S>(db: Db<S>, all: seq<Migration>, exec: Exec<S>)
    requires Ascending(all) && Committed(db, all, exec) != []
    ensures
      var done := Committed(db, all, exec);
      var recent := done[|done| - 1].version;
      var after := Upgrade(db, all, exec).0;
      && recent in after.applied
      && (Latest(after.applied.Keys) == recent <==> forall v :: v in db.applied ==> v < recent)
  {
    CommittedInOrder(db, all, exec);
    CommittedIsRecorded(db, all, exec);
    hide Committed, Upgrade, RunScripts, Ascending;
    var done, after := Committed(db, all, exec), Upgrade(db, all, exec).0;
    assert done[|done| - 1] in done;
    GreatestOfUnion(db.applied.Keys, done, after.applied.Keys);
  }

  lemma GreatestOfUnion(earlier: set<int>, done: seq<Migration>, versions: set<int>)
    requires Ascending(done) && done != [] && versions == earlier + Versions(done)
    requires forall m :: m in done ==> m.version !in earlier
    ensures
      var recent := done[|done| - 1].version;
      && recent in versions
      && (Latest(versions) == recent <==> forall v :: v in earlier ==> v < recent)
  {
    var recent, latest := done[|done| - 1], Latest(versions);
    assert recent in done;
    assert recent.version in Versions(done);
    if latest in earlier {
      assert recent.version < latest || latest < recent.version;
    } else {
      var m :| m in done && m.version == latest;
      LastIsGreatest(done, m);
    }
  }

  lemma LastIsGreatest(all: seq<Migration>, m: Migration)
    requires Ascending(all) && m in all
    ensures m.version <= all[|all| - 1].version
  {
  }

  // ---------------------------------------------------------------- the runner

  method Insert(sorted: seq<Migration>, m: Migration) returns (r: seq<Migration>)
    requires Ascending(sorted) && forall i :: 0 <= i < |sorted| ==> sorted[i].version != m.version
    ensures Ascending(r) && forall x :: x in r <==> x in sorted || x == m
  {
    var i := |sorted|;
    while i > 0 && m.version < sorted[i - 1].version
      invariant 0 <= i <= |sorted|
      invariant forall j :: i <= j < |sorted| ==> m.version < sorted[j].version
    {
      i := i - 1;
    }
    r := sorted[..i] + [m] + sorted[i..];
  }

  /** What load returns lists the directory's scripts by version, each with its own texts. */
  ghost predicate IsLoaded(files: seq<File>, all: seq<Migration>) {
    && (forall i :: 0 <= i < |all| ==> IsMigration(files, all[i].version, all[i]))
    && (forall k :: 0 <= k < |files| && !files[k].isDir && files[k].version.Some? ==>
          exists m :: m in all && m.version == files[k].version.value)
  }

  lemma ListingIsLoaded(files: seq<File>, all: seq<Migration>)
    requires ByVersion(files).Some? && IsListing(all, ByVersion(files).value)
    ensures IsLoaded(files, all)
  {
    ByVersionReads(files);
    hide IsMigration;
    forall k | 0 <= k < |files| && !files[k].isDir && files[k].version.Some?
      ensures exists m :: m in all && m.version == files[k].version.value
    {
      var v := files[k].version.value;
      assert IsScript(files[k], v);
      assert ByVersion(files).value[v] in all;
    }
  }

  method Load(files: seq<File>) returns (all: Option<seq<Migration>>)
    ensures all.None? <==> ByVersion(files).None?
    ensures all.Some? ==> IsListing(all.value, ByVersion(files).value)
    ensures all.None? <==> Unreadable(files)
    ensures all.Some? ==> IsLoaded(files, all.value)
  {
    ByVersionReads(files);
    all := ReadScripts(files);
    hide IsListing, IsLoaded;
    if all.Some? {
      ListingIsLoaded(files, all.value);
    }
  }

  method ReadScripts(files: seq<File>) returns (all: Option<seq<Migration>>)
    ensures all.None? <==> ByVersion(files).None?
    ensures all.Some? ==> IsListing(all.value, ByVersion(files).value)
  {
    var found: map<int, Migration> := map[];
    for i := 0 to |files|
      invariant ByVersion(files[..i]) == Some(found)
    {
      assert files[..i + 1][..i] == files[..i];
      var f := files[i];
      if f.isDir || f.version.None? {
        continue;
      }
      if f.content.None? {
        FailureStays(files, i + 1);
        return None;
      }
      var v := f.version.value;
      var m := if v in found then found[v] else Migration(v, f.rest, "", "");
      found := found[v := AddScript(m, f.kind, f.content.value)];
    }
    assert files[..|files|] == files;
    VersionsAreOwnKeys(files);

    var out, rest := [], found.Keys;
    while rest != {}
      invariant rest <= found.Keys && Ascending(out)
      invariant forall m :: m in out <==> m.version in found && m.version !in rest && found[m.version] == m
      decreases |rest|
    {
      HasElement(rest);
      var v :| v in rest;
      assert found[v].version == v;
      out := Insert(out, found[v]);
      rest := rest - {v};
    }
    forall v | v in found ensures found[v] in out {
      assert found[v].version == v;
    }
    all := Some(out);
  }

  lemma {:induction false} FailureStays(files: seq<File>, i: nat)
    requires i <= |files| && ByVersion(files[..i]).None?
    ensures ByVersion(files).None?
    decreases |files|
  {
    if i == |files| {
      assert files[..i] == files;
    } else {
      assert files[..|files| - 1][..i] == files[..i];
      FailureStays(files[..|files| - 1], i);
    }
  }

  class Runner<S> {
    var schema: S
    var applied: map<int, string>

    constructor (s: S)
      ensures schema == s && applied == map[]
    {
      schema, applied := s, map[];
    }

    method Up(files: seq<File>, exec: Exec<S>) returns (ok: bool)
      modifies this
      ensures ByVersion(files).None? ==> !ok && schema == old(schema) && applied == old(applied)
      ensures ByVersion(files).Some? ==> forall all :: IsListing(all, ByVersion(files).value) ==>
        (Db(schema, applied), ok) == Upgrade(Db(old(schema), old(applied)), all, exec)
    {
      hide IsLoaded, Unreadable, ByVersion;
      var loaded := Load(files);
      if loaded.None? {
        return false;
      }
      var all := loaded.value;
      forall other | IsListing(other, ByVersion(files).value) ensures other == all {
        ListingIsUnique(other, all, ByVersion(files).value);
      }
      ghost var start := Db(schema, applied);
      for i := 0 to |all|
        invariant (Db(schema, applied), true) == Upgrade(start, all[..i], exec)
      {
        assert all[..i + 1][..i] == all[..i];
        var m := all[i];
        if m.version in applied {
          continue;
        }
        var s := exec(m.up, schema);
        if s.None? {
          StopIsFinal(start, all, i + 1, exec);
          return false;
        }
        schema, applied := s.value, applied[m.version := m.name];
      }
      assert all[..|all|] == all;
      ok := true;
    }

    method Down(files: seq<File>, exec: Exec<S>) returns (ok: bool)
      modifies this
      ensures ByVersion(files).None? ==> !ok && schema == old(schema) && applied == old(applied)
      ensures ByVersion(files).Some? ==> forall all :: IsListing(all, ByVersion(files).value) ==>
        (Db(schema, applied), ok) == Rollback(Db(old(schema), old(applied)), all, exec)
    {
      if applied.Keys == {} {
        return false;
      }
      LatestExists(applied.Keys);
      var version :| IsLatest(version, applied.Keys);
      LatestIsUnique(version, Latest(applied.Keys), applied.Keys);
      hide IsLoaded, Unreadable, ByVersion;
      var loaded := Load(files);
      if loaded.None? {
        return false;
      }
      var all := loaded.value;
      forall other | IsListing(other, ByVersion(files).value) ensures other == all {
        ListingIsUnique(other, all, ByVersion(files).value);
      }
      var i := 0;
      while i < |all| && all[i].version != version
        invariant 0 <= i <= |all|
        invariant Find(all, version) == Find(all[i..], version)
      {
        i := i + 1;
      }
      if i == |all| {
        assert all[i..] == [];
        return false;
      }
      assert all[i..][0] == all[i];
      var s := exec(all[i].down, schema);
      if s.None? {
        return false;
      }
      schema, applied := s.value, applied - {version};
      ok := true;
    }
  }

  lemma {:induction false} StopIsFinal<S>(db: Db<S>, all: seq<Migration>, i: nat, exec: Exec<S>)
    requires i <= |all| && !Upgrade(db, all[..i], exec).1
    ensures Upgrade(db, all, exec) == Upgrade(db, all[..i], exec)
    decreases |all|
  {
    if i == |all| {
      assert all[..i] == all;
    } else {
      assert all[..|all| - 1][..i] == all[..i];
      StopIsFinal(db, all[..|all| - 1], i, exec);
    }
  }
}
