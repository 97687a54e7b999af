/** The migration runner: any number of callers around one advisory lock. */
module Migration {
  import opened Prelude
  import opened Sorting

  const SUFFIX: string := ".up.sql"

  predicate IsUp(name: string) {
    |SUFFIX| <= |name| && name[|name| - |SUFFIX|..] == SUFFIX
  }

  /** `strings.TrimSuffix`. */
  function Version(name: string): string {
    if IsUp(name) then name[..|name| - |SUFFIX|] else name
  }

  function Versions(names: seq<string>): seq<string> {
    seq(|names|, i requires 0 <= i < |names| => Version(names[i]))
  }

  /** The files a directory listing contributes. */
  function UpFiles(entries: seq<string>): seq<string> {
    if entries == [] then []
    else UpFiles(entries[..|entries| - 1]) + if IsUp(entries[|entries| - 1]) then [entries[|entries| - 1]] else []
  }

  /** A migration list as the callers walk it. */
  ghost predicate FileList(files: seq<string>) {
    Distinct(files) && forall i :: 0 <= i < |files| ==> IsUp(files[i])
  }

  /** The files whose version is not recorded yet, in order. */
  function Todo(files: seq<string>, recorded: seq<string>): seq<string> {
    if files == [] then []
    else
      var last := files[|files| - 1];
      Todo(files[..|files| - 1], recorded) + if Version(last) in recorded then [] else [last]
  }

  // ----- facts about lists -----

  lemma VersionsAreInjective(a: string, b: string)
    requires IsUp(a) && IsUp(b)
    ensures Version(a) == Version(b) <==> a == b
  {
    assert a == a[..|a| - |SUFFIX|] + SUFFIX && b == b[..|b| - |SUFFIX|] + SUFFIX;
  }

  lemma VersionsAppend(names: seq<string>, name: string)
    ensures Versions(names + [name]) == Versions(names) + [Version(name)]
  {
  }

  /** What is to do for a prefix of the list comes first in what is to do. */
  lemma {:induction false} TodoOfPrefix(files: seq<string>, recorded: seq<string>, i: nat)
    requires i <= |files|
    ensures Todo(files[..i], recorded) <= Todo(files, recorded)
    decreases |files|
  {
    if i == |files| {
      assert files[..i] == files;
    } else {
      var n := |files| - 1;
      TodoOfPrefix(files[..n], recorded, i);
      assert files[..n][..i] == files[..i];
    }
  }

  lemma TodoStep(files: seq<string>, recorded: seq<string>, i: nat)
    requires i < |files|
    ensures Todo(files[..i + 1], recorded) == Todo(files[..i], recorded) + if Version(files[i]) in recorded then [] else [files[i]]
  {
    assert files[..i + 1][..i] == files[..i];
  }

  lemma {:induction false} TodoMembers(files: seq<string>, recorded: seq<string>)
    requires FileList(files)
    ensures FileList(Todo(files, recorded))
    ensures forall f :: f in Todo(files, recorded) <==> f in files && Version(f) !in recorded
  {
    if files != [] {
      var n := |files| - 1;
      TodoMembers(files[..n], recorded);
      assert files == files[..n] + [files[n]];
      assert files[n] !in files[..n];
    }
  }

  lemma {:induction false} TodoWithoutRecords(files: seq<string>)
    ensures Todo(files, []) == files
  {
    if files != [] {
      TodoWithoutRecords(files[..|files| - 1]);
    }
  }

  lemma {:induction false} NothingTodo(files: seq<string>, recorded: seq<string>)
    requires forall f :: f in files ==> Version(f) in recorded
    ensures Todo(files, recorded) == []
  {
    if files != [] {
      NothingTodo(files[..|files| - 1], recorded);
    }
  }

  /** Of two files to do, only one has a given version. */
  lemma VersionFinds(todo: seq<string>, log: seq<string>, name: string, k: nat)
    requires FileList(todo) && log <= todo && k < |todo| && todo[k] == name
    ensures Version(name) in Versions(log) <==> k < |log|
  {
    if Version(name) in Versions(log) {
      var j :| 0 <= j < |log| && Versions(log)[j] == Version(name);
      assert log[j] == todo[j];
      VersionsAreInjective(todo[j], name);
    }
    if k < |log| {
      assert Versions(log)[k] == Version(name);
    }
  }

  /** A file's version is among the versions of `log`, a prefix of what was to do,
      exactly when `log` has got past it. */
  lemma {:induction false} RecordedIffPassed(files: seq<string>, recorded: seq<string>, log: seq<string>, i: nat)
    requires FileList(files) && i < |files| && Version(files[i]) !in recorded
    requires Todo(files[..i], recorded) <= log <= Todo(files, recorded)
    ensures Version(files[i]) in Versions(log) <==> log != Todo(files[..i], recorded)
    ensures log != Todo(files[..i], recorded) <==> Todo(files[..i + 1], recorded) <= log
  {
    var before, all := Todo(files[..i], recorded), Todo(files, recorded);
    TodoMembers(files, recorded);
    TodoStep(files, recorded, i);
    TodoOfPrefix(files, recorded, i + 1);
    assert all[|before|] == files[i];
    VersionFinds(all, log, files[i], |before|);
  }

  // ----- the callers -----

  /** Where a caller stands: outside, waiting for the lock, or holding it. */
  datatype Caller =
    | Out | Waiting | Ensuring
    | Checking(i: nat) | Applying(i: nat) | Recording(i: nat) | Committing(i: nat)
    | Returned(ok: bool)

  /** `log` lists the scripts whose transaction committed, `versions` the rows of
      schema_migrations, both in commit order. */
  datatype Sys = Sys(lock: Option<nat>, log: seq<string>, versions: seq<string>, callers: seq<Caller>)

  datatype Act =
    | Call(c: nat)      // Migrate is called
    | Proceed(c: nat)   // the caller's next statement succeeds
    | Err(c: nat)       // it fails, and Migrate returns the error
    | Crash(c: nat)     // the process dies
    | Lost(c: nat)      // the commit takes effect but its acknowledgement is lost

  predicate Inside(c: Caller) {
    c.Ensuring? || c.Checking? || c.Applying? || c.Recording? || c.Committing?
  }

  /** The caller leaves: its transaction is rolled back and its lock released. */
  function Leave(s: Sys, c: nat, to: Caller): Sys
    requires c < |s.callers|
  {
    s.(lock := if s.lock == Some(c) then None else s.lock, callers := s.callers[c := to])
  }

  function Commit(s: Sys, name: string): Sys {
    s.(log := s.log + [name], versions := s.versions + [Version(name)])
  }

  function Move(s: Sys, c: nat, to: Caller): Sys
    requires c < |s.callers|
  {
    s.(callers := s.callers[c := to])
  }

  function Step(files: seq<string>, s: Sys, c: nat): Sys
    requires c < |s.callers|
  {
    match s.callers[c]
    case Waiting => if s.lock.None? then Move(s.(lock := Some(c)), c, Ensuring) else s
    case Ensuring => Move(s, c, Checking(0))
    case Checking(i) =>
      if i >= |files| then Leave(s, c, Returned(true))
      else if Version(files[i]) in s.versions then Move(s, c, Checking(i + 1))
      else Move(s, c, Applying(i))
    case Applying(i) => Move(s, c, Recording(i))
    case Recording(i) =>
      if i < |files| && Version(files[i]) in s.versions then Leave(s, c, Returned(false)) else Move(s, c, Committing(i))
    case Committing(i) => if i < |files| then Move(Commit(s, files[i]), c, Checking(i + 1)) else s
    case _ => s
  }

  function Next(files: seq<string>, s: Sys, a: Act): Sys {
    if a.c >= |s.callers| then s
    else
      var at := s.callers[a.c];
      match a
      case Call(c) => if at.Out? || at.Returned? then Move(s, c, Waiting) else s
      case Proceed(c) => Step(files, s, c)
      case Err(c) => if at.Waiting? || Inside(at) then Leave(s, c, Returned(false)) else s
      case Crash(c) => Leave(s, c, Out)
      case Lost(c) => if at.Committing? && at.i < |files| then Leave(Commit(s, files[at.i]), c, Returned(false)) else s
  }

  function Execute(files: seq<string>, s: Sys, acts: seq<Act>): Sys {
    if acts == [] then s else Next(files, Execute(files, s, acts[..|acts| - 1]), acts[|acts| - 1])
  }

  /** `n` callers and a database on which `recorded` is already applied. */
  function Start(n: nat, recorded: seq<string>): Sys {
    Sys(None, [], recorded, seq(n, _ => Out))
  }

  // ----- the invariant -----

  /** What a caller's position says about the scripts committed so far. */
  ghost predicate Standing(files: seq<string>, recorded: seq<string>, log: seq<string>, at: Caller) {
    match at
    case Checking(i) => i <= |files| && Todo(files[..i], recorded) <= log
    case Applying(i) => i < |files| && Todo(files[..i], recorded) == log && Version(files[i]) !in recorded
    case Recording(i) => i < |files| && Todo(files[..i], recorded) == log && Version(files[i]) !in recorded
    case Committing(i) => i < |files| && Todo(files[..i], recorded) == log && Version(files[i]) !in recorded
    case Returned(ok) => ok ==> log == Todo(files, recorded)
    case _ => true
  }

  ghost predicate Safe(files: seq<string>, recorded: seq<string>, s: Sys) {
    && s.log <= Todo(files, recorded)
    && s.versions == recorded + Versions(s.log)
    && (forall c :: 0 <= c < |s.callers| ==> Standing(files, recorded, s.log, s.callers[c]))
    && (forall c :: 0 <= c < |s.callers| && Inside(s.callers[c]) ==> s.lock == Some(c))
    && (s.lock.Some? ==> s.lock.value < |s.callers| && Inside(s.callers[s.lock.value]))
  }

  /** The statement a lock holder may commit is the next one to do. */
  lemma CommitIsNext(files: seq<string>, recorded: seq<string>, log: seq<string>, i: nat)
    requires FileList(files) && i < |files| && Todo(files[..i], recorded) == log && Version(files[i]) !in recorded
    ensures log + [files[i]] == Todo(files[..i + 1], recorded) <= Todo(files, recorded)
    ensures Versions(log + [files[i]]) == Versions(log) + [Version(files[i])]
  {
    TodoStep(files, recorded, i);
    TodoOfPrefix(files, recorded, i + 1);
  }

  lemma SafeAfterCheck(files: seq<string>, recorded: seq<string>, s: Sys, c: nat)
    requires FileList(files) && Safe(files, recorded, s) && c < |s.callers| && s.callers[c].Checking?
    ensures Safe(files, recorded, Step(files, s, c))
  {
    assert Standing(files, recorded, s.log, s.callers[c]);
    var i := s.callers[c].i;
    if i == |files| {
      assert files[..i] == files;
    } else {
      TodoStep(files, recorded, i);
      if Version(files[i]) !in recorded {
        RecordedIffPassed(files, recorded, s.log, i);
      }
    }
  }

  lemma CommitKeepsOthers(files: seq<string>, recorded: seq<string>, s: Sys, c: nat)
    requires FileList(files) && Safe(files, recorded, s) && c < |s.callers| && s.callers[c].Committing?
    ensures s.callers[c].i < |files|
    ensures var s', i := Commit(s, files[s.callers[c].i]), s.callers[c].i;
      && s'.log == Todo(files[..i + 1], recorded) <= Todo(files, recorded) && s'.versions == recorded + Versions(s'.log)
      && forall e :: 0 <= e < |s.callers| && e != c ==> Standing(files, recorded, s'.log, s.callers[e])
  {
    assert Standing(files, recorded, s.log, s.callers[c]);
    CommitIsNext(files, recorded, s.log, s.callers[c].i);
    forall e | 0 <= e < |s.callers| && e != c ensures Standing(files, recorded, s.log + [files[s.callers[c].i]], s.callers[e]) {
      assert Standing(files, recorded, s.log, s.callers[e]);
    }
  }

  lemma SafeAfterCommit(files: seq<string>, recorded: seq<string>, s: Sys, c: nat)
    requires FileList(files) && Safe(files, recorded, s) && c < |s.callers| && s.callers[c].Committing?
    ensures s.callers[c].i < |files|
    ensures var s' := Commit(s, files[s.callers[c].i]);
      Safe(files, recorded, Move(s', c, Checking(s.callers[c].i + 1))) && Safe(files, recorded, Leave(s', c, Returned(false)))
  {
    CommitKeepsOthers(files, recorded, s, c);
  }

  lemma SafeAfterOther(files: seq<string>, recorded: seq<string>, s: Sys, c: nat)
    requires Safe(files, recorded, s) && c < |s.callers| && !s.callers[c].Checking? && !s.callers[c].Committing?
    ensures Safe(files, recorded, Step(files, s, c))
  {
    assert Standing(files, recorded, s.log, s.callers[c]);
    assert Todo(files[..0], recorded) == [];
  }

  lemma SafeAfterStep(files: seq<string>, recorded: seq<string>, s: Sys, c: nat)
    requires FileList(files) && Safe(files, recorded, s) && c < |s.callers|
    ensures Safe(files, recorded, Step(files, s, c))
  {
    if s.callers[c].Checking? {
      SafeAfterCheck(files, recorded, s, c);
    } else if s.callers[c].Committing? {
      SafeAfterCommit(files, recorded, s, c);
    } else {
      SafeAfterOther(files, recorded, s, c);
    }
  }

  lemma {:induction false} SafeAfter(files: seq<string>, recorded: seq<string>, s: Sys, a: Act)
    requires FileList(files) && Safe(files, recorded, s)
    ensures Safe(files, recorded, Next(files, s, a))
  {
    if a.c < |s.callers| {
      if a.Proceed? {
        SafeAfterStep(files, recorded, s, a.c);
      } else if a.Lost? && s.callers[a.c].Committing? {
        SafeAfterCommit(files, recorded, s, a.c);
      }
    }
  }

  lemma {:induction false} Reachable(files: seq<string>, n: nat, recorded: seq<string>, acts: seq<Act>)
    requires FileList(files)
    ensures Safe(files, recorded, Execute(files, Start(n, recorded), acts))
  {
    if acts != [] {
      Reachable(files, n, recorded, acts[..|acts| - 1]);
      SafeAfter(files, recorded, Execute(files, Start(n, recorded), acts[..|acts| - 1]), acts[|acts| - 1]);
    }
  }

  // ----- what follows -----

  /** A file to apply: it ends in ".up.sql" and what comes before is not recorded. */
  ghost predicate Owing(name: string, recorded: seq<string>) {
    |name| >= 7 && name[|name| - 7..] == ".up.sql" && name[..|name| - 7] !in recorded
  }

  lemma {:induction false} TodoIsSorted(files: seq<string>, recorded: seq<string>)
    requires Sorted(files)
    ensures Sorted(Todo(files, recorded)) && forall f :: f in Todo(files, recorded) ==> f in files
  {
    if files != [] {
      var n := |files| - 1;
      TodoIsSorted(files[..n], recorded);
      forall f | f in Todo(files[..n], recorded) ensures Leq(f, files[n]) {
        var i :| 0 <= i < n && files[..n][i] == f;
        assert Leq(files[i], files[n]);
      }
    }
  }

  /** Scripts committed so far, said of their names alone. */
  lemma PrefixInOrder(files: seq<string>, recorded: seq<string>, log: seq<string>)
    requires FileList(files) && Sorted(files) && log <= Todo(files, recorded)
    ensures forall i, j :: 0 <= i < j < |log| ==> Precedes(log[i], log[j])
    ensures forall f :: f in log ==> f in files && Owing(f, recorded)
    ensures forall i :: 0 <= i < |log| ==> (recorded + Versions(log))[|recorded| + i] + ".up.sql" == log[i]
  {
    TodoMembers(files, recorded);
    TodoIsSorted(files, recorded);
    SortedMeans(Todo(files, recorded));
    forall f | f in log ensures f in files && Owing(f, recorded) {
      assert f in Todo(files, recorded);
    }
    forall i | 0 <= i < |log| ensures (recorded + Versions(log))[|recorded| + i] + ".up.sql" == log[i] {
      assert Owing(log[i], recorded);
    }
  }

  /** What the invariant means for the callers. */
  lemma SafeMeans(files: seq<string>, recorded: seq<string>, s: Sys)
    requires FileList(files) && Safe(files, recorded, s)
    ensures Distinct(s.log) && (recorded == [] ==> s.log <= files)
    ensures forall c :: 0 <= c < |s.callers| && s.callers[c] == Returned(true) ==> s.log == Todo(files, recorded)
    ensures forall c, e :: 0 <= c < e < |s.callers| ==> !Inside(s.callers[c]) || !Inside(s.callers[e])
  {
    TodoMembers(files, recorded);
    if recorded == [] {
      TodoWithoutRecords(files);
    }
    forall c | 0 <= c < |s.callers| && s.callers[c] == Returned(true) ensures s.log == Todo(files, recorded) {
      assert Standing(files, recorded, s.log, s.callers[c]);
    }
  }

  /** However many callers there are and wherever they fail: the committed scripts
      are a prefix of what there was to do, in file-name order and without
      repeats; the recorded versions are exactly theirs; and a caller that
      returned without an error left nothing undone. */
  lemma {:induction false} MigrationsAreSafe(files: seq<string>, n: nat, recorded: seq<string>, acts: seq<Act>)
    requires FileList(files) && Sorted(files)
    ensures var s := Execute(files, Start(n, recorded), acts);
      && s.log <= Todo(files, recorded)
      && Distinct(s.log)
      && s.versions == recorded + Versions(s.log)
      && (recorded == [] ==> s.log <= files)
      && (forall i, j :: 0 <= i < j < |s.log| ==> Precedes(s.log[i], s.log[j]))
      && (forall f :: f in s.log ==> f in files && Owing(f, recorded))
      && (forall i :: 0 <= i < |s.log| ==> s.versions[|recorded| + i] + ".up.sql" == s.log[i])
      && (forall c :: 0 <= c < |s.callers| && s.callers[c] == Returned(true) ==> s.log == Todo(files, recorded))
      && (forall c, e :: 0 <= c < e < |s.callers| ==> !Inside(s.callers[c]) || !Inside(s.callers[e]))
  {
    var s := Execute(files, Start(n, recorded), acts);
    Reachable(files, n, recorded, acts);
    SafeMeans(files, recorded, s);
    PrefixInOrder(files, recorded, s.log);
  }

  /** After the whole list is applied, no later call applies or records anything,
      whoever calls and whatever fails. */
  lemma {:induction false} RepeatAppliesNothing(files: seq<string>, recorded: seq<string>, s: Sys, acts: seq<Act>)
    requires FileList(files) && Safe(files, recorded, s) && s.log == Todo(files, recorded)
    ensures var s' := Execute(files, s, acts); s'.log == s.log && s'.versions == s.versions && Safe(files, recorded, s')
  {
    if acts != [] {
      var mid := Execute(files, s, acts[..|acts| - 1]);
      RepeatAppliesNothing(files, recorded, s, acts[..|acts| - 1]);
      SafeAfter(files, recorded, mid, acts[|acts| - 1]);
    }
  }

  // ----- nobody is stuck -----

  /** How many statements a caller has before it at most. */
  function Togo(files: seq<string>, at: Caller): nat {
    var n := 4 * |files|;
    match at
    case Waiting => n + 3
    case Ensuring => n + 2
    case Checking(i) => if i <= |files| then n - 4 * i + 1 else 0
    case Applying(i) => if i < |files| then n - 4 * i else 0
    case Recording(i) => if i < |files| then n - 4 * i - 1 else 0
    case Committing(i) => if i < |files| then n - 4 * i - 2 else 0
    case _ => 0
  }

  lemma {:induction false} ExecuteConcat(files: seq<string>, s: Sys, a: seq<Act>, b: seq<Act>)
    ensures Execute(files, s, a + b) == Execute(files, Execute(files, s, a), b)
  {
    if b == [] {
      assert a + b == a;
    } else {
      assert (a + b)[..|a + b| - 1] == a + b[..|b| - 1];
      ExecuteConcat(files, s, a, b[..|b| - 1]);
    }
  }

  /** A caller's next statement brings it closer to returning without an error. */
  lemma StepProgresses(files: seq<string>, recorded: seq<string>, s: Sys, c: nat)
    requires FileList(files) && Safe(files, recorded, s) && c < |s.callers|
    requires Inside(s.callers[c]) || (s.callers[c].Waiting? && s.lock.None?)
    ensures var at := Step(files, s, c).callers[c];
      at == Returned(true) || (Inside(at) && Togo(files, at) < Togo(files, s.callers[c]))
  {
    assert Standing(files, recorded, s.log, s.callers[c]);
    if s.callers[c].Recording? {
      RecordedIffPassed(files, recorded, s.log, s.callers[c].i);
    }
  }

  /** The lock is never left behind: whoever holds it, or finds it free, finishes
      the list if its own statements succeed, whatever happened to others before. */
  lemma {:induction false} LockHolderFinishes(files: seq<string>, recorded: seq<string>, s: Sys, c: nat) returns (acts: seq<Act>)
    requires FileList(files) && Safe(files, recorded, s) && c < |s.callers|
    requires Inside(s.callers[c]) || (s.callers[c].Waiting? && s.lock.None?)
    ensures forall a :: a in acts ==> a == Proceed(c)
    ensures var s' := Execute(files, s, acts);
      |s'.callers| == |s.callers| && s'.callers[c] == Returned(true) && s'.log == Todo(files, recorded) && s'.lock.None?
    decreases Togo(files, s.callers[c])
  {
    var one, s' := [Proceed(c)], Step(files, s, c);
    SafeAfterStep(files, recorded, s, c);
    StepProgresses(files, recorded, s, c);
    assert one[..0] == [];
    assert Execute(files, s, one[..0]) == s && Next(files, s, Proceed(c)) == s';
    if s'.callers[c] == Returned(true) {
      acts := one;
      assert Standing(files, recorded, s'.log, s'.callers[c]);
    } else {
      var rest := LockHolderFinishes(files, recorded, s', c);
      ExecuteConcat(files, s, one, rest);
      acts := one + rest;
    }
  }

  // ----- the method -----

  datatype Ack = Acked | Refused | AckLost

  /** How the statements for one file end. */
  datatype Fate = Fate(checkOk: bool, readOk: bool, beginOk: bool, scriptOk: bool, recordOk: bool, commit: Ack)

  /** What a call leaves: the scripts committed, the versions recorded, and whether
      it returned without an error. */
  datatype Left = Left(log: seq<string>, versions: seq<string>, ok: bool)

  /** An error before the commit: the transaction is rolled back. */
  predicate FailsBefore(f: Fate) {
    !f.readOk || !f.beginOk || !f.scriptOk || !f.recordOk || f.commit == Refused
  }

  /** The loop from file `i` on. */
  function WalkFrom(files: seq<string>, log: seq<string>, versions: seq<string>, fate: nat -> Fate, i: nat): Left
    decreases |files| - i
  {
    if i >= |files| then Left(log, versions, true)
    else if !fate(i).checkOk then Left(log, versions, false)
    else if Version(files[i]) in versions then WalkFrom(files, log, versions, fate, i + 1)
    else if FailsBefore(fate(i)) then Left(log, versions, false)
    else if fate(i).commit == AckLost then Left(log + [files[i]], versions + [Version(files[i])], false)
    else WalkFrom(files, log + [files[i]], versions + [Version(files[i])], fate, i + 1)
  }

  /** A whole call. */
  function Migrated(files: seq<string>, log: seq<string>, versions: seq<string>, setupOk: bool, fate: nat -> Fate): Left {
    if setupOk then WalkFrom(files, log, versions, fate, 0) else Left(log, versions, false)
  }

  // ----- a call that nobody interrupts is a run of the callers' machine -----

  /** The caller has returned and holds nothing. */
  function Done(s: Sys, c: nat, left: Left): Sys
    requires c < |s.callers|
  {
    Sys(None, left.log, left.versions, s.callers[c := Returned(left.ok)])
  }

  lemma FirstAct(files: seq<string>, s: Sys, a: Act, rest: seq<Act>)
    ensures Execute(files, s, [a] + rest) == Execute(files, Next(files, s, a), rest)
  {
    assert [a][..0] == [];
    assert Execute(files, s, [a]) == Next(files, Execute(files, s, []), a);
    ExecuteConcat(files, s, [a], rest);
  }

  /** The caller, moved on. */
  lemma MovedTwice(s: Sys, c: nat, a: Caller, b: Caller)
    requires c < |s.callers|
    ensures Move(Move(s, c, a), c, b) == Move(s, c, b)
    ensures s.lock == Some(c) ==> Leave(Move(s, c, a), c, b) == Leave(s, c, b)
    ensures forall left :: Done(Move(s, c, a), c, left) == Done(s, c, left)
  {
    assert s.callers[c := a][c := b] == s.callers[c := b];
    forall left ensures Done(Move(s, c, a), c, left) == Done(s, c, left) {
      assert s.callers[c := a][c := Returned(left.ok)] == s.callers[c := Returned(left.ok)];
    }
  }

  /** One file that is not recorded yet, from the check to the commit or an error. */
  lemma AppliesOne(files: seq<string>, s: Sys, c: nat, i: nat, f: Fate) returns (acts: seq<Act>)
    requires c < |s.callers| && i < |files| && s.callers[c] == Checking(i) && s.lock == Some(c) && Version(files[i]) !in s.versions
    ensures forall a :: a in acts ==> a.c == c
    ensures Execute(files, s, acts) == Applied(s, c, files[i], i, f)
  {
    var s1 := Move(s, c, Applying(i));
    var rest: seq<Act>;
    MovedTwice(s, c, Applying(i), Recording(i));
    if !f.readOk || !f.beginOk || !f.scriptOk {
      MovedTwice(s, c, Applying(i), Returned(false));
      FirstAct(files, s1, Err(c), []);
      rest := [Err(c)] + [];
    } else {
      var more := RecordsOne(files, s, c, i, f);
      FirstAct(files, s1, Proceed(c), more);
      rest := [Proceed(c)] + more;
    }
    FirstAct(files, s, Proceed(c), rest);
    acts := [Proceed(c)] + rest;
  }

  /** What the transaction for one file comes to. */
  function Applied(s: Sys, c: nat, file: string, i: nat, f: Fate): Sys
    requires c < |s.callers|
  {
    if FailsBefore(f) then Leave(s, c, Returned(false))
    else if f.commit == AckLost then Leave(Commit(s, file), c, Returned(false))
    else Move(Commit(s, file), c, Checking(i + 1))
  }

  /** The script went through; its version is recorded. */
  lemma RecordsOne(files: seq<string>, s: Sys, c: nat, i: nat, f: Fate) returns (acts: seq<Act>)
    requires c < |s.callers| && i < |files| && s.lock == Some(c) && Version(files[i]) !in s.versions && f.readOk && f.beginOk && f.scriptOk
    ensures forall a :: a in acts ==> a.c == c
    ensures Execute(files, Move(s, c, Recording(i)), acts) == Applied(s, c, files[i], i, f)
  {
    var s2 := Move(s, c, Recording(i));
    MovedTwice(s, c, Recording(i), Committing(i));
    if !f.recordOk {
      MovedTwice(s, c, Recording(i), Returned(false));
      FirstAct(files, s2, Err(c), []);
      acts := [Err(c)] + [];
    } else {
      var last := CommitsOne(files, s, c, i, f);
      assert Next(files, s2, Proceed(c)) == Move(s, c, Committing(i));
      FirstAct(files, s2, Proceed(c), [last] + []);
      acts := [Proceed(c)] + ([last] + []);
    }
  }

  lemma CommitsOne(files: seq<string>, s: Sys, c: nat, i: nat, f: Fate) returns (last: Act)
    requires c < |s.callers| && i < |files| && s.lock == Some(c) && f.readOk && f.beginOk && f.scriptOk && f.recordOk
    ensures last.c == c && Execute(files, Move(s, c, Committing(i)), [last] + []) == Applied(s, c, files[i], i, f)
  {
    var s3 := Move(s, c, Committing(i));
    MovedTwice(s, c, Committing(i), Returned(false));
    MovedTwice(Commit(s, files[i]), c, Committing(i), Checking(i + 1));
    MovedTwice(Commit(s, files[i]), c, Committing(i), Returned(false));
    last := if f.commit == Refused then Err(c) else if f.commit == AckLost then Lost(c) else Proceed(c);
    FirstAct(files, s3, last, []);
  }

  lemma {:induction false} WalkIsARun(files: seq<string>, s: Sys, c: nat, fate: nat -> Fate, i: nat) returns (acts: seq<Act>)
    requires c < |s.callers| && i <= |files| && s.callers[c] == Checking(i) && s.lock == Some(c)
    ensures forall a :: a in acts ==> a.c == c
    ensures Execute(files, s, acts) == Done(s, c, WalkFrom(files, s.log, s.versions, fate, i))
    decreases |files| - i
  {
    if i == |files| || !fate(i).checkOk {
      var only := if i == |files| then Proceed(c) else Err(c);
      acts := [only] + [];
      FirstAct(files, s, only, []);
    } else if Version(files[i]) in s.versions {
      var s' := Move(s, c, Checking(i + 1));
      MovedTwice(s, c, Checking(i + 1), Out);
      var rest := WalkIsARun(files, s', c, fate, i + 1);
      acts := [Proceed(c)] + rest;
      FirstAct(files, s, Proceed(c), rest);
    } else {
      var one := AppliesOne(files, s, c, i, fate(i));
      if FailsBefore(fate(i)) || fate(i).commit == AckLost {
        acts := one;
      } else {
        var s' := Move(Commit(s, files[i]), c, Checking(i + 1));
        MovedTwice(Commit(s, files[i]), c, Checking(i + 1), Out);
        var rest := WalkIsARun(files, s', c, fate, i + 1);
        ExecuteConcat(files, s, one, rest);
        acts := one + rest;
      }
    }
  }

  /** A call that finds the lock free and is not interrupted is a run of the callers'
      machine: what is proved of all callers holds of `Migrate`. */
  lemma {:induction false} MigrateIsARun(files: seq<string>, s: Sys, c: nat, setupOk: bool, fate: nat -> Fate) returns (acts: seq<Act>)
    requires c < |s.callers| && (s.callers[c].Out? || s.callers[c].Returned?) && s.lock.None?
    ensures forall a :: a in acts ==> a.c == c
    ensures Execute(files, s, acts) == Done(s, c, Migrated(files, s.log, s.versions, setupOk, fate))
  {
    var s1 := Move(s, c, Waiting);
    var s2 := Move(s.(lock := Some(c)), c, Ensuring);
    MovedTwice(s.(lock := Some(c)), c, Waiting, Ensuring);
    MovedTwice(s.(lock := Some(c)), c, Ensuring, Checking(0));
    MovedTwice(s.(lock := Some(c)), c, Ensuring, Returned(false));
    MovedTwice(s.(lock := Some(c)), c, Checking(0), Out);
    assert Next(files, s, Call(c)) == s1 && Next(files, s1, Proceed(c)) == s2;
    var rest;
    if setupOk {
      var s3 := Move(s.(lock := Some(c)), c, Checking(0));
      var walk := WalkIsARun(files, s3, c, fate, 0);
      rest := [Proceed(c)] + walk;
      FirstAct(files, s2, Proceed(c), walk);
    } else {
      rest := [Err(c)] + [];
      FirstAct(files, s2, Err(c), []);
    }
    acts := [Call(c)] + ([Proceed(c)] + rest);
    FirstAct(files, s1, Proceed(c), rest);
    FirstAct(files, s, Call(c), [Proceed(c)] + rest);
  }

  // ----- what a call achieves -----

  /** The first `k` things to do have been done since `log0` and `recorded`. */
  ghost predicate Through(todo: seq<string>, k: nat, log0: seq<string>, recorded: seq<string>, log: seq<string>, versions: seq<string>) {
    k <= |todo| && log == log0 + todo[..k] && versions == recorded + Versions(todo[..k])
  }

  /** One round of the loop: the file's version is recorded already exactly when
      it was to begin with; otherwise the file is the next thing to do. */
  lemma WalkStep(files: seq<string>, recorded: seq<string>, i: nat, k: nat)
    requires FileList(files) && i < |files|
    requires var todo := Todo(files, recorded); k <= |todo| && todo[..k] == Todo(files[..i], recorded)
    ensures var todo, name := Todo(files, recorded), files[i];
      if Version(name) in recorded + Versions(todo[..k]) then todo[..k] == Todo(files[..i + 1], recorded)
      else (k < |todo| && todo[..k + 1] == todo[..k] + [name] == Todo(files[..i + 1], recorded))
  {
    var todo := Todo(files, recorded);
    TodoStep(files, recorded, i);
    if Version(files[i]) !in recorded {
      RecordedIffPassed(files, recorded, todo[..k], i);
      NextTodo(files, recorded, i, k);
    }
  }

  lemma NextTodo(files: seq<string>, recorded: seq<string>, i: nat, k: nat)
    requires FileList(files) && i < |files| && Version(files[i]) !in recorded
    requires var todo := Todo(files, recorded); k <= |todo| && todo[..k] == Todo(files[..i], recorded)
    ensures var todo := Todo(files, recorded);
      k < |todo| && todo[..k + 1] == todo[..k] + [files[i]] == Todo(files[..i + 1], recorded)
  {
    CommitIsNext(files, recorded, Todo(files, recorded)[..k], i);
  }

  lemma ThroughNext(todo: seq<string>, k: nat, log0: seq<string>, recorded: seq<string>, log: seq<string>, versions: seq<string>, name: string)
    requires Through(todo, k, log0, recorded, log, versions)
    requires k < |todo| && todo[..k + 1] == todo[..k] + [name]
    ensures Through(todo, k + 1, log0, recorded, log + [name], versions + [Version(name)])
  {
    VersionsAppend(todo[..k], name);
    assert log0 + (todo[..k] + [name]) == (log0 + todo[..k]) + [name];
    var v := Versions(todo[..k]);
    assert recorded + (v + [Version(name)]) == (recorded + v) + [Version(name)];
  }

  lemma {:induction false} UpFilesAreAList(entries: seq<string>)
    requires Distinct(entries)
    ensures FileList(UpFiles(entries))
    ensures forall f :: f in UpFiles(entries) <==> f in entries && IsUp(f)
  {
    if entries != [] {
      var n := |entries| - 1;
      UpFilesAreAList(entries[..n]);
      assert entries == entries[..n] + [entries[n]];
      assert entries[n] !in entries[..n];
    }
  }

  /** The list the loop walks: every `.up.sql` entry once, in name order. */
  lemma {:induction false} SortedUpFiles(entries: seq<string>)
    requires Distinct(entries)
    ensures var files := Sort(UpFiles(entries));
      && FileList(files) && Sorted(files)
      && (forall f :: f in files <==> f in entries && |f| >= 7 && f[|f| - 7..] == ".up.sql")
      && forall i, j :: 0 <= i < j < |files| ==> files[i] != files[j] && Precedes(files[i], files[j])
  {
    var up := UpFiles(entries);
    UpFilesAreAList(entries);
    SortSorts(up);
    SortedMeans(Sort(up));
    MultisetDecidesNames(up, Sort(up));
    forall f ensures f in Sort(up) <==> f in up {
      assert f in Sort(up) <==> f in Names(Sort(up));
      assert f in up <==> f in Names(up);
    }
  }

  // ----- what a call commits, said of file names alone -----

  lemma OwingMeans(entries: seq<string>, recorded: seq<string>)
    requires Distinct(entries)
    ensures var todo := Todo(Sort(UpFiles(entries)), recorded);
      && (forall f :: f in todo <==> f in entries && Owing(f, recorded))
      && forall i, j :: 0 <= i < j < |todo| ==> todo[i] != todo[j] && Precedes(todo[i], todo[j])
  {
    var files := Sort(UpFiles(entries));
    SortedUpFiles(entries);
    TodoMembers(files, recorded);
    TodoIsSorted(files, recorded);
    SortedMeans(Todo(files, recorded));
  }

  /** The scripts a call commits: new ones only, in the order of the first difference
      of their names, none before one that comes earlier, each with its own version. */
  lemma {:induction false} CommitsInOrder(entries: seq<string>, k: nat, log0: seq<string>, recorded: seq<string>, log: seq<string>, versions: seq<string>)
    requires Distinct(entries) && Through(Todo(Sort(UpFiles(entries)), recorded), k, log0, recorded, log, versions)
    ensures log0 <= log && recorded <= versions && |log| - |log0| == |versions| - |recorded|
    ensures var added, stems := log[|log0|..], versions[|recorded|..];
      && (forall i, j :: 0 <= i < j < |added| ==> added[i] != added[j] && Precedes(added[i], added[j]))
      && (forall f :: f in added ==> f in entries && Owing(f, recorded))
      && (forall e, f :: e in entries && Owing(e, recorded) && f in added && Precedes(e, f) ==> e in added)
      && (forall i :: 0 <= i < |added| ==> stems[i] + ".up.sql" == added[i])
      && (k == |Todo(Sort(UpFiles(entries)), recorded)| ==> forall e :: e in entries && Owing(e, recorded) ==> e in added)
  {
    var todo, added, stems := Todo(Sort(UpFiles(entries)), recorded), log[|log0|..], versions[|recorded|..];
    OwingMeans(entries, recorded);
    assert added == todo[..k] && stems == Versions(todo[..k]);
    forall e, f | e in entries && Owing(e, recorded) && f in added && Precedes(e, f) ensures e in added {
      EarlierIsBefore(todo, k, e, f);
    }
    forall i | 0 <= i < |added| ensures stems[i] + ".up.sql" == added[i] {
      assert Owing(added[i], recorded);
    }
  }

  lemma EarlierIsBefore(todo: seq<string>, k: nat, e: string, f: string)
    requires forall i, j :: 0 <= i < j < |todo| ==> todo[i] != todo[j] && Precedes(todo[i], todo[j])
    requires k <= |todo| && e in todo && f in todo[..k] && Precedes(e, f)
    ensures e in todo[..k]
  {
    var i :| 0 <= i < |todo| && todo[i] == e;
    var j :| 0 <= j < k && todo[j] == f;
    if i > j {
      LeqIsLexicographic(e, f);
      LeqIsLexicographic(f, e);
      assert Precedes(todo[j], todo[i]);
      LeqAntisymmetric(e, f);
    }
    assert todo[..k][i] == e;
  }

  class Schema {
    var log: seq<string>
    var versions: seq<string>

    /** `Migrate` while it holds the lock: list, filter, sort, then check, apply and
        record one file at a time. `setupOk` covers everything before the loop. */
    method Migrate(entries: seq<string>, setupOk: bool, fate: nat -> Fate) returns (ok: bool)
      requires Distinct(entries)
      modifies this
      ensures var todo := Todo(Sort(UpFiles(entries)), old(versions));
        exists k: nat :: Through(todo, k, old(log), old(versions), log, versions) && (ok ==> k == |todo|)
      ensures ok ==> Todo(Sort(UpFiles(entries)), versions) == []
      ensures Left(log, versions, ok) == Migrated(Sort(UpFiles(entries)), old(log), old(versions), setupOk, fate)
      ensures old(log) <= log && old(versions) <= versions && |log| - |old(log)| == |versions| - |old(versions)|
      ensures var added, stems := log[|old(log)|..], versions[|old(versions)|..];
        && (forall i, j :: 0 <= i < j < |added| ==> added[i] != added[j] && Precedes(added[i], added[j]))
        && (forall f :: f in added ==> f in entries && Owing(f, old(versions)))
        && (forall e, f :: e in entries && Owing(e, old(versions)) && f in added && Precedes(e, f) ==> e in added)
        && (forall i :: 0 <= i < |added| ==> stems[i] + ".up.sql" == added[i])
        && (ok ==> forall e :: e in entries && Owing(e, old(versions)) ==> e in added)
    {
      if !setupOk {
        assert Through(Todo(Sort(UpFiles(entries)), versions), 0, log, versions, log, versions);
        CommitsInOrder(entries, 0, log, versions, log, versions);
        return false;
      }
      var files := List(entries);
      ghost var recorded := versions;
      ghost var before := log;
      ok := Walk(files, fate);
      ghost var k: nat :| Through(Todo(files, recorded), k, before, recorded, log, versions) && (ok ==> k == |Todo(files, recorded)|);
      CommitsInOrder(entries, k, before, recorded, log, versions);
      if ok {
        ghost var todo := Todo(files, recorded);
        assert todo[..|todo|] == todo;
        AllRecorded(files, recorded);
      }
    }

    /** The `.up.sql` entries in file-name order. */
    static method List(entries: seq<string>) returns (files: seq<string>)
      requires Distinct(entries)
      ensures files == Sort(UpFiles(entries)) && FileList(files)
      ensures forall f :: f in files <==> f in entries && |f| >= 7 && f[|f| - 7..] == ".up.sql"
      ensures forall i, j :: 0 <= i < j < |files| ==> files[i] != files[j] && Precedes(files[i], files[j])
    {
      files := [];
      var i := 0;
      while i < |entries|
        invariant 0 <= i <= |entries|
        invariant files == UpFiles(entries[..i])
      {
        assert entries[..i + 1][..i] == entries[..i];
        if IsUp(entries[i]) {
          files := files + [entries[i]];
        }
        i := i + 1;
      }
      assert entries[..i] == entries;
      SortedUpFiles(entries);
      files := Sort(files);
    }

    method Walk(files: seq<string>, fate: nat -> Fate) returns (ok: bool)
      requires FileList(files)
      modifies this
      ensures var todo := Todo(files, old(versions));
        exists k: nat :: Through(todo, k, old(log), old(versions), log, versions) && (ok ==> k == |todo|)
      ensures Left(log, versions, ok) == WalkFrom(files, old(log), old(versions), fate, 0)
    {
      ghost var todo, k: nat := Todo(files, versions), 0;
      var i := 0;
      while i < |files|
        invariant 0 <= i <= |files|
        invariant Through(todo, k, old(log), old(versions), log, versions)
        invariant todo[..k] == Todo(files[..i], old(versions))
        invariant WalkFrom(files, log, versions, fate, i) == WalkFrom(files, old(log), old(versions), fate, 0)
      {
        WalkStep(files, old(versions), i, k);
        var name, f := files[i], fate(i);
        if !f.checkOk {
          return false;
        }
        if Version(name) in versions {
          i := i + 1;
          continue;
        }
        if !f.readOk || !f.beginOk || !f.scriptOk || !f.recordOk || f.commit == Refused {
          return false;
        }
        ThroughNext(todo, k, old(log), old(versions), log, versions, name);
        log, versions, k := log + [name], versions + [Version(name)], k + 1;
        assert Through(todo, k, old(log), old(versions), log, versions);
        if f.commit == AckLost {
          return false;
        }
        i := i + 1;
      }
      assert files[..i] == files;
      return true;
    }
  }

  /** With everything to do done, nothing is left to do. */
  lemma AllRecorded(files: seq<string>, recorded: seq<string>)
    requires FileList(files)
    ensures Todo(files, recorded + Versions(Todo(files, recorded))) == []
  {
    var todo := Todo(files, recorded);
    TodoMembers(files, recorded);
    forall f | f in files ensures Version(f) in recorded + Versions(todo) {
      if Version(f) !in recorded {
        var j :| 0 <= j < |todo| && todo[j] == f;
        assert Versions(todo)[j] == Version(f);
      }
    }
    NothingTodo(files, recorded + Versions(todo));
  }
}
