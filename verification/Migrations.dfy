/** The migration runner: transactional files and concurrent index files, with failures and crashes at every
    statement. */
module Migrations {
  import opened Common

  type FileName = string
  type IndexName = string

  /** What a file does; a transactional file may drop indexes, whatever else it changes. SHA-256 is taken to
      be injective, so the content stands for its checksum. */
  datatype Content =
    | Transactional(sql: string, drops: set<IndexName>)
    | ConcurrentIndex(index: IndexName, definition: string)
    | Malformed(error: string)

  datatype File = File(name: FileName, content: Content)

  /** The comment that claims an index for one file and checksum. */
  datatype Marker = Marker(name: FileName, checksum: Content)

  datatype Index = Index(definition: string, valid: bool, ready: bool, marker: Option<Marker>)

  /** `effects` lists the transactional files whose SQL was committed, in order. */
  datatype Database = Database(
    applied: map<FileName, Content>, effects: seq<File>, indexes: map<IndexName, Index>)

  // ------------------------------------------------------------------ fates

  /** A statement succeeds, has no effect and fails, or takes effect when the runner is already gone. */
  datatype Fate = Done | Lost | Cut

  /** A failed concurrent build leaves nothing or an invalid index behind. */
  datatype BuildFate = Built | NothingBuilt | InvalidLeft(ready: bool) | BuiltUnseen

  datatype FileFate = FileFate(readable: bool, drop: Fate, build: BuildFate, comment: Fate, record: Fate)

  const CLEAN := FileFate(true, Done, Built, Done, Done)

  datatype Outcome = Continue | Stopped(error: string)

  const INTERRUPTED := Stopped("interrupted")

  predicate Live(index: Index) { index.valid && index.ready }

  // ---------------------------------------------------------------- one file

  /** INSERT INTO _migrations. */
  function Recorded(db: Database, f: File, fate: Fate): (Outcome, Database) {
    (if fate.Done? then Continue else INTERRUPTED,
     if fate.Lost? then db else db.(applied := db.applied[f.name := f.content]))
  }

  /** BEGIN, the file's SQL, the record, COMMIT. */
  function Committed(db: Database, f: File, fate: Fate): (Outcome, Database)
    requires f.content.Transactional?
  {
    (if fate.Done? then Continue else INTERRUPTED,
     if fate.Lost? then db
     else Database(db.applied[f.name := f.content], db.effects + [f], db.indexes - f.content.drops))
  }

  /** COMMENT ON INDEX, then the record. */
  function MarkedAndRecorded(db: Database, f: File, fate: FileFate): (Outcome, Database)
    requires f.content.ConcurrentIndex? && f.content.index in db.indexes
  {
    var name := f.content.index;
    var marked := db.(indexes := db.indexes[name := db.indexes[name].(marker := Some(Marker(f.name, f.content)))]);
    if fate.comment.Lost? then (INTERRUPTED, db)
    else if fate.comment.Cut? then (INTERRUPTED, marked)
    else Recorded(marked, f, fate.record)
  }

  /** CREATE INDEX CONCURRENTLY on a name that is free, and what follows. */
  function BuiltAndRecorded(db: Database, f: File, fate: FileFate): (Outcome, Database)
    requires f.content.ConcurrentIndex?
  {
    var name := f.content.index;
    var built := db.(indexes := db.indexes[name := Index(f.content.definition, true, true, None)]);
    match fate.build
    case NothingBuilt => (INTERRUPTED, db)
    case InvalidLeft(ready) =>
      (INTERRUPTED, db.(indexes := db.indexes[name := Index(f.content.definition, false, ready, None)]))
    case BuiltUnseen => (INTERRUPTED, built)
    case Built => MarkedAndRecorded(built, f, fate)
  }

  function IndexFile(db: Database, f: File, fate: FileFate): (Outcome, Database)
    requires f.content.ConcurrentIndex?
  {
    var name := f.content.index;
    if name in db.indexes && Live(db.indexes[name]) then
      if db.indexes[name].marker != Some(Marker(f.name, f.content))
      then (Stopped("concurrent index marker mismatch"), db)
      else Recorded(db, f, fate.record)
    else if name in db.indexes then
      var dropped := db.(indexes := db.indexes - {name});
      if fate.drop.Lost? then (INTERRUPTED, db)
      else if fate.drop.Cut? then (INTERRUPTED, dropped)
      else BuiltAndRecorded(dropped, f, fate)
    else BuiltAndRecorded(db, f, fate)
  }

  function Applied(db: Database, f: File, fate: FileFate): (Outcome, Database) {
    if f.content.Malformed? then (Stopped(f.content.error), db)
    else if !fate.readable then (INTERRUPTED, db)
    else if f.name in db.applied then
      (if db.applied[f.name] == f.content then Continue else Stopped("migration checksum changed"), db)
    else if f.content.Transactional? then Committed(db, f, fate.record)
    else IndexFile(db, f, fate)
  }

  /** One run over the directory's files in name order; files past the given fates meet none. */
  function Ran(db: Database, files: seq<File>, fates: seq<FileFate>): (Outcome, Database)
    decreases |files|
  {
    if files == [] then (Continue, db)
    else
      var (outcome, after) := Applied(db, files[0], if fates == [] then CLEAN else fates[0]);
      if outcome.Stopped? then (outcome, after)
      else Ran(after, files[1..], if fates == [] then [] else fates[1..])
  }

  class Runner {
    var applied: map<FileName, Content>
    var effects: seq<File>
    var indexes: map<IndexName, Index>

    constructor (db: Database)
      ensures Db() == db
    {
      applied, effects, indexes := db.applied, db.effects, db.indexes;
    }

    function Db(): Database
      reads this
    {
      Database(applied, effects, indexes)
    }

    method RecordFile(f: File, fate: Fate) returns (outcome: Outcome)
      modifies this`applied
      ensures (outcome, Db()) == Recorded(old(Db()), f, fate)
    {
      if fate.Lost? {
        return INTERRUPTED;
      }
      applied := applied[f.name := f.content];
      return if fate.Done? then Continue else INTERRUPTED;
    }

    /** prepareConcurrentIndexTarget: true when the index is there already and this file's. */
    method PrepareConcurrentIndexTarget(name: IndexName, marker: Marker, drop: Fate)
      returns (outcome: Outcome, executed: bool)
      modifies this`indexes
      ensures
        var before := old(indexes);
        if name in before && Live(before[name]) then
          && indexes == before
          && (before[name].marker == Some(marker) ==> outcome == Continue && executed)
          && (before[name].marker != Some(marker) ==> outcome == Stopped("concurrent index marker mismatch"))
        else
          && (outcome == Continue ==> !executed && indexes == before - {name})
          && (outcome == Continue <==> name in before ==> drop.Done?)
          && (outcome != Continue ==> outcome == INTERRUPTED && indexes == if drop.Lost? then before else before - {name})
    {
      executed := false;
      if name !in indexes {
        assert indexes - {name} == indexes;
        return Continue, false;
      }
      if Live(indexes[name]) {
        if indexes[name].marker != Some(marker) {
          return Stopped("concurrent index marker mismatch"), false;
        }
        return Continue, true;
      }
      if drop.Lost? {
        return INTERRUPTED, false;
      }
      indexes := indexes - {name};
      outcome := if drop.Done? then Continue else INTERRUPTED;
    }

    method ApplyIndexFile(f: File, fate: FileFate) returns (outcome: Outcome)
      requires f.content.ConcurrentIndex?
      modifies this
      ensures (outcome, Db()) == IndexFile(old(Db()), f, fate)
    {
      var name, marker := f.content.index, Marker(f.name, f.content);
      var prepared, executed := PrepareConcurrentIndexTarget(name, marker, fate.drop);
      if prepared.Stopped? {
        return prepared;
      }
      if !executed {
        assert name !in old(indexes) ==> old(indexes) - {name} == old(indexes);
        if fate.build.NothingBuilt? {
          return INTERRUPTED;
        }
        if fate.build.InvalidLeft? {
          indexes := indexes[name := Index(f.content.definition, false, fate.build.ready, None)];
          return INTERRUPTED;
        }
        indexes := indexes[name := Index(f.content.definition, true, true, None)];
        if fate.build.BuiltUnseen? || fate.comment.Lost? {
          return INTERRUPTED;
        }
        indexes := indexes[name := indexes[name].(marker := Some(marker))];
        if fate.comment.Cut? {
          return INTERRUPTED;
        }
      }
      outcome := RecordFile(f, fate.record);
    }

    method ApplyFile(f: File, fate: FileFate) returns (outcome: Outcome)
      modifies this
      ensures (outcome, Db()) == Applied(old(Db()), f, fate)
    {
      if f.content.Malformed? {
        return Stopped(f.content.error);
      }
      if !fate.readable {
        return INTERRUPTED;
      }
      if f.name in applied {
        return if applied[f.name] == f.content then Continue else Stopped("migration checksum changed");
      }
      if f.content.Transactional? {
        if fate.record.Lost? {
          return INTERRUPTED;
        }
        effects := effects + [f];
        indexes := indexes - f.content.drops;
        outcome := RecordFile(f, fate.record);
      } else {
        outcome := ApplyIndexFile(f, fate);
      }
    }

    method RunMigrations(files: seq<File>, fates: seq<FileFate>) returns (outcome: Outcome)
      modifies this
      ensures (outcome, Db()) == Ran(old(Db()), files, fates)
      ensures outcome.Continue? ==> AllApplied(Db(), files)
    {
      SuccessMeansApplied(Db(), files, fates);
      for i := 0 to |files|
        invariant Ran(Db(), files[i..], RestOf(fates, i)) == Ran(old(Db()), files, fates)
      {
        assert files[i..][0] == files[i] && files[i..][1..] == files[i + 1..];
        RestTail(fates, i);
        outcome := ApplyFile(files[i], FateAt(fates, i));
        if outcome.Stopped? {
          return;
        }
      }
      outcome := Continue;
    }
  }

  function FateAt(fates: seq<FileFate>, i: nat): FileFate { if i < |fates| then fates[i] else CLEAN }

  function RestOf(fates: seq<FileFate>, i: nat): seq<FileFate> { if i <= |fates| then fates[i..] else [] }

  lemma RestTail(fates: seq<FileFate>, i: nat)
    ensures
      var rest := RestOf(fates, i);
      (if rest == [] then CLEAN else rest[0]) == FateAt(fates, i)
      && (if rest == [] then [] else rest[1..]) == RestOf(fates, i + 1)
  {}

  // ------------------------------------------------------------ what is kept

  /** A recorded file has its effect: an index file its live index with its own marker, unless a committed file
      has dropped that, a transactional file its commit; and every commit is recorded, once. */
  ghost predicate Inv(db: Database) {
    && (forall name :: name in db.applied ==> HasEffect(db, File(name, db.applied[name])))
    && (forall i :: 0 <= i < |db.effects| ==> IsApplied(db, db.effects[i]))
    && (forall i, j :: 0 <= i < j < |db.effects| ==> db.effects[i].name != db.effects[j].name)
  }

  predicate IsApplied(db: Database, f: File) { f.name in db.applied && db.applied[f.name] == f.content }

  predicate Drops(f: File, index: IndexName) { f.content.Transactional? && index in f.content.drops }

  /** A file committed after the first `from` drops the index. */
  predicate DroppedSince(db: Database, index: IndexName, from: nat) {
    exists i :: from <= i < |db.effects| && Drops(db.effects[i], index)
  }

  predicate HasEffect(db: Database, f: File) {
    match f.content
    case Transactional(_, _) => f in db.effects
    case ConcurrentIndex(index, _) =>
      || (index in db.indexes && Live(db.indexes[index]) && db.indexes[index].marker == Some(Marker(f.name, f.content)))
      || DroppedSince(db, index, 0)
    case Malformed(_) => false
  }

  /** Nothing recorded is forgotten, no commit undone, and no live index dropped or changed, but by a file that
      has been committed and says so. */
  ghost predicate Preserves(before: Database, after: Database) {
    && (forall name :: name in before.applied ==> IsApplied(after, File(name, before.applied[name])))
    && before.effects <= after.effects
    && (forall name :: name in before.indexes && Live(before.indexes[name]) ==>
          || (name in after.indexes && after.indexes[name] == before.indexes[name])
          || DroppedSince(after, name, |before.effects|))
  }

  lemma CommitDrops(db: Database, f: File, fate: FileFate, index: IndexName)
    requires f.content.Transactional? && index in db.indexes && index !in Applied(db, f, fate).1.indexes
    ensures DroppedSince(Applied(db, f, fate).1, index, |db.effects|)
  {
    assert Drops(Applied(db, f, fate).1.effects[|db.effects|], index);
  }

  lemma TransactionalPreserves(db: Database, f: File, fate: FileFate)
    requires f.content.Transactional?
    ensures Preserves(db, Applied(db, f, fate).1)
  {
    forall index | index in db.indexes && index !in Applied(db, f, fate).1.indexes
      ensures DroppedSince(Applied(db, f, fate).1, index, |db.effects|)
    {
      CommitDrops(db, f, fate, index);
    }
  }

  /** Only the named index differs, and what is recorded is this file. */
  predicate Touches(before: Database, after: Database, f: File, name: IndexName) {
    && after.effects == before.effects
    && (after.applied == before.applied || after.applied == before.applied[f.name := f.content])
    && after.indexes - {name} == before.indexes - {name}
  }

  lemma BuildTouches(db: Database, f: File, fate: FileFate)
    requires f.content.ConcurrentIndex?
    ensures Touches(db, BuiltAndRecorded(db, f, fate).1, f, f.content.index)
  {}

  /** An index file touches its own index, and that only when it is not live. */
  lemma IndexFileTouches(db: Database, f: File, fate: FileFate)
    requires f.content.ConcurrentIndex?
    ensures
      var after, name := IndexFile(db, f, fate).1, f.content.index;
      && Touches(db, after, f, name)
      && (name in db.indexes && Live(db.indexes[name]) ==> after.indexes == db.indexes)
  {
    BuildTouches(db, f, fate);
    BuildTouches(db.(indexes := db.indexes - {f.content.index}), f, fate);
    assert db.indexes - {f.content.index} - {f.content.index} == db.indexes - {f.content.index};
  }

  lemma TouchesOnly(before: Database, after: Database, f: File, name: IndexName, other: IndexName)
    requires Touches(before, after, f, name) && other != name
    ensures other in after.indexes <==> other in before.indexes
    ensures other in before.indexes ==> after.indexes[other] == before.indexes[other]
  {
    assert other in after.indexes - {name} <==> other in before.indexes - {name};
    assert other in before.indexes ==> (after.indexes - {name})[other] == (before.indexes - {name})[other];
  }

  /** The runner itself drops and changes no live index. */
  lemma IndexFilePreserves(db: Database, f: File, fate: FileFate)
    requires !f.content.Transactional?
    ensures Preserves(db, Applied(db, f, fate).1) && Applied(db, f, fate).1.effects == db.effects
  {
    if f.content.ConcurrentIndex? {
      IndexFileTouches(db, f, fate);
      forall other | other in db.indexes && Live(db.indexes[other]) && f.name !in db.applied
        ensures other in IndexFile(db, f, fate).1.indexes && IndexFile(db, f, fate).1.indexes[other] == db.indexes[other]
      {
        if other != f.content.index {
          TouchesOnly(db, IndexFile(db, f, fate).1, f, f.content.index, other);
        }
      }
    }
  }

  lemma FilePreserves(db: Database, f: File, fate: FileFate)
    ensures Preserves(db, Applied(db, f, fate).1)
  {
    if f.content.Transactional? {
      TransactionalPreserves(db, f, fate);
    } else {
      IndexFilePreserves(db, f, fate);
    }
  }

  lemma DroppedStaysDropped(before: Database, after: Database, index: IndexName, from: nat)
    requires before.effects <= after.effects && DroppedSince(before, index, from)
    ensures DroppedSince(after, index, from)
  {
    var i :| from <= i < |before.effects| && Drops(before.effects[i], index);
    assert after.effects[i] == before.effects[i];
  }

  lemma EffectsStay(before: Database, after: Database, f: File)
    requires Preserves(before, after) && HasEffect(before, f)
    ensures HasEffect(after, f)
  {
    if f.content.ConcurrentIndex? && DroppedSince(before, f.content.index, 0) {
      DroppedStaysDropped(before, after, f.content.index, 0);
    }
  }

  /** A file that has just been recorded has its effect. */
  lemma NewEffect(db: Database, f: File, fate: FileFate)
    requires f.name !in db.applied && f.name in Applied(db, f, fate).1.applied
    ensures HasEffect(Applied(db, f, fate).1, f) && Applied(db, f, fate).1.applied == db.applied[f.name := f.content]
  {}

  lemma FileKeepsInv(db: Database, f: File, fate: FileFate)
    requires Inv(db)
    ensures Inv(Applied(db, f, fate).1)
  {
    var after := Applied(db, f, fate).1;
    FilePreserves(db, f, fate);
    if f.name !in db.applied && f.name in after.applied {
      NewEffect(db, f, fate);
    }
    AppliedGrows(db, f, fate);
    forall name | name in after.applied
      ensures HasEffect(after, File(name, after.applied[name]))
    {
      if name in db.applied {
        EffectsStay(db, after, File(name, db.applied[name]));
      }
    }
    forall i | 0 <= i < |db.effects|
      ensures IsApplied(after, db.effects[i]) && (f.name !in db.applied ==> db.effects[i].name != f.name)
    {
      assert IsApplied(db, db.effects[i]);
    }
  }

  lemma AppliedGrows(db: Database, f: File, fate: FileFate)
    ensures
      var after := Applied(db, f, fate).1;
      && (after.applied == db.applied || (f.name !in db.applied && after.applied == db.applied[f.name := f.content]))
      && (after.effects == db.effects
          || (after.effects == db.effects + [f] && f.name !in db.applied && IsApplied(after, f)))
  {}

  lemma PreservesTrans(a: Database, b: Database, c: Database)
    requires Preserves(a, b) && Preserves(b, c)
    ensures Preserves(a, c)
  {
    forall name | name in a.applied
      ensures IsApplied(c, File(name, a.applied[name]))
    {
      assert IsApplied(b, File(name, a.applied[name]));
    }
    forall name | name in a.indexes && Live(a.indexes[name])
      ensures (name in c.indexes && c.indexes[name] == a.indexes[name]) || DroppedSince(c, name, |a.effects|)
    {
      if name in b.indexes && b.indexes[name] == a.indexes[name] {
        if DroppedSince(c, name, |b.effects|) {
          var i :| |b.effects| <= i < |c.effects| && Drops(c.effects[i], name);
        }
      } else {
        DroppedStaysDropped(b, c, name, |a.effects|);
      }
    }
  }

  lemma {:induction false} RunPreserves(db: Database, files: seq<File>, fates: seq<FileFate>)
    ensures Preserves(db, Ran(db, files, fates).1)
    decreases |files|
  {
    if files != [] {
      var fate, later := if fates == [] then CLEAN else fates[0], if fates == [] then [] else fates[1..];
      var after := Applied(db, files[0], fate).1;
      FilePreserves(db, files[0], fate);
      if Applied(db, files[0], fate).0.Continue? {
        RunPreserves(after, files[1..], later);
        PreservesTrans(db, after, Ran(after, files[1..], later).1);
      }
    }
  }

  lemma {:induction false} RunKeepsInv(db: Database, files: seq<File>, fates: seq<FileFate>)
    requires Inv(db)
    ensures Inv(Ran(db, files, fates).1)
    decreases |files|
  {
    if files != [] {
      var fate := if fates == [] then CLEAN else fates[0];
      FileKeepsInv(db, files[0], fate);
      if Applied(db, files[0], fate).0.Continue? {
        RunKeepsInv(Applied(db, files[0], fate).1, files[1..], if fates == [] then [] else fates[1..]);
      }
    }
  }

  /** A directory as one run finds it, and what happens to that run. */
  datatype Attempt = Attempt(files: seq<File>, fates: seq<FileFate>)

  function History(db: Database, attempts: seq<Attempt>): Database
    decreases |attempts|
  {
    if attempts == [] then db else History(Ran(db, attempts[0].files, attempts[0].fates).1, attempts[1..])
  }

  /** Over any sequence of runs, crashes and changes of the directory: a file is recorded only with its effect
      in place, a transactional file takes effect at most once, nothing recorded or committed is taken back,
      and a live index goes only when a committed file drops it. */
  lemma {:induction false} HistoriesAreSafe(db: Database, attempts: seq<Attempt>)
    requires Inv(db)
    ensures Inv(History(db, attempts)) && Preserves(db, History(db, attempts))
    decreases |attempts|
  {
    if attempts != [] {
      RunKeepsInv(db, attempts[0].files, attempts[0].fates);
      var next := Ran(db, attempts[0].files, attempts[0].fates).1;
      RunPreserves(db, attempts[0].files, attempts[0].fates);
      HistoriesAreSafe(next, attempts[1..]);
      PreservesTrans(db, next, History(next, attempts[1..]));
    }
  }

  // ----------------------------------------------------------------- rerunning

  /** The file's index was built but not marked: a run neither goes on nor changes anything. */
  predicate Unmarked(db: Database, f: File) {
    && f.content.ConcurrentIndex? && f.name !in db.applied
    && f.content.index in db.indexes && Live(db.indexes[f.content.index]) && db.indexes[f.content.index].marker.None?
  }

  /** The run is stuck: the first file that is not recorded is unmarked. */
  ghost predicate Stuck(db: Database, files: seq<File>) {
    exists k :: 0 <= k < |files| && Unmarked(db, files[k]) && forall i :: 0 <= i < k ==> IsApplied(db, files[i])
  }

  /** From a free name on: what a failed build leaves is dropped again, what a failed mark leaves is unmarked. */
  lemma BuildResumes(db: Database, f: File, fate: FileFate)
    requires f.content.ConcurrentIndex? && f.name !in db.applied && f.content.index !in db.indexes
    requires BuiltAndRecorded(db, f, fate).0.Stopped?
    ensures
      var after := BuiltAndRecorded(db, f, fate).1;
      Applied(after, f, CLEAN) == BuiltAndRecorded(db, f, CLEAN) || Unmarked(after, f)
  {
    if fate.build.InvalidLeft? {
      var index := Index(f.content.definition, false, fate.build.ready, None);
      assert db.indexes[f.content.index := index] - {f.content.index} == db.indexes;
    }
  }

  lemma IndexFileResumes(db: Database, f: File, fate: FileFate)
    requires f.content.ConcurrentIndex? && f.name !in db.applied && IndexFile(db, f, fate).0.Stopped?
    ensures
      var after := IndexFile(db, f, fate).1;
      || Applied(after, f, CLEAN) == IndexFile(db, f, CLEAN)
      || (Unmarked(after, f) && IndexFile(db, f, CLEAN).0.Continue? && f.name in IndexFile(db, f, CLEAN).1.applied)
  {
    var name := f.content.index;
    if name !in db.indexes {
      BuildResumes(db, f, fate);
    } else if !Live(db.indexes[name]) && fate.drop.Done? {
      BuildResumes(db.(indexes := db.indexes - {name}), f, fate);
    }
  }

  /** A file that is left unfinished can be taken up again, or was left unmarked. */
  lemma FileResumes(db: Database, f: File, fate: FileFate)
    requires Applied(db, f, fate).0.Stopped?
    ensures
      var after := Applied(db, f, fate).1;
      || Applied(after, f, CLEAN) == Applied(db, f, CLEAN)
      || (Unmarked(after, f) && Applied(db, f, CLEAN).0.Continue? && f.name in Applied(db, f, CLEAN).1.applied)
  {
    if f.content.ConcurrentIndex? && f.name !in db.applied && fate.readable {
      IndexFileResumes(db, f, fate);
    }
  }

  /** A file that a run gets past is done as if nothing had happened. */
  lemma FileCompletes(db: Database, f: File, fate: FileFate)
    requires Applied(db, f, fate).0.Continue?
    ensures Applied(db, f, fate) == Applied(db, f, CLEAN)
    ensures IsApplied(Applied(db, f, fate).1, f) && !f.content.Malformed?
  {}

  /** An uninterrupted run. */
  function CleanRun(db: Database, files: seq<File>): (Outcome, Database) { Ran(db, files, []) }

  /** An interrupted run can be completed by a rerun, or is stuck, and then the results differ. */
  lemma {:induction false} RunResumes(db: Database, files: seq<File>, fates: seq<FileFate>)
    ensures
      var after := Ran(db, files, fates).1;
      CleanRun(after, files) == CleanRun(db, files) || (Stuck(after, files) && CleanRun(after, files) != CleanRun(db, files))
    decreases |files|
  {
    if files != [] {
      var fate := if fates == [] then CLEAN else fates[0];
      var f, rest := files[0], files[1..];
      var (outcome, after) := Applied(db, f, fate);
      if outcome.Stopped? {
        StoppedResumes(db, f, rest, fate);
      } else {
        var later := if fates == [] then [] else fates[1..];
        var end := Ran(after, rest, later).1;
        FileCompletes(db, f, fate);
        RunPreserves(after, rest, later);
        assert IsApplied(end, File(f.name, after.applied[f.name]));
        RunResumes(after, rest, later);
        if Stuck(end, rest) {
          StuckLater(end, f, rest);
        }
      }
    }
  }

  lemma StoppedResumes(db: Database, f: File, rest: seq<File>, fate: FileFate)
    requires Applied(db, f, fate).0.Stopped?
    ensures
      var after, files := Applied(db, f, fate).1, [f] + rest;
      || CleanRun(after, files) == CleanRun(db, files)
      || (Stuck(after, files) && CleanRun(after, files) != CleanRun(db, files))
  {
    var after, files := Applied(db, f, fate).1, [f] + rest;
    assert files[1..] == rest;
    FileResumes(db, f, fate);
    if Applied(after, f, CLEAN) != Applied(db, f, CLEAN) {
      var done := Applied(db, f, CLEAN).1;
      assert Unmarked(after, files[0]);
      RunPreserves(done, rest, []);
      assert IsApplied(CleanRun(db, files).1, File(f.name, done.applied[f.name]));
      assert CleanRun(after, files).1 == after;
    }
  }

  lemma StuckLater(db: Database, f: File, rest: seq<File>)
    requires IsApplied(db, f) && Stuck(db, rest)
    ensures Stuck(db, [f] + rest)
  {
    var k :| 0 <= k < |rest| && Unmarked(db, rest[k]) && forall i :: 0 <= i < k ==> IsApplied(db, rest[i]);
    var files := [f] + rest;
    assert Unmarked(db, files[k + 1]);
    assert forall i :: 0 <= i < k + 1 ==> IsApplied(db, files[i]);
  }

  lemma {:induction false} StuckStops(db: Database, files: seq<File>, fates: seq<FileFate>)
    requires Stuck(db, files)
    ensures Ran(db, files, fates).0.Stopped? && Ran(db, files, fates).1 == db
    decreases |files|
  {
    var k :| 0 <= k < |files| && Unmarked(db, files[k]) && forall i :: 0 <= i < k ==> IsApplied(db, files[i]);
    if k > 0 {
      var rest := files[1..];
      assert IsApplied(db, files[0]);
      assert Unmarked(db, rest[k - 1]);
      assert forall i :: 0 <= i < k - 1 ==> IsApplied(db, rest[i]);
      StuckStops(db, rest, if fates == [] then [] else fates[1..]);
    }
  }

  /** Some index of the directory was built and never marked. */
  ghost predicate Blocked(db: Database, files: seq<File>) {
    exists k :: 0 <= k < |files| && Unmarked(db, files[k])
  }

  /** Only a build that nobody saw, or a mark that was lost, leaves an unmarked index: that of the file that the
      run stopped at. */
  lemma IndexFileUnmarks(db: Database, f: File, fate: FileFate)
    requires f.content.ConcurrentIndex? && f.name !in db.applied
    ensures
      var (outcome, after) := IndexFile(db, f, fate);
      var name := f.content.index;
      name in after.indexes && Live(after.indexes[name]) && after.indexes[name].marker.None? ==>
        outcome.Stopped? && f.name !in after.applied
  {}

  lemma FileUnmarks(db: Database, f: File, fate: FileFate, g: File)
    requires Unmarked(Applied(db, f, fate).1, g) && !Unmarked(db, g)
    ensures Applied(db, f, fate).0.Stopped? && Unmarked(Applied(db, f, fate).1, f)
  {
    AppliedGrows(db, f, fate);
    if f.content.ConcurrentIndex? {
      IndexFileTouches(db, f, fate);
      if f.name !in db.applied {
        IndexFileUnmarks(db, f, fate);
        if g.content.index != f.content.index {
          TouchesOnly(db, IndexFile(db, f, fate).1, f, f.content.index, g.content.index);
        }
      }
    }
  }

  lemma {:induction false} RunBlocks(db: Database, files: seq<File>, fates: seq<FileFate>, g: File)
    requires Unmarked(Ran(db, files, fates).1, g) && !Unmarked(db, g)
    ensures Stuck(Ran(db, files, fates).1, files)
    decreases |files|
  {
    if files != [] {
      var fate, later := if fates == [] then CLEAN else fates[0], if fates == [] then [] else fates[1..];
      var f, rest, after := files[0], files[1..], Applied(db, files[0], fate).1;
      if Unmarked(after, g) {
        FileUnmarks(db, f, fate, g);
        assert Unmarked(after, files[0]);
      } else {
        var end := Ran(after, rest, later).1;
        FileCompletes(db, f, fate);
        RunPreserves(after, rest, later);
        assert IsApplied(end, File(f.name, after.applied[f.name]));
        RunBlocks(after, rest, later, g);
        StuckLater(end, f, rest);
      }
    }
  }

  /** An uninterrupted run leaves no unmarked index that it did not find. */
  lemma {:induction false} CleanRunUnblocks(db: Database, files: seq<File>, g: File)
    requires Unmarked(CleanRun(db, files).1, g)
    ensures Unmarked(db, g)
    decreases |files|
  {
    if files != [] {
      if Applied(db, files[0], CLEAN).0.Continue? {
        CleanRunUnblocks(Applied(db, files[0], CLEAN).1, files[1..], g);
      }
      CleanFileUnblocks(db, files[0], g);
    }
  }

  lemma CleanFileUnblocks(db: Database, f: File, g: File)
    ensures Unmarked(Applied(db, f, CLEAN).1, g) ==> Unmarked(db, g)
  {}

  /** A rerun reaches the uninterrupted result exactly when the interrupted run did not stop between building
      an index and marking it; otherwise every rerun stops there and changes nothing. */
  lemma RerunConvergesIff(db: Database, files: seq<File>, fates: seq<FileFate>)
    requires !Blocked(db, files)
    ensures
      var after := Ran(db, files, fates).1;
      && (CleanRun(after, files) == CleanRun(db, files) <==> !Blocked(after, files))
      && (Blocked(after, files) ==> Stuck(after, files))
  {
    var after := Ran(db, files, fates).1;
    RunResumes(db, files, fates);
    if Blocked(after, files) {
      var k :| 0 <= k < |files| && Unmarked(after, files[k]);
      RunBlocks(db, files, fates, files[k]);
      StuckStops(after, files, []);
      if CleanRun(after, files) == CleanRun(db, files) {
        CleanRunUnblocks(db, files, files[k]);
      }
    }
  }

  function Reruns(db: Database, files: seq<File>, runs: seq<seq<FileFate>>): Database
    decreases |runs|
  {
    if runs == [] then db else Reruns(Ran(db, files, runs[0]).1, files, runs[1..])
  }

  lemma {:induction false} StuckForGood(db: Database, files: seq<File>, runs: seq<seq<FileFate>>)
    requires Stuck(db, files)
    ensures Reruns(db, files, runs) == db
    decreases |runs|
  {
    if runs != [] {
      StuckStops(db, files, runs[0]);
      StuckForGood(db, files, runs[1..]);
    }
  }

  /** The same over any number of interrupted runs. */
  lemma {:induction false} RerunsConverge(db: Database, files: seq<File>, runs: seq<seq<FileFate>>)
    requires !Blocked(db, files)
    ensures
      var end := Reruns(db, files, runs);
      && (CleanRun(end, files) == CleanRun(db, files) <==> !Blocked(end, files))
      && (Blocked(end, files) ==>
            forall fates :: Ran(end, files, fates).0.Stopped? && Ran(end, files, fates).1 == end)
    decreases |runs|
  {
    if runs != [] {
      var next := Ran(db, files, runs[0]).1;
      RerunConvergesIff(db, files, runs[0]);
      if Blocked(next, files) {
        StuckForGood(next, files, runs[1..]);
        forall fates
          ensures Ran(next, files, fates).0.Stopped? && Ran(next, files, fates).1 == next
        {
          StuckStops(next, files, fates);
        }
      } else {
        RerunsConverge(next, files, runs[1..]);
      }
    }
  }

  /** It does happen: the runner is gone right after the build of an index. */
  lemma UnseenBuildBlocks(f: File)
    requires f.content.ConcurrentIndex?
    ensures
      var db := Database(map[], [], map[]);
      var after := Ran(db, [f], [CLEAN.(build := BuiltUnseen)]).1;
      !Blocked(db, [f]) && Blocked(after, [f]) && CleanRun(db, [f]).0 == Continue
  {
    var db := Database(map[], [], map[]);
    var files := [f];
    var after := Ran(db, files, [CLEAN.(build := BuiltUnseen)]).1;
    assert after == Applied(db, f, CLEAN.(build := BuiltUnseen)).1;
    assert Unmarked(after, files[0]);
    assert Blocked(after, files);
    assert !Blocked(db, files);
    var clean := Applied(db, f, CLEAN);
    assert clean.0 == Continue && files[1..] == [];
    assert Ran(clean.1, files[1..], []).0 == Continue;
    assert CleanRun(db, files).0 == Continue;
  }

  // ------------------------------------------------------- what a run answers

  /** Why a file cannot be applied, whatever is tried: it is malformed, was recorded with another checksum, or
      its index is live under another marker. */
  function Obstacle(db: Database, f: File): Option<string> {
    if f.content.Malformed? then Some(f.content.error)
    else if f.name in db.applied && db.applied[f.name] != f.content then Some("migration checksum changed")
    else if f.name !in db.applied && f.content.ConcurrentIndex?
            && f.content.index in db.indexes && Live(db.indexes[f.content.index])
            && db.indexes[f.content.index].marker != Some(Marker(f.name, f.content))
    then Some("concurrent index marker mismatch")
    else None
  }

  /** What an undisturbed file leaves: its record, and the commit of its SQL or its marked index. */
  ghost predicate Installed(db: Database, after: Database, f: File) {
    && after.applied == db.applied[f.name := f.content]
    && match f.content
       case Transactional(_, drops) => after.effects == db.effects + [f] && after.indexes == db.indexes - drops
       case ConcurrentIndex(index, definition) =>
         && after.effects == db.effects && after.indexes - {index} == db.indexes - {index}
         && index in after.indexes
         && (if index in db.indexes && Live(db.indexes[index]) then after.indexes[index] == db.indexes[index]
             else after.indexes[index] == Index(definition, true, true, Some(Marker(f.name, f.content))))
       case Malformed(_) => false
  }

  lemma CleanIndexFile(db: Database, f: File)
    requires Obstacle(db, f).None? && f.name !in db.applied && f.content.ConcurrentIndex?
    ensures Applied(db, f, CLEAN).0 == Continue && Installed(db, Applied(db, f, CLEAN).1, f)
  {
    IndexFileTouches(db, f, CLEAN);
  }

  /** An undisturbed file goes through if and only if nothing stands in its way; an obstacle is named and
      changes nothing, a recorded file changes nothing, and a new one is installed. */
  lemma FileAnswers(db: Database, f: File)
    ensures
      var (outcome, after) := Applied(db, f, CLEAN);
      if Obstacle(db, f).Some? then outcome == Stopped(Obstacle(db, f).value) && after == db
      else outcome == Continue && if f.name in db.applied then after == db else Installed(db, after, f)
  {
    if f.name !in db.applied && f.content.ConcurrentIndex? && Obstacle(db, f).None? {
      CleanIndexFile(db, f);
    }
  }

  ghost predicate AllApplied(db: Database, files: seq<File>) {
    forall i :: 0 <= i < |files| ==> IsApplied(db, files[i])
  }

  /** A run that ends well has recorded every file of the directory with its content, whatever happened. */
  lemma {:induction false} SuccessMeansApplied(db: Database, files: seq<File>, fates: seq<FileFate>)
    ensures Ran(db, files, fates).0.Continue? ==> AllApplied(Ran(db, files, fates).1, files)
    decreases |files|
  {
    if files != [] && Ran(db, files, fates).0.Continue? {
      var fate, later := if fates == [] then CLEAN else fates[0], if fates == [] then [] else fates[1..];
      var after := Applied(db, files[0], fate).1;
      FileCompletes(db, files[0], fate);
      RunPreserves(after, files[1..], later);
      SuccessMeansApplied(after, files[1..], later);
      var end := Ran(db, files, fates).1;
      assert IsApplied(end, File(files[0].name, after.applied[files[0].name]));
      forall i | 0 <= i < |files|
        ensures IsApplied(end, files[i])
      {
        assert i > 0 ==> files[i] == files[1..][i - 1];
      }
    }
  }

  /** The run stands before a file that cannot be applied, with all earlier ones recorded. */
  ghost predicate StandsAt(db: Database, files: seq<File>, error: string, k: nat) {
    k < |files| && Obstacle(db, files[k]) == Some(error) && AllApplied(db, files[..k])
  }

  lemma {:induction false} StopMeansObstacle(db: Database, files: seq<File>) returns (k: nat)
    requires CleanRun(db, files).0.Stopped?
    ensures StandsAt(CleanRun(db, files).1, files, CleanRun(db, files).0.error, k)
    decreases |files|
  {
    FileAnswers(db, files[0]);
    if Obstacle(db, files[0]).Some? {
      k := 0;
    } else {
      var after, end := Applied(db, files[0], CLEAN).1, CleanRun(db, files).1;
      FileCompletes(db, files[0], CLEAN);
      RunPreserves(after, files[1..], []);
      var j := StopMeansObstacle(after, files[1..]);
      k := j + 1;
      assert IsApplied(end, File(files[0].name, after.applied[files[0].name]));
      forall i | 0 <= i < k
        ensures IsApplied(end, files[..k][i])
      {
        assert i > 0 ==> files[..k][i] == files[1..][..j][i - 1];
      }
    }
  }

  /** An uninterrupted run succeeds if and only if it leaves the whole directory recorded; otherwise it names
      the obstacle of the first file that is not. */
  lemma RunSucceedsIff(db: Database, files: seq<File>)
    requires Inv(db)
    ensures
      var (outcome, after) := CleanRun(db, files);
      && (outcome.Continue? <==> AllApplied(after, files))
      && (outcome.Stopped? ==> exists k: nat :: StandsAt(after, files, outcome.error, k))
  {
    var (outcome, after) := CleanRun(db, files);
    if outcome.Continue? {
      SuccessMeansApplied(db, files, []);
    } else {
      var k := StopMeansObstacle(db, files);
      RunKeepsInv(db, files, []);
      assert files[k].name in after.applied ==> HasEffect(after, File(files[k].name, after.applied[files[k].name]));
      assert !IsApplied(after, files[k]);
    }
  }
}
