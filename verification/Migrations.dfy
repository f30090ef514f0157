/** The migration runner: versioned migrations, each applied and recorded in one transaction. */
module Migrations {
  import opened Options
  import opened Tables

  datatype Migration = Migration(version: string, sql: string)

  /** `effects` are the migrations whose SQL has been committed, in order. */
  datatype Schema = Schema(versionTable: bool, versions: set<string>, effects: seq<Migration>)

  /** How the statements of one migration are answered. */
  datatype Replies = Replies(check: Reply, begin: Reply, exec: Reply, record: Reply, commit: Reply)

  /** How the statements of one run are answered; a crash reads as an error at that statement. */
  datatype RunReplies = RunReplies(create: Reply, each: seq<Replies>)

  function Commit(db: Schema, m: Migration): Schema {
    db.(versions := db.versions + {m.version}, effects := db.effects + [m])
  }

  /** applyMigration: nothing stays unless the commit takes effect. */
  function ApplyMigration(db: Schema, m: Migration, r: Replies): (Schema, bool) {
    if !r.begin.Acked? || !r.exec.Acked? || !r.record.Acked? || m.version in db.versions || r.commit.Rejected?
    then (db, false)
    else (Commit(db, m), r.commit.Acked?)
  }

  /** One turn of the loop: check, then skip or apply. */
  function Turn(db: Schema, m: Migration, r: Replies): (Schema, bool) {
    if !r.check.Acked? then (db, false)
    else if m.version in db.versions then (db, true)
    else ApplyMigration(db, m, r)
  }

  /** The first i turns of the loop over the list; it stops at the first error. */
  function Turns(db: Schema, ms: seq<Migration>, each: seq<Replies>, i: nat): (Schema, bool)
    requires |ms| == |each| && i <= |ms|
  {
    if i == 0 then (db, true)
    else
      var (db', ok) := Turns(db, ms, each, i - 1);
      if ok then Turn(db', ms[i - 1], each[i - 1]) else (db', false)
  }

  function Migrate(db: Schema, ms: seq<Migration>, r: RunReplies): (Schema, bool)
    requires |ms| == |r.each|
  {
    if r.create.Rejected? then (db, false)
    else if r.create.AckLost? then (db.(versionTable := true), false)
    else Turns(db.(versionTable := true), ms, r.each, |ms|)
  }

  /* ---- The runner itself ---- */

  class MigrationDatabase {
    var committed: Schema
    var tx: Option<Schema>

    constructor ()
      ensures committed == Schema(false, {}, []) && tx.None?
    {
      committed := Schema(false, {}, []);
      tx := None;
    }

    method CreateVersionTable(reply: Reply) returns (ok: bool)
      modifies this`committed
      ensures committed == if reply.Rejected? then old(committed) else old(committed).(versionTable := true)
      ensures ok <==> reply.Acked?
    {
      if !reply.Rejected? {
        committed := committed.(versionTable := true);
      }
      ok := reply.Acked?;
    }

    method BeginTx(reply: Reply) returns (ok: bool)
      requires tx.None?
      modifies this`tx
      ensures ok <==> reply.Acked?
      ensures tx == if ok then Some(committed) else None
    {
      ok := reply.Acked?;
      if ok {
        tx := Some(committed);
      }
    }

    method Exec(m: Migration, reply: Reply) returns (ok: bool)
      requires tx.Some?
      modifies this`tx
      ensures ok <==> reply.Acked?
      ensures tx == if ok then Some(old(tx).value.(effects := old(tx).value.effects + [m])) else old(tx)
    {
      ok := reply.Acked?;
      if ok {
        tx := Some(tx.value.(effects := tx.value.effects + [m]));
      }
    }

    /** The version is the primary key: recording it twice is an error. */
    method RecordVersion(version: string, reply: Reply) returns (ok: bool)
      requires tx.Some?
      modifies this`tx
      ensures ok <==> reply.Acked? && version !in old(tx).value.versions
      ensures tx == if ok then Some(old(tx).value.(versions := old(tx).value.versions + {version})) else old(tx)
    {
      ok := reply.Acked? && version !in tx.value.versions;
      if ok {
        tx := Some(tx.value.(versions := tx.value.versions + {version}));
      }
    }

    method CommitTx(reply: Reply) returns (ok: bool)
      requires tx.Some?
      modifies this
      ensures ok <==> reply.Acked?
      ensures tx.None?
      ensures committed == if reply.Rejected? then old(committed) else old(tx).value
    {
      if !reply.Rejected? {
        committed := tx.value;
      }
      tx := None;
      ok := reply.Acked?;
    }

    method Rollback()
      modifies this`tx
      ensures tx.None?
    {
      tx := None;
    }
  }

  method MigrationApplied(db: MigrationDatabase, version: string, reply: Reply) returns (r: Result<bool, string>)
    ensures r == if reply.Acked? then Success(version in db.committed.versions) else Failure("check migration")
  {
    if !reply.Acked? {
      return Failure("check migration");
    }
    return Success(version in db.committed.versions);
  }

  method ApplyInTx(db: MigrationDatabase, m: Migration, r: Replies) returns (ok: bool)
    requires db.tx.None?
    modifies db
    ensures db.tx.None?
    ensures (db.committed, ok) == ApplyMigration(old(db.committed), m, r)
  {
    ok := db.BeginTx(r.begin);
    if !ok {
      return;
    }
    ok := db.Exec(m, r.exec);
    if ok {
      ok := db.RecordVersion(m.version, r.record);
    }
    if ok {
      ok := db.CommitTx(r.commit);
    }
    if !ok {
      // the deferred rollback
      db.Rollback();
    }
  }

  method RunMigrations(db: MigrationDatabase, ms: seq<Migration>, r: RunReplies) returns (ok: bool)
    requires db.tx.None? && |ms| == |r.each|
    modifies db
    ensures db.tx.None?
    ensures (db.committed, ok) == Migrate(old(db.committed), ms, r)
  {
    ok := db.CreateVersionTable(r.create);
    if !ok {
      return;
    }
    ghost var start := db.committed;
    for i := 0 to |ms|
      invariant db.tx.None?
      invariant (db.committed, true) == Turns(start, ms, r.each, i)
    {
      var applied := MigrationApplied(db, ms[i].version, r.each[i].check);
      if applied.Failure? {
        StoppedStays(start, ms, r.each, i + 1);
        return false;
      }
      if !applied.value {
        var done := ApplyInTx(db, ms[i], r.each[i]);
        if !done {
          StoppedStays(start, ms, r.each, i + 1);
          return false;
        }
      }
    }
  }

  lemma {:induction false} StoppedStays(db: Schema, ms: seq<Migration>, each: seq<Replies>, i: nat)
    requires |ms| == |each| && i <= |ms| && !Turns(db, ms, each, i).1
    ensures Turns(db, ms, each, |ms|) == Turns(db, ms, each, i)
    decreases |ms| - i
  {
    if i < |ms| {
      StoppedStays(db, ms, each, i + 1);
    }
  }

  /* ---- What runs keep ---- */

  /** The versions of the first i entries. */
  function VersionsOf(ms: seq<Migration>, i: nat): set<string>
    requires i <= |ms|
  {
    if i == 0 then {} else VersionsOf(ms, i - 1) + {ms[i - 1].version}
  }

  /** The first i entries without repetitions of a version: only its first migration counts. */
  function Firsts(ms: seq<Migration>, i: nat): seq<Migration>
    requires i <= |ms|
  {
    if i == 0 then []
    else if ms[i - 1].version in VersionsOf(ms, i - 1) then Firsts(ms, i - 1)
    else Firsts(ms, i - 1) + [ms[i - 1]]
  }

  ghost predicate DistinctVersions(ms: seq<Migration>) {
    forall i, j | 0 <= i < j < |ms| :: ms[i].version != ms[j].version
  }

  /** Exactly the first j entries of the list are recorded, and exactly their effects are committed, once each. */
  ghost predicate Recorded(db: Schema, ms: seq<Migration>, j: nat) {
    && j <= |ms|
    && db.versions == VersionsOf(ms, j)
    && db.effects == Firsts(ms, j)
  }

  /** Committing the first unrecorded entry lengthens the prefix; a recorded one is already part of it. */
  lemma RecordedGrows(db: Schema, ms: seq<Migration>, j: nat, i: nat) returns (j': nat)
    requires Recorded(db, ms, j) && i < |ms|
    requires VersionsOf(ms, i) <= db.versions && ms[i].version !in db.versions
    ensures j <= j' && Recorded(Commit(db, ms[i]), ms, j')
  {
    if i < j {
      PrefixesGrow(ms, i + 1, j);
      assert false;
    }
    NothingNew(ms, j, i);
    j' := i + 1;
  }

  lemma {:induction false} PrefixesGrow(ms: seq<Migration>, j: nat, i: nat)
    requires j <= i <= |ms|
    ensures VersionsOf(ms, j) <= VersionsOf(ms, i)
  {
    if j < i {
      PrefixesGrow(ms, j, i - 1);
    }
  }

  /** Entries whose versions all occur earlier add no effect. */
  lemma {:induction false} NothingNew(ms: seq<Migration>, j: nat, i: nat)
    requires j <= i <= |ms| && VersionsOf(ms, i) <= VersionsOf(ms, j)
    ensures VersionsOf(ms, i) == VersionsOf(ms, j) && Firsts(ms, i) == Firsts(ms, j)
  {
    if j < i {
      PrefixesGrow(ms, j, i - 1);
      NothingNew(ms, j, i - 1);
    }
  }

  lemma {:induction false} TurnsKeepPrefix(db: Schema, ms: seq<Migration>, each: seq<Replies>, j: nat, i: nat)
      returns (j': nat)
    requires |ms| == |each| && i <= |ms| && Recorded(db, ms, j)
    ensures j <= j' && Recorded(Turns(db, ms, each, i).0, ms, j')
    ensures Turns(db, ms, each, i).1 ==> VersionsOf(ms, i) <= Turns(db, ms, each, i).0.versions
  {
    j' := j;
    if i > 0 {
      j' := TurnsKeepPrefix(db, ms, each, j, i - 1);
      var (before, ok) := Turns(db, ms, each, i - 1);
      if ok && Turn(before, ms[i - 1], each[i - 1]).0 != before {
        j' := RecordedGrows(before, ms, j', i - 1);
      }
    }
  }

  /**
    A run, wherever it fails, leaves a prefix of the list at least as long as it found; a
    successful run leaves the whole list.
   */
  lemma RunKeepsPrefix(db: Schema, ms: seq<Migration>, r: RunReplies, j: nat) returns (j': nat)
    requires |ms| == |r.each| && Recorded(db, ms, j)
    ensures j <= j' && Recorded(Migrate(db, ms, r).0, ms, j')
    ensures Migrate(db, ms, r).1 ==> Recorded(Migrate(db, ms, r).0, ms, |ms|)
  {
    j' := j;
    if r.create.Acked? {
      var start := db.(versionTable := true);
      j' := TurnsKeepPrefix(start, ms, r.each, j, |ms|);
      if Migrate(db, ms, r).1 {
        NothingNew(ms, j', |ms|);
      }
    }
  }

  function MigrateAll(db: Schema, ms: seq<Migration>, runs: seq<RunReplies>): Schema
    requires forall r | r in runs :: |r.each| == |ms|
  {
    if runs == [] then db
    else Migrate(MigrateAll(db, ms, runs[..|runs| - 1]), ms, runs[|runs| - 1]).0
  }

  /** After any number of runs from an empty database, each failing anywhere, a prefix is recorded. */
  lemma {:induction false} RepeatedRunsKeepPrefix(ms: seq<Migration>, runs: seq<RunReplies>) returns (j: nat)
    requires forall r | r in runs :: |r.each| == |ms|
    ensures Recorded(MigrateAll(Schema(false, {}, []), ms, runs), ms, j)
  {
    if runs == [] {
      j := 0;
    } else {
      var init := runs[..|runs| - 1];
      j := RepeatedRunsKeepPrefix(ms, init);
      j := RunKeepsPrefix(MigrateAll(Schema(false, {}, []), ms, init), ms, runs[|runs| - 1], j);
    }
  }

  /** Once the whole list is recorded, further runs change nothing, and succeed if their checks are answered. */
  lemma CompleteIsStable(db: Schema, ms: seq<Migration>, r: RunReplies)
    requires |ms| == |r.each| && VersionsOf(ms, |ms|) <= db.versions && db.versionTable
    ensures Migrate(db, ms, r).0 == db
    ensures r.create.Acked? && (forall x | x in r.each :: x.check.Acked?) ==> Migrate(db, ms, r).1
  {
    CompleteTurns(db, ms, r.each, |ms|);
  }

  lemma {:induction false} CompleteTurns(db: Schema, ms: seq<Migration>, each: seq<Replies>, i: nat)
    requires |ms| == |each| && i <= |ms| && VersionsOf(ms, i) <= db.versions
    ensures Turns(db, ms, each, i).0 == db
    ensures (forall x | x in each :: x.check.Acked?) ==> Turns(db, ms, each, i).1
  {
    if i > 0 {
      assert each[i - 1] in each;
      CompleteTurns(db, ms, each, i - 1);
    }
  }

  lemma {:induction false} VersionsOccur(ms: seq<Migration>, i: nat, version: string)
    requires i <= |ms|
    ensures version in VersionsOf(ms, i) <==> exists k :: 0 <= k < i && ms[k].version == version
  {
    if i > 0 {
      VersionsOccur(ms, i - 1, version);
    }
  }

  lemma {:induction false} AppendKeepsVersions(ms: seq<Migration>, m: Migration, i: nat)
    requires i <= |ms|
    ensures VersionsOf(ms + [m], i) == VersionsOf(ms, i)
  {
    if i > 0 {
      AppendKeepsVersions(ms, m, i - 1);
    }
  }

  lemma {:induction false} DistinctStep(ms: seq<Migration>, m: Migration)
    ensures DistinctVersions(ms + [m]) <==> DistinctVersions(ms) && m.version !in VersionsOf(ms, |ms|)
    ensures VersionsOf(ms + [m], |ms| + 1) == VersionsOf(ms, |ms|) + {m.version}
  {
    var longer := ms + [m];
    AppendKeepsVersions(ms, m, |ms|);
    VersionsOccur(ms, |ms|, m.version);
    if DistinctVersions(longer) {
      forall k | 0 <= k < |ms| ensures ms[k].version != m.version {
        assert longer[k].version != longer[|ms|].version;
      }
      forall j, k | 0 <= j < k < |ms| ensures ms[j].version != ms[k].version {
        assert longer[j].version != longer[k].version;
      }
    }
  }

  lemma {:induction false} FirstsAreDistinct(ms: seq<Migration>, i: nat)
    requires i <= |ms|
    ensures var fs := Firsts(ms, i);
            |fs| <= i && DistinctVersions(fs) && VersionsOf(fs, |fs|) == VersionsOf(ms, i)
  {
    if i > 0 {
      FirstsAreDistinct(ms, i - 1);
      DistinctStep(Firsts(ms, i - 1), ms[i - 1]);
    }
  }

  lemma FirstsAreAll(ms: seq<Migration>)
    ensures Firsts(ms, |ms|) == ms <==> DistinctVersions(ms)
  {
    if DistinctVersions(ms) {
      DistinctAreKept(ms, |ms|);
    } else {
      FirstsAreDistinct(ms, |ms|);
    }
  }

  lemma {:induction false} DistinctAreKept(ms: seq<Migration>, i: nat)
    requires DistinctVersions(ms) && i <= |ms|
    ensures Firsts(ms, i) == ms[..i]
  {
    if i > 0 {
      DistinctAreKept(ms, i - 1);
      VersionsOccur(ms, i - 1, ms[i - 1].version);
    }
  }

  /** After any number of runs, each failing anywhere, no version's effect has been committed twice. */
  lemma EffectsAreDistinct(ms: seq<Migration>, runs: seq<RunReplies>)
    requires forall r | r in runs :: |r.each| == |ms|
    ensures var db := MigrateAll(Schema(false, {}, []), ms, runs);
            DistinctVersions(db.effects) && VersionsOf(db.effects, |db.effects|) == db.versions
  {
    var j := RepeatedRunsKeepPrefix(ms, runs);
    FirstsAreDistinct(ms, j);
  }

  /**
    Once a run succeeds, whatever failed before it, the committed effects are the whole list,
    each entry once and in order, exactly when no version is used twice.
   */
  lemma AllCommittedIffDistinct(ms: seq<Migration>, runs: seq<RunReplies>, last: RunReplies)
    requires (forall r | r in runs :: |r.each| == |ms|) && |last.each| == |ms|
    requires Migrate(MigrateAll(Schema(false, {}, []), ms, runs), ms, last).1
    ensures Migrate(MigrateAll(Schema(false, {}, []), ms, runs), ms, last).0.effects == ms <==> DistinctVersions(ms)
  {
    var j := RepeatedRunsKeepPrefix(ms, runs);
    var _ := RunKeepsPrefix(MigrateAll(Schema(false, {}, []), ms, runs), ms, last, j);
    FirstsAreAll(ms);
  }

  /* ---- When runs succeed, and how far they get otherwise ---- */

  predicate AllAcked(r: Replies) {
    r.begin.Acked? && r.exec.Acked? && r.record.Acked? && r.commit.Acked?
  }

  /** The loop gets past entry k: its check is answered, and it is recorded by then or applied without failure. */
  predicate Passes(db: Schema, ms: seq<Migration>, each: seq<Replies>, k: nat)
    requires |ms| == |each| && k < |ms|
  {
    each[k].check.Acked? && (ms[k].version in db.versions + VersionsOf(ms, k) || AllAcked(each[k]))
  }

  lemma {:induction false} TurnsSucceedExactly(db: Schema, ms: seq<Migration>, each: seq<Replies>, i: nat)
    requires |ms| == |each| && i <= |ms|
    ensures Turns(db, ms, each, i).1 <==> forall k | 0 <= k < i :: Passes(db, ms, each, k)
    ensures Turns(db, ms, each, i).1 ==> Turns(db, ms, each, i).0.versions == db.versions + VersionsOf(ms, i)
  {
    if i > 0 {
      TurnsSucceedExactly(db, ms, each, i - 1);
      var (before, ok) := Turns(db, ms, each, i - 1);
      assert ok ==> (Turn(before, ms[i - 1], each[i - 1]).1 <==> Passes(db, ms, each, i - 1));
    }
  }

  /**
    A run succeeds exactly when the version table can be ensured, every check is answered, and every
    entry not recorded by then is begun, executed, recorded and committed without failure.
   */
  lemma SucceedsExactly(db: Schema, ms: seq<Migration>, r: RunReplies)
    requires |ms| == |r.each|
    ensures Migrate(db, ms, r).1 <==> r.create.Acked? && forall k | 0 <= k < |ms| :: Passes(db, ms, r.each, k)
    ensures Migrate(db, ms, r).0.versionTable <==> db.versionTable || !r.create.Rejected?
  {
    TurnsSucceedExactly(db.(versionTable := true), ms, r.each, |ms|);
    TurnsKeepTable(db.(versionTable := true), ms, r.each, |ms|);
    assert forall k | 0 <= k < |ms| :: Passes(db.(versionTable := true), ms, r.each, k) <==> Passes(db, ms, r.each, k);
  }

  lemma {:induction false} TurnsKeepTable(db: Schema, ms: seq<Migration>, each: seq<Replies>, i: nat)
    requires |ms| == |each| && i <= |ms|
    ensures Turns(db, ms, each, i).0.versionTable == db.versionTable
  {
    if i > 0 {
      TurnsKeepTable(db, ms, each, i - 1);
    }
  }

  /** With every statement acknowledged, a run from the empty database commits the whole list, if no version repeats. */
  lemma CleanRunCommitsAll(ms: seq<Migration>, r: RunReplies)
    requires |ms| == |r.each| && r.create.Acked? && DistinctVersions(ms)
    requires forall x | x in r.each :: x.check.Acked? && AllAcked(x)
    ensures var (db, ok) := Migrate(Schema(false, {}, []), ms, r);
            ok && db.versionTable && db.effects == ms && db.versions == VersionsOf(ms, |ms|)
  {
    var empty := Schema(false, {}, []);
    assert forall k | 0 <= k < |ms| :: r.each[k] in r.each;
    SucceedsExactly(empty, ms, r);
    var _ := RunKeepsPrefix(empty, ms, r, 0);
    FirstsAreAll(ms);
  }

  /** Entry i is applied, but the reply to its commit is lost. */
  predicate CommitLost(r: Replies) {
    r.check.Acked? && r.begin.Acked? && r.exec.Acked? && r.record.Acked? && r.commit.AckLost?
  }

  /**
    A run that stops at entry i leaves exactly the prefix before it recorded, entry i included if
    only the reply to its commit was lost, or the prefix it found, if that is longer.
   */
  lemma StopsExactly(db: Schema, ms: seq<Migration>, r: RunReplies, j: nat, i: nat)
    requires |ms| == |r.each| && Recorded(db, ms, j) && r.create.Acked? && i < |ms|
    requires (forall k | 0 <= k < i :: Passes(db, ms, r.each, k)) && !Passes(db, ms, r.each, i)
    ensures !Migrate(db, ms, r).1
    ensures var reached := if CommitLost(r.each[i]) then i + 1 else i;
            Recorded(Migrate(db, ms, r).0, ms, if reached > j then reached else j)
  {
    var start := db.(versionTable := true);
    assert forall k | 0 <= k < |ms| :: Passes(start, ms, r.each, k) <==> Passes(db, ms, r.each, k);
    TurnsSucceedExactly(start, ms, r.each, i);
    TurnsSucceedExactly(start, ms, r.each, i + 1);
    StoppedStays(start, ms, r.each, i + 1);
    TurnsReach(start, ms, r.each, j, i);
    var before := Turns(start, ms, r.each, i).0;
    if i < j {
      PrefixesGrow(ms, i + 1, j);
    } else if CommitLost(r.each[i]) {
      NothingNew(ms, if i > j then i else j, i);
    }
  }

  /** After i turns without failure, exactly the longer of the first i entries and those found are recorded. */
  lemma {:induction false} TurnsReach(db: Schema, ms: seq<Migration>, each: seq<Replies>, j: nat, i: nat)
    requires |ms| == |each| && i <= |ms| && Recorded(db, ms, j) && Turns(db, ms, each, i).1
    ensures Recorded(Turns(db, ms, each, i).0, ms, if i > j then i else j)
  {
    if i > 0 {
      TurnsReach(db, ms, each, j, i - 1);
      if i <= j {
        PrefixesGrow(ms, i, j);
      }
    }
  }
}
