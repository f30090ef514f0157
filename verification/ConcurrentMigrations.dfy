/**
  Any number of migration runners at once, on one database. Each holds its own transaction;
  recording a version waits for another open transaction that has recorded the same version,
  and fails once that one has committed.
 */
module ConcurrentMigrations {
  import opened Tables
  import opened Migrations

  /** Where a runner stands; `i` is its position in the list. */
  datatype Runner =
    | Creating
    | Checking(i: nat)
    | Beginning(i: nat)
    | Executing(i: nat)
    | Recording(i: nat)
    | Committing(i: nat)
    | Stopped(ok: bool)

  datatype Server = Server(committed: Schema, runners: seq<Runner>)

  datatype Move = Move(runner: nat, reply: Reply)

  /** Another runner has recorded this version in a transaction that is still open. */
  predicate HeldByAnother(s: Server, ms: seq<Migration>, r: nat, version: string) {
    exists k | 0 <= k < |s.runners| ::
      k != r && s.runners[k].Committing? && s.runners[k].i < |ms| && ms[s.runners[k].i].version == version
  }

  /** The runner's next statement: what it leaves committed, and where the runner stands after it. */
  function Advance(s: Server, ms: seq<Migration>, m: Move): (Schema, Runner)
    requires m.runner < |s.runners|
  {
    var db := s.committed;
    match s.runners[m.runner]
    case Creating =>
      if m.reply.Rejected? then (db, Stopped(false))
      else (db.(versionTable := true), if m.reply.Acked? then Checking(0) else Stopped(false))
    case Checking(i) =>
      if i >= |ms| then (db, Stopped(true))
      else if !m.reply.Acked? then (db, Stopped(false))
      else (db, if ms[i].version in db.versions then Checking(i + 1) else Beginning(i))
    case Beginning(i) => (db, if m.reply.Acked? then Executing(i) else Stopped(false))
    case Executing(i) => (db, if m.reply.Acked? then Recording(i) else Stopped(false))
    case Recording(i) =>
      if i >= |ms| || !m.reply.Acked? || ms[i].version in db.versions then (db, Stopped(false))
      else (db, if HeldByAnother(s, ms, m.runner, ms[i].version) then Recording(i) else Committing(i))
    case Committing(i) =>
      if i >= |ms| || m.reply.Rejected? then (db, Stopped(false))
      else (Commit(db, ms[i]), if m.reply.Acked? then Checking(i + 1) else Stopped(false))
    case Stopped(_) => (db, s.runners[m.runner])
  }

  function Step(s: Server, ms: seq<Migration>, m: Move): Server {
    if m.runner >= |s.runners| then s
    else
      var (db, runner) := Advance(s, ms, m);
      Server(db, s.runners[m.runner := runner])
  }

  function Run(s: Server, ms: seq<Migration>, moves: seq<Move>): Server {
    if moves == [] then s else Step(Run(s, ms, moves[..|moves| - 1]), ms, moves[|moves| - 1])
  }

  /** How far into the list a runner has seen everything recorded. */
  function Reached(r: Runner, ms: seq<Migration>): nat {
    match r
    case Creating => 0
    case Stopped(ok) => if ok then |ms| else 0
    case _ => r.i
  }

  /** Everything before the runner's position is recorded; an open transaction's version is not. */
  ghost predicate RunnerSound(db: Schema, ms: seq<Migration>, r: Runner) {
    && Reached(r, ms) <= |ms|
    && VersionsOf(ms, Reached(r, ms)) <= db.versions
    && (r.Beginning? || r.Executing? || r.Recording? || r.Committing? ==> r.i < |ms|)
    && (r.Committing? ==> ms[r.i].version !in db.versions)
  }

  /** No two open transactions hold the same version. */
  ghost predicate HoldersDistinct(runners: seq<Runner>, ms: seq<Migration>) {
    forall j, k | 0 <= j < k < |runners| && runners[j].Committing? && runners[k].Committing? ::
      runners[j].i < |ms| && runners[k].i < |ms| ==> ms[runners[j].i].version != ms[runners[k].i].version
  }

  ghost predicate RunnersSound(s: Server, ms: seq<Migration>) {
    && (forall k | 0 <= k < |s.runners| :: RunnerSound(s.committed, ms, s.runners[k]))
    && HoldersDistinct(s.runners, ms)
  }

  /** A step that commits nothing. */
  predicate Quiet(s: Server, m: Move) {
    m.runner < |s.runners| ==> !s.runners[m.runner].Committing? || m.reply.Rejected?
  }

  lemma QuietAdvance(s: Server, ms: seq<Migration>, m: Move)
    requires RunnersSound(s, ms) && m.runner < |s.runners| && Quiet(s, m)
    ensures var (db, r) := Advance(s, ms, m);
            && db == s.committed.(versionTable := db.versionTable)
            && RunnerSound(s.committed, ms, r)
            && (r.Committing? ==> !HeldByAnother(s, ms, m.runner, ms[r.i].version))
  {
    var r := s.runners[m.runner];
    assert RunnerSound(s.committed, ms, r);
  }

  lemma OtherStep(s: Server, ms: seq<Migration>, m: Move)
    requires RunnersSound(s, ms) && Quiet(s, m)
    ensures RunnersSound(Step(s, ms, m), ms)
    ensures Step(s, ms, m).committed == s.committed.(versionTable := Step(s, ms, m).committed.versionTable)
  {
    if m.runner < |s.runners| {
      var s' := Step(s, ms, m);
      QuietAdvance(s, ms, m);
      forall k | 0 <= k < |s'.runners| ensures RunnerSound(s'.committed, ms, s'.runners[k]) {
        assert k != m.runner ==> RunnerSound(s.committed, ms, s.runners[k]);
      }
    }
  }

  lemma CommitStep(s: Server, ms: seq<Migration>, m: Move, j: nat) returns (j': nat)
    requires RunnersSound(s, ms) && Recorded(s.committed, ms, j)
    requires m.runner < |s.runners| && !Quiet(s, m)
    ensures j <= j' && Recorded(Step(s, ms, m).committed, ms, j') && RunnersSound(Step(s, ms, m), ms)
  {
    var s', r := Step(s, ms, m), s.runners[m.runner];
    assert RunnerSound(s.committed, ms, r);
    j' := RecordedGrows(s.committed, ms, j, r.i);
    forall k | 0 <= k < |s'.runners| ensures RunnerSound(s'.committed, ms, s'.runners[k]) {
      assert RunnerSound(s.committed, ms, s.runners[k]);
      assert k != m.runner ==> s'.runners[k] == s.runners[k];
    }
    assert HoldersDistinct(s'.runners, ms);
  }

  /**
    However the runners interleave and wherever their statements fail, the committed schema
    is a prefix of the list, each version once, and it never gets shorter; a runner that
    reports success leaves the whole list recorded.
   */
  lemma {:induction false} AlwaysAPrefix(s: Server, ms: seq<Migration>, moves: seq<Move>, j: nat) returns (j': nat)
    requires forall k | 0 <= k < |s.runners| :: s.runners[k].Creating?
    requires Recorded(s.committed, ms, j)
    ensures j <= j' && Recorded(Run(s, ms, moves).committed, ms, j')
    ensures RunnersSound(Run(s, ms, moves), ms)
  {
    j' := j;
    if moves != [] {
      var init, m := moves[..|moves| - 1], moves[|moves| - 1];
      j' := AlwaysAPrefix(s, ms, init, j);
      var before := Run(s, ms, init);
      if Quiet(before, m) {
        OtherStep(before, ms, m);
      } else {
        j' := CommitStep(before, ms, m, j');
      }
    }
  }

  /** At most once: no two committed effects share a version, and they are exactly the recorded versions. */
  lemma CommittedAtMostOnce(s: Server, ms: seq<Migration>, moves: seq<Move>)
    requires s.committed == Schema(false, {}, [])
    requires forall k | 0 <= k < |s.runners| :: s.runners[k].Creating?
    ensures var db := Run(s, ms, moves).committed;
            DistinctVersions(db.effects) && VersionsOf(db.effects, |db.effects|) == db.versions
    ensures forall k | 0 <= k < |Run(s, ms, moves).runners| && Run(s, ms, moves).runners[k] == Stopped(true) ::
              Recorded(Run(s, ms, moves).committed, ms, |ms|)
  {
    var j := AlwaysAPrefix(s, ms, moves, 0);
    FirstsAreDistinct(ms, j);
    var end := Run(s, ms, moves);
    forall k | 0 <= k < |end.runners| && end.runners[k] == Stopped(true) ensures Recorded(end.committed, ms, |ms|) {
      assert RunnerSound(end.committed, ms, end.runners[k]);
      NothingNew(ms, j, |ms|);
    }
  }

  /**
    A runner gives up only for a cause: a statement of its own fails, or the version it wants to record
    has been committed meanwhile. While another open transaction holds that version it waits, and goes on after.
   */
  lemma StopsForCause(s: Server, ms: seq<Migration>, m: Move)
    requires RunnersSound(s, ms) && m.runner < |s.runners| && !s.runners[m.runner].Stopped?
    ensures var r, r' := s.runners[m.runner], Step(s, ms, m).runners[m.runner];
            && (r' == Stopped(false) <==>
                || (!m.reply.Acked? && r != Checking(|ms|))
                || (r.Recording? && ms[r.i].version in s.committed.versions))
            && (r.Recording? && m.reply.Acked? && ms[r.i].version !in s.committed.versions ==>
                r' == if HeldByAnother(s, ms, m.runner, ms[r.i].version) then r else Committing(r.i))
            && (r' == Stopped(true) <==> r == Checking(|ms|))
  {
    assert RunnerSound(s.committed, ms, s.runners[m.runner]);
  }

  /* ---- One runner alone ---- */

  /** The statements of one turn: a check, and for an entry not recorded by then the transaction. */
  function TurnMoves(runner: nat, recorded: bool, r: Replies): seq<Move> {
    if recorded then [Move(runner, r.check)]
    else [Move(runner, r.check), Move(runner, r.begin), Move(runner, r.exec),
          Move(runner, r.record), Move(runner, r.commit)]
  }

  /** The statements of the first i turns, as their replies let the runner send them; those after a failure are idle. */
  function SoloMoves(runner: nat, db: Schema, ms: seq<Migration>, each: seq<Replies>, i: nat): seq<Move>
    requires |ms| == |each| && i <= |ms|
  {
    if i == 0 then []
    else
      var recorded := ms[i - 1].version in Turns(db, ms, each, i - 1).0.versions;
      SoloMoves(runner, db, ms, each, i - 1) + TurnMoves(runner, recorded, each[i - 1])
  }

  /** No other runner holds a version in an open transaction. */
  ghost predicate Alone(s: Server, runner: nat) {
    && runner < |s.runners|
    && forall k | 0 <= k < |s.runners| && k != runner :: !s.runners[k].Committing?
  }

  /** The runner's whole run: the version table, the turns, and a last look past the end of the list. */
  function SoloRun(runner: nat, db: Schema, ms: seq<Migration>, r: RunReplies): seq<Move>
    requires |ms| == |r.each|
  {
    [Move(runner, r.create)] + SoloMoves(runner, db.(versionTable := true), ms, r.each, |ms|) + [Move(runner, Acked)]
  }

  lemma {:induction false} RunAppend(s: Server, ms: seq<Migration>, x: seq<Move>, y: seq<Move>)
    ensures Run(s, ms, x + y) == Run(Run(s, ms, x), ms, y)
  {
    if y == [] {
      assert x + y == x;
    } else {
      assert (x + y)[..|x + y| - 1] == x + y[..|y| - 1];
      RunAppend(s, ms, x, y[..|y| - 1]);
    }
  }

  /** Where a runner stands after a turn, and what is committed by then. */
  function After(s: Server, runner: nat, db: Schema, at: Runner): Server
    requires runner < |s.runners|
  {
    Server(db, s.runners[runner := at])
  }

  lemma OneMove(s: Server, ms: seq<Migration>, m: Move)
    ensures Run(s, ms, [m]) == Step(s, ms, m)
  {
    assert [m][..0] == [];
    assert Run(s, ms, []) == s;
  }

  lemma FiveMoves(s: Server, ms: seq<Migration>, a: Move, b: Move, c: Move, d: Move, e: Move)
    ensures Run(s, ms, [a, b, c, d, e]) ==
            Step(Step(Step(Step(Step(s, ms, a), ms, b), ms, c), ms, d), ms, e)
  {
    OneMove(s, ms, a);
    assert [a, b, c, d, e][..4] == [a, b, c, d] && [a, b, c, d][..3] == [a, b, c];
    assert [a, b, c][..2] == [a, b] && [a, b][..1] == [a];
    assert Run(s, ms, [a, b]) == Step(Step(s, ms, a), ms, b);
    assert Run(s, ms, [a, b, c]) == Step(Step(Step(s, ms, a), ms, b), ms, c);
  }

  /** Scheduled alone, a turn's statements do exactly what the turn does. */
  lemma SoloTurn(s: Server, ms: seq<Migration>, runner: nat, i: nat, r: Replies)
    requires Alone(s, runner) && i < |ms| && s.runners[runner] == Checking(i)
    ensures var (db, ok) := Turn(s.committed, ms[i], r);
            Run(s, ms, TurnMoves(runner, ms[i].version in s.committed.versions, r)) ==
            After(s, runner, db, if ok then Checking(i + 1) else Stopped(false))
  {
    var m := Move(runner, r.check);
    OneMove(s, ms, m);
    if ms[i].version !in s.committed.versions {
      FiveMoves(s, ms, m, Move(runner, r.begin), Move(runner, r.exec), Move(runner, r.record), Move(runner, r.commit));
      SoloTransaction(s, ms, runner, i, r);
    }
  }

  lemma SoloTransaction(s: Server, ms: seq<Migration>, runner: nat, i: nat, r: Replies)
    requires Alone(s, runner) && i < |ms| && s.runners[runner] == Checking(i)
    requires ms[i].version !in s.committed.versions
    ensures var (db, ok) := Turn(s.committed, ms[i], r);
            var checked := Step(s, ms, Move(runner, r.check));
            var begun := Step(checked, ms, Move(runner, r.begin));
            var executed := Step(begun, ms, Move(runner, r.exec));
            var recorded := Step(executed, ms, Move(runner, r.record));
            Step(recorded, ms, Move(runner, r.commit)) ==
            After(s, runner, db, if ok then Checking(i + 1) else Stopped(false))
  {
    var checked := Step(s, ms, Move(runner, r.check));
    var begun := Step(checked, ms, Move(runner, r.begin));
    var executed := Step(begun, ms, Move(runner, r.exec));
    var recorded := Step(executed, ms, Move(runner, r.record));
    var db := s.committed;
    assert checked == After(s, runner, db, if r.check.Acked? then Beginning(i) else Stopped(false));
    assert begun == After(s, runner, db, if r.check.Acked? && r.begin.Acked? then Executing(i) else Stopped(false));
    assert executed == After(s, runner, db,
                             if r.check.Acked? && r.begin.Acked? && r.exec.Acked?
                             then Recording(i) else Stopped(false));
    assert !HeldByAnother(executed, ms, runner, ms[i].version);
    assert recorded == After(s, runner, db,
                             if r.check.Acked? && r.begin.Acked? && r.exec.Acked? && r.record.Acked?
                             then Committing(i) else Stopped(false));
  }

  lemma {:induction false} StoppedStaysStopped(s: Server, ms: seq<Migration>, runner: nat, moves: seq<Move>)
    requires runner < |s.runners| && s.runners[runner].Stopped?
    requires forall m | m in moves :: m.runner == runner
    ensures Run(s, ms, moves) == s
  {
    if moves != [] {
      assert moves[|moves| - 1] in moves;
      StoppedStaysStopped(s, ms, runner, moves[..|moves| - 1]);
      assert s.runners[runner := s.runners[runner]] == s.runners;
    }
  }

  /** Where a runner stands after i turns. */
  function Position(i: nat, ok: bool): Runner {
    if ok then Checking(i) else Stopped(false)
  }

  lemma NextTurn(s: Server, ms: seq<Migration>, runner: nat, db: Schema, ok: bool, i: nat, r: Replies)
    requires Alone(s, runner) && i < |ms|
    ensures var (db', ok') := if ok then Turn(db, ms[i], r) else (db, false);
            Run(After(s, runner, db, Position(i, ok)), ms, TurnMoves(runner, ms[i].version in db.versions, r)) ==
            After(s, runner, db', Position(i + 1, ok'))
  {
    var before := After(s, runner, db, Position(i, ok));
    if ok {
      SoloTurn(before, ms, runner, i, r);
    } else {
      StoppedStaysStopped(before, ms, runner, TurnMoves(runner, ms[i].version in db.versions, r));
    }
  }

  /** The same, turn by turn. */
  function TurnByTurn(s: Server, ms: seq<Migration>, runner: nat, db: Schema, each: seq<Replies>, i: nat): Server
    requires |ms| == |each| && i <= |ms|
  {
    if i == 0 then s
    else
      var recorded := ms[i - 1].version in Turns(db, ms, each, i - 1).0.versions;
      Run(TurnByTurn(s, ms, runner, db, each, i - 1), ms, TurnMoves(runner, recorded, each[i - 1]))
  }

  lemma {:induction false} SoloTurns(s: Server, ms: seq<Migration>, runner: nat, db: Schema, each: seq<Replies>, i: nat)
    requires |ms| == |each| && i <= |ms| && Alone(s, runner)
    ensures TurnByTurn(After(s, runner, db, Checking(0)), ms, runner, db, each, i) ==
            After(s, runner, Turns(db, ms, each, i).0, Position(i, Turns(db, ms, each, i).1))
  {
    if i > 0 {
      SoloTurns(s, ms, runner, db, each, i - 1);
      NextTurn(s, ms, runner, Turns(db, ms, each, i - 1).0, Turns(db, ms, each, i - 1).1, i - 1, each[i - 1]);
    }
  }

  lemma {:induction false} SoloMovesByTurn(s: Server, ms: seq<Migration>, runner: nat, db: Schema,
                                           each: seq<Replies>, i: nat)
    requires |ms| == |each| && i <= |ms|
    ensures Run(s, ms, SoloMoves(runner, db, ms, each, i)) == TurnByTurn(s, ms, runner, db, each, i)
  {
    if i > 0 {
      SoloMovesByTurn(s, ms, runner, db, each, i - 1);
      var last := TurnMoves(runner, ms[i - 1].version in Turns(db, ms, each, i - 1).0.versions, each[i - 1]);
      RunSplit(s, ms, SoloMoves(runner, db, ms, each, i), SoloMoves(runner, db, ms, each, i - 1), last);
    }
  }

  lemma RunSplit(s: Server, ms: seq<Migration>, moves: seq<Move>, x: seq<Move>, y: seq<Move>)
    requires moves == x + y
    ensures Run(s, ms, moves) == Run(Run(s, ms, x), ms, y)
  {
    RunAppend(s, ms, x, y);
  }

  /** A runner scheduled alone ends with exactly the schema and the result of a run. */
  lemma SoloRunMigrates(s: Server, ms: seq<Migration>, runner: nat, r: RunReplies)
    requires |ms| == |r.each| && Alone(s, runner) && s.runners[runner] == Creating
    ensures var (db, ok) := Migrate(s.committed, ms, r);
            Run(s, ms, SoloRun(runner, s.committed, ms, r)) == After(s, runner, db, Stopped(ok))
  {
    var (db, ok) := Migrate(s.committed, ms, r);
    TurnsAfterCreate(s, ms, runner, r);
    LastLook(s, ms, runner, db, ok);
    SoloRunUnfolds(s, ms, runner, r);
  }

  lemma LastLook(s: Server, ms: seq<Migration>, runner: nat, db: Schema, ok: bool)
    requires runner < |s.runners|
    ensures Step(After(s, runner, db, Position(|ms|, ok)), ms, Move(runner, Acked)) == After(s, runner, db, Stopped(ok))
  {
  }

  lemma SoloRunUnfolds(s: Server, ms: seq<Migration>, runner: nat, r: RunReplies)
    requires |ms| == |r.each|
    ensures var turns := SoloMoves(runner, s.committed.(versionTable := true), ms, r.each, |ms|);
            Run(s, ms, SoloRun(runner, s.committed, ms, r)) ==
            Step(Run(Step(s, ms, Move(runner, r.create)), ms, turns), ms, Move(runner, Acked))
  {
    var turns := SoloMoves(runner, s.committed.(versionTable := true), ms, r.each, |ms|);
    FirstTurnsLast(s, ms, Move(runner, r.create), turns, Move(runner, Acked));
  }

  lemma FirstTurnsLast(s: Server, ms: seq<Migration>, first: Move, turns: seq<Move>, last: Move)
    ensures Run(s, ms, [first] + turns + [last]) == Step(Run(Step(s, ms, first), ms, turns), ms, last)
  {
    RunAppend(s, ms, [first] + turns, [last]);
    RunAppend(s, ms, [first], turns);
    OneMove(s, ms, first);
    OneMove(Run(Step(s, ms, first), ms, turns), ms, last);
  }

  lemma TurnsAfterCreate(s: Server, ms: seq<Migration>, runner: nat, r: RunReplies)
    requires |ms| == |r.each| && Alone(s, runner) && s.runners[runner] == Creating
    ensures var turns := SoloMoves(runner, s.committed.(versionTable := true), ms, r.each, |ms|);
            var (db, ok) := Migrate(s.committed, ms, r);
            Run(Step(s, ms, Move(runner, r.create)), ms, turns) == After(s, runner, db, Position(|ms|, ok))
  {
    var db := s.committed.(versionTable := true);
    var s1 := Step(s, ms, Move(runner, r.create));
    if r.create.Acked? {
      assert s1 == After(s, runner, db, Checking(0));
      SoloTurns(s, ms, runner, db, r.each, |ms|);
      SoloMovesByTurn(s1, ms, runner, db, r.each, |ms|);
    } else {
      SoloMovesAreOwn(runner, db, ms, r.each, |ms|);
      StoppedStaysStopped(s1, ms, runner, SoloMoves(runner, db, ms, r.each, |ms|));
    }
  }

  lemma {:induction false} SoloMovesAreOwn(runner: nat, db: Schema, ms: seq<Migration>, each: seq<Replies>, i: nat)
    requires |ms| == |each| && i <= |ms|
    ensures forall m | m in SoloMoves(runner, db, ms, each, i) :: m.runner == runner
  {
    if i > 0 {
      SoloMovesAreOwn(runner, db, ms, each, i - 1);
    }
  }
}
