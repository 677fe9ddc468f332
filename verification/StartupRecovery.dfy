/**
 * Startup recovery over the whole session table
 * (wacp-console/crates/console-core/src/recovery.rs), and its agreement with the
 * recovery steps of the session state machine.
 */
module StartupRecovery {
  import opened Options
  import opened SessionState
  import opened SessionStore
  import opened SessionWorld

  /** What `GetWorkspace` yields for a session's root; `NoHighway` is a pool without a channel. */
  datatype Sight =
    | NoHighway
    | Live
    | Ended(how: Ending)
    | CodeNotFound
    | CodeUnavailable
    | CodeDeadline
    | CodeOther(message: string)

  /** How the outside answers for one session: the probe, and whether the database does what it is asked. */
  datatype Answer = Answer(sight: Sight, writeOk: bool, listOk: bool)

  datatype Reason = StuckInLaunching | WorkspaceMissing | DbError | RuntimeError(message: string)

  datatype Outcome = Resumed | SyncedTerminal(state: State) | Failing(reason: Reason) | SkippedUnavailable

  datatype Report = Report(resumed: seq<Id>, synced: seq<(Id, State)>, failed: seq<(Id, Reason)>, skipped: seq<Id>)

  /** What recovery concludes about a session listed as ACTIVE. */
  function Verdict(row: Row, a: Answer): Outcome {
    if row.coordinator.None? then Failing(StuckInLaunching)
    else
      match a.sight
      case NoHighway => SkippedUnavailable
      case CodeUnavailable => SkippedUnavailable
      case CodeDeadline => SkippedUnavailable
      case CodeNotFound => Failing(WorkspaceMissing)
      case CodeOther(message) => Failing(RuntimeError(message))
      case Ended(how) => SyncedTerminal(StateFor(how))
      case Live => if a.listOk then Resumed else Failing(DbError)
  }

  /** The state it tries to write over ACTIVE. */
  function Target(o: Outcome): Option<State> {
    match o
    case SyncedTerminal(state) => Some(state)
    case Failing(reason) => if reason.DbError? then None else Some(Failed)
    case _ => None
  }

  function After(row: Row, a: Answer): Row {
    var target := Target(Verdict(row, a));
    if target.Some? && a.writeOk then Transition(row, Active, target.value) else row
  }

  // Agreement with the state machine

  function ProbeOf(s: Sight): Probe {
    match s
    case NoHighway => Unavailable
    case Live => ViewLive
    case Ended(_) => ViewEnded
    case CodeNotFound => NotFound
    case CodeUnavailable => Unavailable
    case CodeDeadline => Unavailable
    case CodeOther(_) => OtherCode
  }

  /** The database's part in the step a recovery is about to take. */
  function DbPart(x: Recovery, a: Answer): Probe {
    var ok := if x.Marking? then a.writeOk else a.listOk;
    if ok then ViewLive else ProbeDbDown
  }

  /** What one session's recovery leaves when its steps are taken one after the other. */
  function Played(row: Row, ended: map<Id, Ending>, a: Answer): (Row, Option<Id>) {
    var m1 := RecoveryAdvance(Listing, row, ended, ViewLive);
    var m2 := if m1.next.Probing? then RecoveryAdvance(m1.next, row, ended, ProbeOf(a.sight)) else m1;
    var m3 := RecoveryAdvance(m2.next, row, ended, DbPart(m2.next, a));
    (if m3.mark.Some? then Transition(row, Active, m3.mark.value.to) else row, m3.spawn)
  }

  /** On a probe that tells the truth about the root, the procedure does what the steps do. */
  lemma RecoveryRefinesItsSteps(row: Row, ended: map<Id, Ending>, a: Answer)
    requires row.state == Active
    requires a.sight.Ended? && row.coordinator.Some? ==>
      row.coordinator.value in ended && ended[row.coordinator.value] == a.sight.how
    ensures Played(row, ended, a) == (After(row, a), if Verdict(row, a).Resumed? then row.coordinator else None)
  {
  }

  // The procedure

  /** The report has this session's outcome on the right list. */
  predicate Filed(r: Report, id: Id, o: Outcome) {
    match o
    case Resumed => id in r.resumed
    case SyncedTerminal(state) => (id, state) in r.synced
    case Failing(reason) => (id, reason) in r.failed
    case SkippedUnavailable => id in r.skipped
  }

  function Size(r: Report): nat {
    |r.resumed| + |r.synced| + |r.failed| + |r.skipped|
  }

  class Console {
    var rows: map<Id, Row>
    var monitors: map<Id, Id>

    constructor (table: map<Id, Row>)
      ensures rows == table && monitors == map[]
    {
      rows := table;
      monitors := map[];
    }

    /** A compare-and-set that the database may fail to perform. */
    method TransitionState(id: Id, from: State, to: State, ok: bool)
      modifies this`rows
      ensures rows == if ok && id in old(rows) then old(rows)[id := Transition(old(rows)[id], from, to)] else old(rows)
    {
      if ok && id in rows && rows[id].state == from {
        rows := rows[id := rows[id].(state := to)];
      }
    }

    method RecoverOne(id: Id, a: Answer) returns (outcome: Outcome)
      requires id in rows && rows[id].state == Active
      modifies this
      ensures outcome == Verdict(old(rows)[id], a)
      ensures rows == old(rows)[id := After(old(rows)[id], a)]
      ensures monitors
           == if outcome.Resumed? then old(monitors)[id := old(rows)[id].coordinator.value] else old(monitors)
    {
      var row := rows[id];
      if row.coordinator.None? {
        TransitionState(id, Active, Failed, a.writeOk);
        return Failing(StuckInLaunching);
      }
      match a.sight
      case NoHighway => return SkippedUnavailable;
      case CodeUnavailable => return SkippedUnavailable;
      case CodeDeadline => return SkippedUnavailable;
      case CodeNotFound =>
        TransitionState(id, Active, Failed, a.writeOk);
        return Failing(WorkspaceMissing);
      case CodeOther(message) =>
        TransitionState(id, Active, Failed, a.writeOk);
        return Failing(RuntimeError(message));
      case Ended(how) =>
        var final := match how { case EndedFailed => Failed case EndedClosed => Completed };
        TransitionState(id, Active, final, a.writeOk);
        return SyncedTerminal(final);
      case Live =>
        if !a.listOk {
          return Failing(DbError);
        }
        monitors := monitors[id := row.coordinator.value];
        return Resumed;
    }

    /** The ids of the ACTIVE rows, in whatever order the query yields them. */
    method ListActive() returns (ids: seq<Id>)
      ensures forall i, j :: 0 <= i < j < |ids| ==> ids[i] != ids[j]
      ensures forall id :: id in ids <==> id in rows && rows[id].state == Active
    {
      ids := [];
      var left := rows.Keys;
      while left != {}
        invariant left <= rows.Keys
        invariant forall i, j :: 0 <= i < j < |ids| ==> ids[i] != ids[j]
        invariant forall id :: id in ids <==> id in rows && rows[id].state == Active && id !in left
        decreases |left|
      {
        var id :| id in left;
        if rows[id].state == Active {
          ids := ids + [id];
        }
        left := left - {id};
      }
    }

    /**
     * Every session that was ACTIVE is reported once, under its verdict, and moves as the verdict
     * says; nothing else in the table changes; exactly the resumed ones get a monitor on their root.
     */
    method Run(listOk: bool, answers: Id -> Answer) returns (report: Report)
      modifies this
      ensures var dealt := if listOk then ActiveIds(old(rows)) else {};
        && RowsDealt(old(rows), dealt, answers, rows)
        && ReportDealt(old(rows), dealt, answers, report)
        && MonitorsDealt(old(rows), old(monitors), dealt, answers, monitors)
    {
      report := Report([], [], [], []);
      if !listOk {
        return;
      }
      var ids := ListActive();
      ghost var dealt: set<Id> := {};
      var i := 0;
      while i < |ids|
        invariant 0 <= i <= |ids| && dealt == Elements(ids, i)
        invariant RowsDealt(old(rows), dealt, answers, rows)
        invariant ReportDealt(old(rows), dealt, answers, report)
        invariant MonitorsDealt(old(rows), old(monitors), dealt, answers, monitors)
      {
        var id := ids[i];
        assert id in old(rows) && id !in dealt;
        RowsStep(old(rows), dealt, answers, rows, id);
        MonitorsStep(old(rows), old(monitors), dealt, answers, monitors, id);
        var outcome := RecoverOne(id, answers(id));
        ReportStep(old(rows), dealt, answers, report, id);
        report := FileUnder(report, id, outcome);
        dealt := dealt + {id};
        i := i + 1;
      }
      assert dealt == ActiveIds(old(rows));
    }
  }

  function FileUnder(report: Report, id: Id, outcome: Outcome): Report {
    match outcome
    case Resumed => report.(resumed := report.resumed + [id])
    case SyncedTerminal(state) => report.(synced := report.synced + [(id, state)])
    case Failing(reason) => report.(failed := report.failed + [(id, reason)])
    case SkippedUnavailable => report.(skipped := report.skipped + [id])
  }

  ghost function Elements(ids: seq<Id>, n: nat): set<Id>
    requires n <= |ids|
  {
    set k | 0 <= k < n :: ids[k]
  }

  function ActiveIds(rows: map<Id, Row>): set<Id> {
    set id | id in rows && rows[id].state == Active
  }

  ghost predicate RowsDealt(was: map<Id, Row>, dealt: set<Id>, answers: Id -> Answer, now: map<Id, Row>) {
    && now.Keys == was.Keys
    && forall id :: id in was ==> now[id] == if id in dealt then After(was[id], answers(id)) else was[id]
  }

  /** The dealt sessions are on the lists their verdicts name, and the lists hold nothing more. */
  ghost predicate ReportDealt(was: map<Id, Row>, dealt: set<Id>, answers: Id -> Answer, report: Report) {
    && Size(report) == |dealt|
    && forall id :: id in dealt ==> id in was && Filed(report, id, Verdict(was[id], answers(id)))
  }

  predicate Resumes(was: map<Id, Row>, answers: Id -> Answer, id: Id) {
    id in was && Verdict(was[id], answers(id)).Resumed?
  }

  ghost predicate MonitorsDealt(was: map<Id, Row>, before: map<Id, Id>, dealt: set<Id>, answers: Id -> Answer,
                                now: map<Id, Id>) {
    && (forall id :: id in now <==> id in before || (id in dealt && Resumes(was, answers, id)))
    && (forall id :: id in now ==>
          if id in dealt && Resumes(was, answers, id) then Some(now[id]) == was[id].coordinator
          else id in before && now[id] == before[id])
  }

  lemma RowsStep(was: map<Id, Row>, dealt: set<Id>, answers: Id -> Answer, now: map<Id, Row>, id: Id)
    requires RowsDealt(was, dealt, answers, now) && id in was && id !in dealt
    ensures now[id] == was[id]
    ensures RowsDealt(was, dealt + {id}, answers, now[id := After(was[id], answers(id))])
  {
  }

  lemma MonitorsStep(was: map<Id, Row>, before: map<Id, Id>, dealt: set<Id>, answers: Id -> Answer,
                     now: map<Id, Id>, id: Id)
    requires MonitorsDealt(was, before, dealt, answers, now) && id in was && id !in dealt
    ensures MonitorsDealt(was, before, dealt + {id}, answers,
      if Resumes(was, answers, id) then now[id := was[id].coordinator.value] else now)
  {
  }

  lemma ReportStep(was: map<Id, Row>, dealt: set<Id>, answers: Id -> Answer, report: Report, id: Id)
    requires ReportDealt(was, dealt, answers, report) && id in was && id !in dealt
    ensures ReportDealt(was, dealt + {id}, answers, FileUnder(report, id, Verdict(was[id], answers(id))))
  {
    var o := Verdict(was[id], answers(id));
    var next := FileUnder(report, id, o);
    forall x, y | Filed(report, x, y)
      ensures Filed(next, x, y)
    {
    }
    assert Filed(next, id, o) by {
      match o
      case Resumed => assert next.resumed[|report.resumed|] == id;
      case SyncedTerminal(state) => assert next.synced[|report.synced|] == (id, state);
      case Failing(reason) => assert next.failed[|report.failed|] == (id, reason);
      case SkippedUnavailable => assert next.skipped[|report.skipped|] == id;
    }
  }

  // A wholesale outage

  /** The runtime could not be asked about the session. */
  predicate Unanswered(row: Row, a: Answer) {
    row.coordinator.Some? && (a.sight.NoHighway? || a.sight.CodeUnavailable? || a.sight.CodeDeadline?)
  }

  lemma {:induction false} SetFitsInList(s: set<Id>, q: seq<Id>)
    requires forall x :: x in s ==> x in q
    ensures |s| <= |q|
  {
    if q == [] {
      assert s == {};
    } else {
      var n := |q| - 1;
      assert q == q[..n] + [q[n]];
      SetFitsInList(s - {q[n]}, q[..n]);
      assert |s| <= |s - {q[n]}| + 1;
    }
  }

  /** If no ACTIVE session can be probed, recovery changes no row, starts no monitor and reports them all skipped. */
  lemma OutageChangesNothing(was: map<Id, Row>, before: map<Id, Id>, answers: Id -> Answer, now: map<Id, Row>,
                             monitors: map<Id, Id>, report: Report)
    requires RowsDealt(was, ActiveIds(was), answers, now) && ReportDealt(was, ActiveIds(was), answers, report)
    requires MonitorsDealt(was, before, ActiveIds(was), answers, monitors)
    requires forall id :: id in ActiveIds(was) ==> Unanswered(was[id], answers(id))
    ensures now == was && monitors == before
    ensures report.resumed == [] && report.synced == [] && report.failed == []
    ensures forall id :: id in ActiveIds(was) ==> id in report.skipped
  {
    forall id | id in ActiveIds(was)
      ensures id in report.skipped
    {
      assert Unanswered(was[id], answers(id));
      assert Filed(report, id, Verdict(was[id], answers(id)));
    }
    SetFitsInList(ActiveIds(was), report.skipped);
    assert forall id :: id in was ==> now[id] == was[id];
  }
}
