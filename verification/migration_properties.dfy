/** Properties of the migration planner that relate several runs or the
    whole trace: the log and failure point of a run, the equivalence of dry
    and real runs, the order of calls and the issue each call goes to. */
module MigrationProperties {
  import opened Text
  import opened Labels
  import opened Export
  import opened Metadata
  import opened Migration

  /** No ticket of `ts` fails. */
  predicate NoneFails(o: Options, r: Resolved, ts: seq<Ticket>) {
    forall i :: 0 <= i < |ts| ==> !Fails(o, r, ts[i])
  }

  lemma NoneFailsStep(o: Options, r: Resolved, ts: seq<Ticket>)
    requires |ts| > 0
    ensures NoneFails(o, r, ts) <==> !Fails(o, r, ts[0]) && NoneFails(o, r, ts[1..])
  {
    if !Fails(o, r, ts[0]) && NoneFails(o, r, ts[1..]) {
      forall i | 0 < i < |ts|
        ensures !Fails(o, r, ts[i])
      {
        assert ts[1..][i - 1] == ts[i];
      }
    }
  }

  /** A run fails exactly when one of its tickets fails. */
  lemma {:induction false} RunTicketsFails(o: Options, r: Resolved, ts: seq<Ticket>, issued: nat)
    ensures RunTickets(o, r, ts, issued).failure.None? <==> NoneFails(o, r, ts)
    decreases |ts|
  {
    if |ts| > 0 {
      NoneFailsStep(o, r, ts);
      match Decide(o, r, ts[0])
      case Abort(f) =>
      case Skip =>
        RunTicketsFails(o, r, ts[1..], issued);
      case Proceed(p) =>
        RunTicketsFails(o, r, ts[1..], if o.dryRun then issued else issued + 1);
    }
  }

  /** A run that fails carries the exception of the ticket just after the
      last log line; a run that does not logs every ticket. */
  lemma {:induction false} RunTicketsFailure(o: Options, r: Resolved, ts: seq<Ticket>, issued: nat)
    ensures var run := RunTickets(o, r, ts, issued);
      && (run.failure.None? ==> |run.log| == |ts|)
      && (run.failure.Some? ==> |run.log| < |ts| && Decide(o, r, ts[|run.log|]) == Abort(run.failure.value))
    decreases |ts|
  {
    if |ts| > 0 {
      var rest := ts[1..];
      var d := Decide(o, r, ts[0]);
      if d.Skip? || d.Proceed? {
        var next := if d.Skip? || o.dryRun then issued else issued + 1;
        if d.Skip? {
          RunTicketsSkip(o, r, ts, issued);
        } else {
          RunTicketsProceed(o, r, ts, issued);
        }
        RunTicketsFailure(o, r, rest, next);
        var tail := RunTickets(o, r, rest, next);
        assert |RunTickets(o, r, ts, issued).log| == |tail.log| + 1;
        assert tail.failure.Some? ==> ts[|tail.log| + 1] == rest[|tail.log|];
      }
    }
  }

  /** The first failing ticket `ts[i]` stops the run with its exception,
      after `i` log lines. */
  lemma {:induction false} FirstFailureStops(o: Options, r: Resolved, ts: seq<Ticket>, issued: nat, i: int)
    requires 0 <= i < |ts| && Fails(o, r, ts[i])
    requires forall j :: 0 <= j < i ==> !Fails(o, r, ts[j])
    ensures RunTickets(o, r, ts, issued).failure == Some(Decide(o, r, ts[i]).failure)
    ensures |RunTickets(o, r, ts, issued).log| == i
    decreases |ts|
  {
    if i > 0 {
      var rest := ts[1..];
      assert forall j :: 0 <= j < |rest| ==> rest[j] == ts[j + 1];
      assert !Fails(o, r, ts[0]);
      match Decide(o, r, ts[0])
      case Skip =>
        FirstFailureStops(o, r, rest, issued, i - 1);
      case Proceed(p) =>
        FirstFailureStops(o, r, rest, if o.dryRun then issued else issued + 1, i - 1);
    }
  }

  /** Log line `e` is what the run prints for ticket `t`: the ticket's own
      id, a skip exactly when the id is below the start id, and for a
      migrated ticket the plan `handleTicket` composes; a failing ticket has
      no line. */
  predicate LogLine(o: Options, r: Resolved, t: Ticket, e: Entry) {
    && !Fails(o, r, t)
    && e.ticketId == t.id
    && (e.Skipped? <==> IsNumeral(t.id) && NumeralValue(t.id) < o.startId)
    && (e.Migrated? ==> Decide(o, r, t) == Proceed(e.plan))
  }

  /** The log of a run follows export order, one line per processed ticket. */
  lemma {:induction false} RunTicketsLog(o: Options, r: Resolved, ts: seq<Ticket>, issued: nat)
    ensures var log := RunTickets(o, r, ts, issued).log;
      && |log| <= |ts|
      && forall i :: 0 <= i < |log| ==> LogLine(o, r, ts[i], log[i])
    decreases |ts|
  {
    if |ts| > 0 {
      var rest := ts[1..];
      var log := RunTickets(o, r, ts, issued).log;
      match Decide(o, r, ts[0])
      case Abort(f) =>
      case Skip =>
        RunTicketsLog(o, r, rest, issued);
        LogStep(o, r, ts, log, RunTickets(o, r, rest, issued).log);
      case Proceed(p) =>
        var next := if o.dryRun then issued else issued + 1;
        RunTicketsLog(o, r, rest, next);
        LogStep(o, r, ts, log, RunTickets(o, r, rest, next).log);
    }
  }

  /** Every migrated line of a run belongs to the ticket at the same
      position of the export and carries the issue composed from the
      tracker's category, group and status entries. */
  lemma MigratedIssueFromTracker(t: Tracker, o: Options, k: int)
    requires 0 <= k < |Migrate(t, o).log| && Migrate(t, o).log[k].Migrated?
    ensures k < |t.tickets| && Migrate(t, o).log[k].ticketId == t.tickets[k].id
    ensures var p := Migrate(t, o).log[k].plan;
      && |p.labels| == 2 + |ExtraLabels(o)|
      && exists i ::
           && 0 <= i < |t.categories| && t.categories[i].id == t.tickets[k].categoryId
           && IsLastWithId(t.categories, i) && p.labels[0] == Labelify(t.categories[i].name)
    ensures var p := Migrate(t, o).log[k].plan;
      exists j ::
        && 0 <= j < |t.groups| && t.groups[j].id == t.tickets[k].groupId
        && IsLastWithId(t.groups, j) && p.labels[1] == Labelify(t.groups[j].name)
    ensures Migrate(t, o).log[k].plan.labels[2..] == ExtraLabels(o)
    ensures Migrate(t, o).log[k].plan.closed <==> exists s ::
      && 0 <= s < |t.statuses| && t.statuses[s].id == t.tickets[k].statusId
      && IsAscii(Lower(t.statuses[s].name)) && Lower(t.statuses[s].name) in ClosingStatuses(o)
    ensures var p := Migrate(t, o).log[k].plan;
      && p.title == t.tickets[k].summary
      && p.body == IssueBody(t.tickets[k])
      && |p.comments| == |t.tickets[k].followups|
  {
    var r := Resolve(t, ClosingStatuses(o));
    RunTicketsLog(o, r, t.tickets, 0);
    var tk := t.tickets[k];
    assert LogLine(o, r, tk, Migrate(t, o).log[k]);
    assert tk.categoryId in (set i | 0 <= i < |t.categories| :: t.categories[i].id);
    assert tk.groupId in (set j | 0 <= j < |t.groups| :: t.groups[j].id);
    ProceedPlan(t, o, r, tk);
    ProceedLabels(t, o, r, tk);
  }

  /** A log line for the first ticket in front of a log of the rest. */
  lemma LogStep(o: Options, r: Resolved, ts: seq<Ticket>, log: seq<Entry>, tail: seq<Entry>)
    requires |ts| > 0 && |log| > 0 && log[1..] == tail && LogLine(o, r, ts[0], log[0])
    requires |tail| <= |ts| - 1 && forall i :: 0 <= i < |tail| ==> LogLine(o, r, ts[1..][i], tail[i])
    ensures |log| <= |ts| && forall i :: 0 <= i < |log| ==> LogLine(o, r, ts[i], log[i])
  {
    forall i | 0 < i < |log|
      ensures LogLine(o, r, ts[i], log[i])
    {
      assert ts[1..][i - 1] == ts[i] && tail[i - 1] == log[i];
    }
  }

  /** Two runs whose options agree on the start id and the extra labels make
      the same decisions and stop at the same failure, whatever their
      dry-run flags and issue counters. */
  lemma {:induction false} SameDecisions(o1: Options, o2: Options, r: Resolved, ts: seq<Ticket>, k1: nat, k2: nat)
    requires o1.startId == o2.startId && o1.extraLabels == o2.extraLabels
    ensures RunTickets(o1, r, ts, k1).log == RunTickets(o2, r, ts, k2).log
    ensures RunTickets(o1, r, ts, k1).failure == RunTickets(o2, r, ts, k2).failure
    decreases |ts|
  {
    if |ts| > 0 {
      var rest := ts[1..];
      assert forall i :: 0 <= i < |rest| ==> rest[i] == ts[i + 1];
      assert Decide(o1, r, ts[0]) == Decide(o2, r, ts[0]);
      SameDecisions(o1, o2, r, rest, if o1.dryRun then k1 else k1 + 1, if o2.dryRun then k2 else k2 + 1);
      SameDecisions(o1, o2, r, rest, k1, k2);
    }
  }

  /** A dry run prints the same decisions as a real run over the same
      export, and fails at the same ticket, while calling nothing. */
  lemma DryRunDecidesAlike(t: Tracker, o: Options)
    ensures Migrate(t, o.(dryRun := true)).trace == []
    ensures Migrate(t, o.(dryRun := true)).log == Migrate(t, o.(dryRun := false)).log
    ensures Migrate(t, o.(dryRun := true)).failure == Migrate(t, o.(dryRun := false)).failure
  {
    var r := Resolve(t, ClosingStatuses(o));
    SameDecisions(o.(dryRun := true), o.(dryRun := false), r, t.tickets, 0, 0);
  }

  /** The calls a real run makes for a log, the `issued`-th issue first:
      nothing for a skip, the ticket's calls for a migrated entry. */
  function Replay(log: seq<Entry>, issued: nat): seq<Op>
    decreases |log|
  {
    if |log| == 0 then []
    else match log[0]
      case Skipped(_) => Replay(log[1..], issued)
      case Migrated(_, p) => TicketOps(p, Assigned(issued), false) + Replay(log[1..], issued + 1)
  }

  /** A real run's ticket calls are exactly the replay of its log. */
  lemma {:induction false} RealRunReplaysLog(o: Options, r: Resolved, ts: seq<Ticket>, issued: nat)
    requires !o.dryRun
    ensures RunTickets(o, r, ts, issued).trace == Replay(RunTickets(o, r, ts, issued).log, issued)
    decreases |ts|
  {
    if |ts| > 0 {
      var rest := ts[1..];
      assert forall i :: 0 <= i < |rest| ==> rest[i] == ts[i + 1];
      var run := RunTickets(o, r, ts, issued);
      match Decide(o, r, ts[0])
      case Abort(f) =>
      case Skip =>
        RealRunReplaysLog(o, r, rest, issued);
        assert run.log[1..] == RunTickets(o, r, rest, issued).log;
      case Proceed(p) =>
        RealRunReplaysLog(o, r, rest, issued + 1);
        assert run.log[1..] == RunTickets(o, r, rest, issued + 1).log;
    }
  }

  /** A dry run predicts a real run exactly: the real run's calls are the
      label calls followed by the replay of the dry run's log. */
  lemma DryRunPredictsRealRun(t: Tracker, o: Options)
    ensures Migrate(t, o.(dryRun := false)).trace
      == (if o.createLabels then LabelOps(LabelList(t), false) else [])
         + Replay(Migrate(t, o.(dryRun := true)).log, 0)
  {
    var r := Resolve(t, ClosingStatuses(o));
    DryRunDecidesAlike(t, o);
    RealRunReplaysLog(o.(dryRun := false), r, t.tickets, 0);
  }

  /** How many issues the calls `ops` create. */
  function IssuesCreated(ops: seq<Op>): nat
    decreases |ops|
  {
    if |ops| == 0 then 0
    else IssuesCreated(ops[..|ops| - 1]) + (if ops[|ops| - 1].CreateIssue? then 1 else 0)
  }

  lemma {:induction false} IssuesCreatedConcat(a: seq<Op>, b: seq<Op>)
    ensures IssuesCreated(a + b) == IssuesCreated(a) + IssuesCreated(b)
    decreases |b|
  {
    if |b| == 0 {
      assert a + b == a;
    } else {
      var init := b[..|b| - 1];
      assert (a + b)[..|a + b| - 1] == a + init;
      IssuesCreatedConcat(a, init);
    }
  }

  lemma {:induction false} NoIssuesCreated(ops: seq<Op>)
    requires forall i :: 0 <= i < |ops| ==> !ops[i].CreateIssue?
    ensures IssuesCreated(ops) == 0
    decreases |ops|
  {
    if |ops| > 0 {
      NoIssuesCreated(ops[..|ops| - 1]);
    }
  }

  /** Every close and every comment goes to the issue created last before
      it; the first issue created is number `base`. */
  predicate RefersToLatest(ops: seq<Op>, base: nat) {
    forall i :: 0 <= i < |ops| && (ops[i].CloseIssue? || ops[i].CreateComment?) ==>
      IssuesCreated(ops[..i]) > 0 && ops[i].issue == Assigned(base + IssuesCreated(ops[..i]) - 1)
  }

  /** Within the calls of one ticket, everything after the first call is a
      close or a comment on that ticket's issue, and exactly one issue has
      been created before it. */
  lemma TicketOpsRefer(p: IssuePlan, issue: IssueNumber, i: int)
    requires 0 < i <= |TicketOps(p, issue, false)|
    ensures IssuesCreated(TicketOps(p, issue, false)[..i]) == 1
    ensures i < |TicketOps(p, issue, false)| ==>
      var op := TicketOps(p, issue, false)[i];
      (op.CloseIssue? || op.CreateComment?) && op.issue == issue
  {
    var ops := TicketOps(p, issue, false);
    TicketOpsShape(p, issue);
    var head := ops[..i];
    assert head == [ops[0]] + head[1..];
    NoIssuesCreated(head[1..]);
    NoIssuesCreated([]);
    IssuesCreatedConcat([ops[0]], head[1..]);
    assert [ops[0]][..0] == [];
  }

  /** One index of a ticket's calls followed by a well-referenced rest. */
  lemma TicketThenRestRefersAt(p: IssuePlan, issued: nat, tail: seq<Op>, i: int)
    requires RefersToLatest(tail, issued + 1)
    requires 0 <= i < |TicketOps(p, Assigned(issued), false) + tail|
    requires (TicketOps(p, Assigned(issued), false) + tail)[i].CloseIssue?
          || (TicketOps(p, Assigned(issued), false) + tail)[i].CreateComment?
    ensures var ops := TicketOps(p, Assigned(issued), false) + tail;
      IssuesCreated(ops[..i]) > 0 && ops[i].issue == Assigned(issued + IssuesCreated(ops[..i]) - 1)
  {
    var head := TicketOps(p, Assigned(issued), false);
    var ops := head + tail;
    if i < |head| {
      assert ops[..i] == head[..i];
      assert ops[i] == head[i];
      TicketOpsRefer(p, Assigned(issued), i);
    } else {
      var j := i - |head|;
      assert ops[..i] == head + tail[..j];
      assert ops[i] == tail[j];
      TicketOpsRefer(p, Assigned(issued), |head|);
      assert head[..|head|] == head;
      IssuesCreatedConcat(head, tail[..j]);
    }
  }

  /** A ticket's calls in front of a well-referenced rest, whose first issue
      is the next number, keep every reference on the latest issue. */
  lemma TicketThenRestRefers(p: IssuePlan, issued: nat, tail: seq<Op>)
    requires RefersToLatest(tail, issued + 1)
    ensures RefersToLatest(TicketOps(p, Assigned(issued), false) + tail, issued)
  {
    var ops := TicketOps(p, Assigned(issued), false) + tail;
    forall i | 0 <= i < |ops| && (ops[i].CloseIssue? || ops[i].CreateComment?)
      ensures IssuesCreated(ops[..i]) > 0 && ops[i].issue == Assigned(issued + IssuesCreated(ops[..i]) - 1)
    {
      TicketThenRestRefersAt(p, issued, tail, i);
    }
  }

  /** Replaying any log sends each close and comment to the latest issue. */
  lemma {:induction false} ReplayRefersToLatest(log: seq<Entry>, issued: nat)
    ensures RefersToLatest(Replay(log, issued), issued)
    decreases |log|
  {
    if |log| > 0 {
      match log[0]
      case Skipped(_) =>
        ReplayRefersToLatest(log[1..], issued);
      case Migrated(_, p) =>
        ReplayRefersToLatest(log[1..], issued + 1);
        TicketThenRestRefers(p, issued, Replay(log[1..], issued + 1));
    }
  }

  /** Calls that create, close or comment on no issue in front of a
      well-referenced trace keep it well referenced. */
  lemma LabelPrefixKeepsReferences(labels: seq<Op>, ops: seq<Op>, base: nat)
    requires forall i :: 0 <= i < |labels| ==> labels[i].CreateLabel?
    requires RefersToLatest(ops, base)
    ensures RefersToLatest(labels + ops, base)
  {
    NoIssuesCreated(labels);
    var all := labels + ops;
    forall i | 0 <= i < |all| && (all[i].CloseIssue? || all[i].CreateComment?)
      ensures IssuesCreated(all[..i]) > 0 && all[i].issue == Assigned(base + IssuesCreated(all[..i]) - 1)
    {
      var j := i - |labels|;
      assert all[..i] == labels + ops[..j];
      assert all[i] == ops[j];
      IssuesCreatedConcat(labels, ops[..j]);
    }
  }

  /** In every run, each close and each comment is sent to the issue most
      recently created, so comments follow their issue and its closing. */
  lemma MigrateRefersToLatest(t: Tracker, o: Options)
    ensures RefersToLatest(Migrate(t, o).trace, 0)
  {
    if !o.dryRun {
      var r := Resolve(t, ClosingStatuses(o));
      var run := RunTickets(o, r, t.tickets, 0);
      RealRunReplaysLog(o, r, t.tickets, 0);
      ReplayRefersToLatest(run.log, 0);
      var labelOps := if o.createLabels then LabelOps(r.labels, false) else [];
      LabelPrefixKeepsReferences(labelOps, run.trace, 0);
    }
  }

  /** How many tickets a log records as migrated. */
  function MigratedCount(log: seq<Entry>): nat
    decreases |log|
  {
    if |log| == 0 then 0 else (if log[0].Migrated? then 1 else 0) + MigratedCount(log[1..])
  }

  lemma {:induction false} ReplayCreatesOnePerTicket(log: seq<Entry>, issued: nat)
    ensures IssuesCreated(Replay(log, issued)) == MigratedCount(log)
    decreases |log|
  {
    if |log| > 0 {
      ReplayCreatesOnePerTicket(log[1..], if log[0].Migrated? then issued + 1 else issued);
      if log[0].Migrated? {
        var head := TicketOps(log[0].plan, Assigned(issued), false);
        TicketOpsRefer(log[0].plan, Assigned(issued), |head|);
        assert head[..|head|] == head;
        IssuesCreatedConcat(head, Replay(log[1..], issued + 1));
      }
    }
  }

  /** A real run creates exactly one issue per migrated ticket. */
  lemma OneIssuePerMigratedTicket(t: Tracker, o: Options)
    requires !o.dryRun
    ensures IssuesCreated(Migrate(t, o).trace) == MigratedCount(Migrate(t, o).log)
  {
    var r := Resolve(t, ClosingStatuses(o));
    var run := RunTickets(o, r, t.tickets, 0);
    RealRunReplaysLog(o, r, t.tickets, 0);
    ReplayCreatesOnePerTicket(run.log, 0);
    var labelOps := if o.createLabels then LabelOps(r.labels, false) else [];
    NoIssuesCreated(labelOps);
    IssuesCreatedConcat(labelOps, run.trace);
  }

  /** A ticket below the start id adds a skip line to the log and nothing
      else, and its category and group ids are never looked up. */
  lemma SkippedTicketIsInert(o: Options, r: Resolved, t: Ticket, rest: seq<Ticket>, issued: nat)
    requires IsNumeral(t.id) && NumeralValue(t.id) < o.startId
    ensures RunTickets(o, r, [t] + rest, issued)
      == Run(RunTickets(o, r, rest, issued).trace,
             [Skipped(t.id)] + RunTickets(o, r, rest, issued).log,
             RunTickets(o, r, rest, issued).failure)
  {
    assert ([t] + rest)[0] == t;
    assert ([t] + rest)[1..] == rest;
  }

  /** With the default start id -1, no ticket with a non-negative id is
      skipped. */
  lemma DefaultStartSkipsNothing(o: Options, r: Resolved, ts: seq<Ticket>)
    requires o.startId == Defaults.startId
    requires forall i :: 0 <= i < |ts| ==> IsDigits(ts[i].id)
    ensures forall i :: 0 <= i < |RunTickets(o, r, ts, 0).log| ==> RunTickets(o, r, ts, 0).log[i].Migrated?
  {
    RunTicketsLog(o, r, ts, 0);
  }

  /** The first processed ticket whose category id, or else group id, names
      no category or group of the tracker stops the run with a KeyError for
      that id; the log then ends just before it. */
  lemma UnknownIdStopsRun(t: Tracker, o: Options, i: int)
    requires 0 <= i < |t.tickets|
    requires IsNumeral(t.tickets[i].id) && NumeralValue(t.tickets[i].id) >= o.startId
    requires forall j :: 0 <= j < |t.categories| ==> t.categories[j].id != t.tickets[i].categoryId
    requires forall j :: 0 <= j < i ==> !Fails(o, Resolve(t, ClosingStatuses(o)), t.tickets[j])
    ensures Migrate(t, o).failure == Some(UnknownCategory(t.tickets[i].categoryId))
    ensures |Migrate(t, o).log| == i
  {
    var r := Resolve(t, ClosingStatuses(o));
    assert t.tickets[i].categoryId !in r.categories;
    FirstFailureStops(o, r, t.tickets, 0, i);
  }

  /** The same for a group id, once the category id is known. */
  lemma UnknownGroupStopsRun(t: Tracker, o: Options, i: int)
    requires 0 <= i < |t.tickets|
    requires IsNumeral(t.tickets[i].id) && NumeralValue(t.tickets[i].id) >= o.startId
    requires exists j :: 0 <= j < |t.categories| && t.categories[j].id == t.tickets[i].categoryId
    requires forall j :: 0 <= j < |t.groups| ==> t.groups[j].id != t.tickets[i].groupId
    requires forall j :: 0 <= j < i ==> !Fails(o, Resolve(t, ClosingStatuses(o)), t.tickets[j])
    ensures Migrate(t, o).failure == Some(UnknownGroup(t.tickets[i].groupId))
    ensures |Migrate(t, o).log| == i
  {
    var r := Resolve(t, ClosingStatuses(o));
    assert t.tickets[i].categoryId in r.categories;
    assert t.tickets[i].groupId !in r.groups;
    FirstFailureStops(o, r, t.tickets, 0, i);
  }

  /** A ticket whose id `int()` rejects stops the run with a ValueError
      whatever the start id, since the conversion comes before the skip
      test; the log then ends just before it. */
  lemma BadIdStopsRun(t: Tracker, o: Options, i: int)
    requires 0 <= i < |t.tickets|
    requires !IsNumeral(t.tickets[i].id)
    requires forall j :: 0 <= j < i ==> !Fails(o, Resolve(t, ClosingStatuses(o)), t.tickets[j])
    ensures Migrate(t, o).failure == Some(BadTicketId(t.tickets[i].id))
    ensures |Migrate(t, o).log| == i
  {
    FirstFailureStops(o, Resolve(t, ClosingStatuses(o)), t.tickets, 0, i);
  }
}
