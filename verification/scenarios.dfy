/** A worked migration: a "Bugs" tracker with one category "crash" (id 1),
    a status "closed" (id 2) and ticket 5 with one follow-up, run with the
    default options. */
module Scenarios {
  import opened Text
  import opened Labels
  import opened Export
  import opened Metadata
  import opened Migration

  const Report: Followup := Followup("7", "bob", "Confirmed")

  const Crash: Ticket := Ticket("5", "1", "100", "2", "alice", "App crashes", "It crashes on start", "http://x/5", [Report])

  function BugsTracker(groups: seq<Named>): Tracker {
    Tracker("Bugs", [Named("1", "crash")], groups, [Named("1", "open"), Named("2", "closed")], [Crash])
  }

  lemma CrashIsLabel()
    ensures Labelify("crash") == "crash"
  {
    assert IsLabel("crash");
    LabelifyFixpoint("crash");
  }

  /** With no group at all, the ticket's group id is unknown: the run creates
      the "crash" label, then stops with a KeyError before creating any issue. */
  lemma NoGroupStopsAfterLabels()
    ensures Migrate(BugsTracker([]), Defaults).trace == [CreateLabel("crash", LabelColor)]
    ensures Migrate(BugsTracker([]), Defaults).failure == Some(UnknownGroup("100"))
  {
    var t := BugsTracker([]);
    NoGroupResolvedBugs(t);
    NoGroupRun();
    assert ClosingStatuses(Defaults) == DefaultClosedStatuses;
    assert LabelOps(["crash"], false) == [CreateLabel("crash", LabelColor)];
  }

  const NoGroupResolved: Resolved := Resolved(map["1" := "crash"], map[], ["crash"], ["2"])

  lemma NoGroupResolvedBugs(t: Tracker)
    requires t == BugsTracker([])
    ensures Resolve(t, DefaultClosedStatuses) == NoGroupResolved
  {
    CrashIsLabel();
    BugsClosedIds(t.statuses);
  }

  /** Ticket 5 is not skipped and its group id "100" is unknown. */
  lemma NoGroupRun()
    ensures RunTickets(Defaults, NoGroupResolved, [Crash], 0) == Run([], [], Some(UnknownGroup("100")))
  {
    assert DigitsValue("5") == 5;
    assert Decide(Defaults, NoGroupResolved, Crash) == Abort(UnknownGroup("100"));
  }

  /** With the ticket's group present, the run creates both labels, then the
      issue with both labels, closes it (status 2 is "closed"), then adds
      bob's comment to it. The group's name "None" is the text of
      SourceForge's catch-all group, not a missing value. */
  lemma OneTicketMigrated()
    ensures Migrate(BugsTracker([Named("100", "None")]), Defaults).failure == None
    ensures var trace := Migrate(BugsTracker([Named("100", "None")]), Defaults).trace;
      && |trace| == 5
      && trace[0] == CreateLabel("crash", LabelColor)
      && trace[1] == CreateLabel("none", LabelColor)
      && trace[2] == CreateIssue("App crashes", IssueBody(Crash), ["crash", "none"])
      && trace[3] == CloseIssue(Assigned(0))
      && trace[4] == CreateComment(Assigned(0), CommentBody(Report))
  {
    BugsMigrate(BugsTracker([Named("100", "None")]));
  }

  const CrashOps: seq<Op> := [
    CreateIssue("App crashes", IssueBody(Crash), ["crash", "none"]),
    CloseIssue(Assigned(0)),
    CreateComment(Assigned(0), CommentBody(Report))]

  lemma BugsMigrate(t: Tracker)
    requires t == BugsTracker([Named("100", "None")])
    ensures Migrate(t, Defaults)
      == Run([CreateLabel("crash", LabelColor), CreateLabel("none", LabelColor)] + CrashOps, [Migrated("5", CrashPlan)], None)
  {
    ResolvedBugs(t);
    CrashRun();
    assert ClosingStatuses(Defaults) == DefaultClosedStatuses;
    BugsLabelCalls();
    assert Migrate(t, Defaults) == Run(LabelOps(BugsResolved.labels, false) + CrashOps, [Migrated("5", CrashPlan)], None);
  }

  lemma BugsLabelCalls()
    ensures LabelOps(["crash", "none"], false) == [CreateLabel("crash", LabelColor), CreateLabel("none", LabelColor)]
  {
    assert ["crash", "none"][..1] == ["crash"];
  }

  const BugsResolved: Resolved := Resolved(map["1" := "crash"], map["100" := "none"], ["crash", "none"], ["2"])

  const CrashPlan: IssuePlan := IssuePlan("App crashes", IssueBody(Crash), ["crash", "none"], true, [CommentBody(Report)])

  /** Ticket 5 is migrated, closed, and gets its one comment. */
  lemma CrashRun()
    ensures RunTickets(Defaults, BugsResolved, [Crash], 0) == Run(CrashOps, [Migrated("5", CrashPlan)], None)
  {
    assert DigitsValue("5") == 5;
    assert ExtraLabels(Defaults) == [];
    assert CommentBodies([Report]) == [CommentBody(Report)];
    assert Decide(Defaults, BugsResolved, Crash) == Proceed(CrashPlan);
    TicketOpsShape(CrashPlan, Assigned(0));
    assert [Crash][1..] == [];
  }

  lemma NoneIsLabel()
    ensures Labelify("None") == "none"
  {
    assert Lower("None") == "none";
    assert IsLabel("none");
    LabelifyFixpoint("none");
  }

  /** The metadata of the tracker with its group. */
  lemma ResolvedBugs(t: Tracker)
    requires t == BugsTracker([Named("100", "None")])
    ensures Resolve(t, DefaultClosedStatuses) == BugsResolved
  {
    BugsLabels(t);
    BugsClosedIds(t.statuses);
  }

  lemma BugsLabels(t: Tracker)
    requires t == BugsTracker([Named("100", "None")])
    ensures IdLabels(t.categories) == map["1" := "crash"]
    ensures IdLabels(t.groups) == map["100" := "none"]
    ensures LabelList(t) == ["crash", "none"]
  {
    CrashIsLabel();
    NoneIsLabel();
    SingleIdLabels(Named("1", "crash"));
    SingleIdLabels(Named("100", "None"));
    var l := LabelList(t);
    assert l[0] == "crash" && l[1] == "none";
  }

  /** A single entry maps its id to its label. */
  lemma SingleIdLabels(item: Named)
    ensures IdLabels([item]) == map[item.id := Labelify(item.name)]
  {
    assert [item][..0] == [];
  }

  lemma BugsClosedIds(statuses: seq<Named>)
    requires statuses == [Named("1", "open"), Named("2", "closed")]
    ensures ClosedStatusIds(statuses, DefaultClosedStatuses) == ["2"]
  {
    assert Lower("closed") == "closed";
    assert Lower("open") != "closed" && Lower("open") != "deleted";
    assert statuses[..1] == [Named("1", "open")];
  }
}
