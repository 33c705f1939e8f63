/** The migration planner: `handleTracker`'s label and ticket loops
    (migrate.py:260-274), `handleTicket` (migrate.py:157-209) and
    `handleComment` (migrate.py:144-155), with every call to the remote
    service replaced by an operation appended to a trace. */
module Migration {
  import opened Text
  import opened Labels
  import opened Export
  import opened Metadata

  /** The colour every created label gets. */
  const LabelColor: string := "FFFFFF"

  /** The issue number a close or a comment is sent to. `Assigned(k)` is the
      number the remote service returned for the k-th issue created in the
      run (counting from 0); `Placeholder` is the "0" of a dry run. */
  datatype IssueNumber = Placeholder | Assigned(ordinal: nat)

  /** One remote call. */
  datatype Op =
    | CreateLabel(name: string, color: string)
    | CreateIssue(title: string, body: string, labels: seq<string>)
    | CloseIssue(issue: IssueNumber)
    | CreateComment(issue: IssueNumber, body: string)

  /** The exception that stops the run at a ticket: the ValueError of
      `int(id)` on an id that is not a decimal numeral, or the KeyError of a
      category or group id that is not in the resolved maps. */
  datatype Failure = BadTicketId(id: string) | UnknownCategory(key: string) | UnknownGroup(key: string)

  /** What the script decides and prints for one migrated ticket. */
  datatype IssuePlan = IssuePlan(
    title: string,
    body: string,
    labels: seq<string>,
    closed: bool,
    comments: seq<string>)

  /** One line of the run's log: a skipped ticket, or a migrated one. */
  datatype Entry = Skipped(ticketId: string) | Migrated(ticketId: string, plan: IssuePlan)

  /** A run: the remote calls made, the decisions printed, and the exception
      that stopped it, if any. The calls made before the error stay in the
      trace: the script has no rollback. */
  datatype Run = Run(trace: seq<Op>, log: seq<Entry>, failure: Option<Failure>)

  /** The marker that opens the body of every migrated issue. */
  const IssueMarker: string := "[Issue migrated from SourceForge, id '"

  /** The text between the id and the submitter in an issue body. */
  const SubmitterMarker: string := "', submitted by '"

  /** The marker that opens the body of every migrated comment. */
  const CommentMarker: string := "[Comment migrated from SourceForge, submitted by '"

  /** `part` occurs in `s` starting at index `i`. */
  predicate At<T(==)>(s: seq<T>, i: int, part: seq<T>) {
    0 <= i && i + |part| <= |s| && forall k :: 0 <= k < |part| ==> s[i + k] == part[k]
  }

  /** Nine parts laid end to end, with where each part of an issue body
      sits, whatever the parts hold. */
  function IssueLayout<T>(marker: seq<T>, id: seq<T>, between: seq<T>, submitter: seq<T>,
                          opening: seq<T>, url: seq<T>, closing: seq<T>, gap: seq<T>, details: seq<T>): (w: seq<T>)
    requires |closing| == 1 && |gap| == 2
    ensures |w| == |marker| + |id| + |between| + |submitter| + |opening| + |url| + 3 + |details|
    ensures At(w, 0, marker)
    ensures At(w, |marker|, id)
    ensures At(w, |marker| + |id|, between)
    ensures At(w, |marker| + |id| + |between|, submitter)
    ensures At(w, |marker| + |id| + |between| + |submitter|, opening)
    ensures At(w, |w| - |details| - 3 - |url|, url)
    ensures At(w, |w| - |details| - 3, closing)
    ensures At(w, |w| - |details| - 2, gap + details)
  {
    marker + id + between + submitter + opening + url + closing + gap + details
  }

  /** The issue body (migrate.py:177-178): the marker and the SourceForge id,
      the submitter and the item URL, then a blank line and the original
      details, kept verbatim. */
  function IssueBody(t: Ticket): (b: string)
    ensures |b| == |IssueMarker| + |t.id| + |SubmitterMarker| + |t.submitter| + 5 + |t.url| + 3 + |t.details|
    ensures At(b, 0, IssueMarker)
    ensures At(b, |IssueMarker|, t.id)
    ensures At(b, |IssueMarker| + |t.id|, SubmitterMarker)
    ensures At(b, |IssueMarker| + |t.id| + |SubmitterMarker|, t.submitter)
    ensures At(b, |IssueMarker| + |t.id| + |SubmitterMarker| + |t.submitter|, "'.]\n[")
    ensures At(b, |b| - |t.details| - 3 - |t.url|, t.url)
    ensures At(b, |b| - |t.details| - 3, "]")
    ensures At(b, |b| - |t.details| - 2, "\n\n" + t.details)
  {
    IssueLayout(IssueMarker, t.id, SubmitterMarker, t.submitter, "'.]\n[", t.url, "]", "\n\n", t.details)
  }

  /** Reading an issue body back: two tickets whose id, submitter and URL
      have the same lengths and whose bodies are equal carry the same id,
      submitter, URL and details. */
  lemma IssueBodyReadsBack(t1: Ticket, t2: Ticket)
    requires |t1.id| == |t2.id| && |t1.submitter| == |t2.submitter| && |t1.url| == |t2.url|
    requires IssueBody(t1) == IssueBody(t2)
    ensures t1.id == t2.id && t1.submitter == t2.submitter && t1.url == t2.url && t1.details == t2.details
  {
    var b := IssueBody(t1);
    AtSame(b, |IssueMarker|, t1.id, t2.id);
    AtSame(b, |IssueMarker| + |t1.id| + |SubmitterMarker|, t1.submitter, t2.submitter);
    AtSame(b, |b| - |t1.details| - 3 - |t1.url|, t1.url, t2.url);
    AtSame(b, |b| - |t1.details| - 2, "\n\n" + t1.details, "\n\n" + t2.details);
    assert t1.details == ("\n\n" + t1.details)[2..];
  }

  /** Two parts of the same length at the same place are equal. */
  lemma AtSame<T>(s: seq<T>, i: int, x: seq<T>, y: seq<T>)
    requires At(s, i, x) && At(s, i, y) && |x| == |y|
    ensures x == y
  {
    assert forall k :: 0 <= k < |x| ==> x[k] == s[i + k] == y[k];
  }

  /** Five parts laid end to end, with where each part of a comment body
      sits, whatever the parts hold. */
  function CommentLayout<T>(marker: seq<T>, submitter: seq<T>, closing: seq<T>, gap: seq<T>, details: seq<T>): (w: seq<T>)
    requires |gap| == 2
    ensures |w| == |marker| + |submitter| + |closing| + 2 + |details|
    ensures At(w, 0, marker)
    ensures At(w, |marker|, submitter)
    ensures At(w, |marker| + |submitter|, closing)
    ensures At(w, |w| - |details| - 2, gap + details)
  {
    marker + submitter + closing + gap + details
  }

  /** The comment body (migrate.py:148): the marker and the submitter, then
      a blank line and the original details, kept verbatim. */
  function CommentBody(f: Followup): (b: string)
    ensures |b| == |CommentMarker| + |f.submitter| + 5 + |f.details|
    ensures At(b, 0, CommentMarker)
    ensures At(b, |CommentMarker|, f.submitter)
    ensures At(b, |CommentMarker| + |f.submitter|, "'.]")
    ensures At(b, |b| - |f.details| - 2, "\n\n" + f.details)
  {
    CommentLayout(CommentMarker, f.submitter, "'.]", "\n\n", f.details)
  }

  /** Reading a comment body back: two follow-ups whose submitters have the
      same length and whose bodies are equal carry the same submitter and
      details. */
  lemma CommentBodyReadsBack(f1: Followup, f2: Followup)
    requires |f1.submitter| == |f2.submitter|
    requires CommentBody(f1) == CommentBody(f2)
    ensures f1.submitter == f2.submitter && f1.details == f2.details
  {
    var b := CommentBody(f1);
    AtSame(b, |CommentMarker|, f1.submitter, f2.submitter);
    AtSame(b, |b| - |f1.details| - 2, "\n\n" + f1.details, "\n\n" + f2.details);
    assert f1.details == ("\n\n" + f1.details)[2..];
  }

  function CommentBodies(followups: seq<Followup>): (r: seq<string>)
    ensures |r| == |followups|
  {
    seq(|followups|, i requires 0 <= i < |followups| => CommentBody(followups[i]))
  }

  /** `if not opts.dry_run: <call>`. */
  function Remote(dryRun: bool, op: Op): seq<Op> {
    if dryRun then [] else [op]
  }

  /** The label-creation loop (migrate.py:260-268), one call per entry. */
  function LabelOps(labels: seq<string>, dryRun: bool): (ops: seq<Op>)
    ensures dryRun ==> ops == []
    ensures !dryRun ==> |ops| == |labels|
    ensures !dryRun ==> forall i :: 0 <= i < |labels| ==> ops[i] == CreateLabel(labels[i], LabelColor)
  {
    if |labels| == 0 then []
    else
      var init := labels[..|labels| - 1];
      assert forall i :: 0 <= i < |init| ==> init[i] == labels[i];
      LabelOps(init, dryRun) + Remote(dryRun, CreateLabel(labels[|labels| - 1], LabelColor))
  }

  /** The comment loop of `handleTicket`, one `handleComment` per body. */
  function CommentOps(bodies: seq<string>, issue: IssueNumber, dryRun: bool): (ops: seq<Op>)
    ensures dryRun ==> ops == []
    ensures !dryRun ==> |ops| == |bodies|
    ensures !dryRun ==> forall i :: 0 <= i < |bodies| ==> ops[i] == CreateComment(issue, bodies[i])
    ensures forall i :: 0 <= i < |ops| ==> ops[i].CreateComment? && ops[i].issue == issue
  {
    if |bodies| == 0 then []
    else
      var init := bodies[..|bodies| - 1];
      assert forall i :: 0 <= i < |init| ==> init[i] == bodies[i];
      CommentOps(init, issue, dryRun) + Remote(dryRun, CreateComment(issue, bodies[|bodies| - 1]))
  }

  /** The calls of one migrated ticket. */
  function TicketOps(p: IssuePlan, issue: IssueNumber, dryRun: bool): (ops: seq<Op>)
    ensures dryRun ==> ops == []
  {
    Remote(dryRun, CreateIssue(p.title, p.body, p.labels))
    + (if p.closed then Remote(dryRun, CloseIssue(issue)) else [])
    + CommentOps(p.comments, issue, dryRun)
  }

  /** A migrated ticket makes exactly one issue, then closes it when its
      status is a closing one, then adds its comments in order, and makes
      no other call. */
  lemma TicketOpsShape(p: IssuePlan, issue: IssueNumber)
    ensures var ops := TicketOps(p, issue, false);
      && |ops| == 1 + (if p.closed then 1 else 0) + |p.comments|
      && ops[0] == CreateIssue(p.title, p.body, p.labels)
      && (p.closed ==> ops[1] == CloseIssue(issue))
      && (forall j :: 0 <= j < |p.comments| ==>
            ops[1 + (if p.closed then 1 else 0) + j] == CreateComment(issue, p.comments[j]))
      && (forall i :: 0 < i < |ops| ==> (ops[i].CloseIssue? || ops[i].CreateComment?) && ops[i].issue == issue)
  {
    var mid := if p.closed then [CloseIssue(issue)] else [];
    var comments := CommentOps(p.comments, issue, false);
    var ops := TicketOps(p, issue, false);
    assert ops == [CreateIssue(p.title, p.body, p.labels)] + mid + comments;
    ThreeParts(CreateIssue(p.title, p.body, p.labels), mid, comments);
    forall i | 0 < i < |ops|
      ensures (ops[i].CloseIssue? || ops[i].CreateComment?) && ops[i].issue == issue
    {
      if i > |mid| {
        assert ops[i] == comments[i - 1 - |mid|];
      }
    }
  }

  /** Where the parts of `[first] + mid + rest` sit. */
  lemma ThreeParts<T>(first: T, mid: seq<T>, rest: seq<T>)
    ensures var s := [first] + mid + rest;
      && |s| == 1 + |mid| + |rest|
      && s[0] == first
      && (forall k :: 0 <= k < |mid| ==> s[1 + k] == mid[k])
      && (forall j :: 0 <= j < |rest| ==> s[1 + |mid| + j] == rest[j])
  {
  }

  /** A ticket stops the run: its id is no numeral, or it is not skipped and
      one of its lookups fails. */
  predicate Fails(o: Options, r: Resolved, t: Ticket) {
    !IsNumeral(t.id) || (NumeralValue(t.id) >= o.startId && (t.categoryId !in r.categories || t.groupId !in r.groups))
  }

  /** What `handleTicket` does with a ticket before any remote call. */
  datatype Decision = Skip | Proceed(plan: IssuePlan) | Abort(failure: Failure)

  /** The issue composed for a ticket whose lookups succeed: title, body,
      labels, closed flag and comment bodies (migrate.py:167-185, 201-207). */
  function Compose(o: Options, r: Resolved, t: Ticket): IssuePlan
    requires t.categoryId in r.categories && t.groupId in r.groups
  {
    var labels := [r.categories[t.categoryId], r.groups[t.groupId]] + ExtraLabels(o);
    IssuePlan(t.summary, IssueBody(t), labels, t.statusId in r.closedStatusIds, CommentBodies(t.followups))
  }

  /** The id conversion, the skip test, the two dict lookups and the
      composition of the issue (migrate.py:157-185). */
  function Decide(o: Options, r: Resolved, t: Ticket): (d: Decision)
    ensures d.Skip? <==> IsNumeral(t.id) && NumeralValue(t.id) < o.startId
    ensures d.Abort? <==> Fails(o, r, t)
    ensures d.Abort? && !IsNumeral(t.id) ==> d.failure == BadTicketId(t.id)
    ensures d.Abort? && IsNumeral(t.id) && t.categoryId !in r.categories ==> d.failure == UnknownCategory(t.categoryId)
    ensures d.Abort? && IsNumeral(t.id) && t.categoryId in r.categories ==> d.failure == UnknownGroup(t.groupId)
  {
    if !IsNumeral(t.id) then Abort(BadTicketId(t.id))
    else if NumeralValue(t.id) < o.startId then Skip
    else if t.categoryId !in r.categories then Abort(UnknownCategory(t.categoryId))
    else if t.groupId !in r.groups then Abort(UnknownGroup(t.groupId))
    else Proceed(Compose(o, r, t))
  }

  /** A ticket that converts, is not skipped and whose lookups succeed
      proceeds with the composed issue. */
  lemma DecideProceeds(o: Options, r: Resolved, tk: Ticket)
    requires IsNumeral(tk.id) && NumeralValue(tk.id) >= o.startId
    requires tk.categoryId in r.categories && tk.groupId in r.groups
    ensures Decide(o, r, tk) == Proceed(Compose(o, r, tk))
  {
  }

  /** `r` holds the category and group dicts and the closing status ids
      that `handleTracker` resolves from tracker `t` under options `o`. */
  predicate ResolvedFrom(t: Tracker, o: Options, r: Resolved) {
    && r.categories == IdLabels(t.categories)
    && r.groups == IdLabels(t.groups)
    && r.closedStatusIds == ClosedStatusIds(t.statuses, ClosingStatuses(o))
  }

  /** A ticket at or above the start id whose category and group ids are
      carried by entries of the tracker proceeds. Its issue is closed exactly
      when some status with the ticket's status id has a lowercased name in
      the closing list, and has the summary as title, the provenance body,
      and one comment body per follow-up, in order. */
  lemma ProceedPlan(t: Tracker, o: Options, r: Resolved, tk: Ticket)
    requires ResolvedFrom(t, o, r)
    requires IsNumeral(tk.id) && NumeralValue(tk.id) >= o.startId
    requires exists i :: 0 <= i < |t.categories| && t.categories[i].id == tk.categoryId
    requires exists j :: 0 <= j < |t.groups| && t.groups[j].id == tk.groupId
    ensures Decide(o, r, tk).Proceed?
    ensures Decide(o, r, tk).plan.closed <==> exists k ::
      && 0 <= k < |t.statuses| && t.statuses[k].id == tk.statusId
      && IsAscii(Lower(t.statuses[k].name)) && Lower(t.statuses[k].name) in ClosingStatuses(o)
    ensures var p := Decide(o, r, tk).plan;
      && p.title == tk.summary
      && p.body == IssueBody(tk)
      && |p.comments| == |tk.followups|
      && forall j :: 0 <= j < |tk.followups| ==> p.comments[j] == CommentBody(tk.followups[j])
  {
    assert tk.categoryId in r.categories && tk.groupId in r.groups by {
      IdLabelsLookup(t.categories, tk.categoryId);
      IdLabelsLookup(t.groups, tk.groupId);
    }
    DecideProceeds(o, r, tk);
  }

  /** The labels of that ticket's issue, in terms of the tracker's own
      entries: the label of the last category and of the last group carrying
      the ticket's ids, then the extra labels, with no de-duplication. */
  lemma ProceedLabels(t: Tracker, o: Options, r: Resolved, tk: Ticket)
    requires ResolvedFrom(t, o, r)
    requires IsNumeral(tk.id) && NumeralValue(tk.id) >= o.startId
    requires exists i :: 0 <= i < |t.categories| && t.categories[i].id == tk.categoryId
    requires exists j :: 0 <= j < |t.groups| && t.groups[j].id == tk.groupId
    ensures Decide(o, r, tk).Proceed?
    ensures var p := Decide(o, r, tk).plan;
      && |p.labels| == 2 + |ExtraLabels(o)|
      && exists i ::
           && 0 <= i < |t.categories| && t.categories[i].id == tk.categoryId
           && IsLastWithId(t.categories, i) && p.labels[0] == Labelify(t.categories[i].name)
    ensures var p := Decide(o, r, tk).plan;
      exists j ::
        && 0 <= j < |t.groups| && t.groups[j].id == tk.groupId
        && IsLastWithId(t.groups, j) && p.labels[1] == Labelify(t.groups[j].name)
    ensures Decide(o, r, tk).plan.labels[2..] == ExtraLabels(o)
  {
    IdLabelsLookup(t.categories, tk.categoryId);
    IdLabelsLookup(t.groups, tk.groupId);
    PlanLabels(o, r, tk);
    var i :| && 0 <= i < |t.categories| && t.categories[i].id == tk.categoryId
             && IsLastWithId(t.categories, i) && r.categories[tk.categoryId] == Labelify(t.categories[i].name);
    var j :| && 0 <= j < |t.groups| && t.groups[j].id == tk.groupId
             && IsLastWithId(t.groups, j) && r.groups[tk.groupId] == Labelify(t.groups[j].name);
  }

  /** The labels of a proceeding ticket, read from the resolved dicts. */
  lemma PlanLabels(o: Options, r: Resolved, tk: Ticket)
    requires IsNumeral(tk.id) && NumeralValue(tk.id) >= o.startId
    requires tk.categoryId in r.categories && tk.groupId in r.groups
    ensures Decide(o, r, tk).Proceed?
    ensures var p := Decide(o, r, tk).plan;
      && |p.labels| == 2 + |ExtraLabels(o)|
      && p.labels[0] == r.categories[tk.categoryId]
      && p.labels[1] == r.groups[tk.groupId]
      && p.labels[2..] == ExtraLabels(o)
  {
    DecideProceeds(o, r, tk);
    DropPair(r.categories[tk.categoryId], r.groups[tk.groupId], ExtraLabels(o));
  }

  lemma DropPair<T>(a: T, b: T, rest: seq<T>)
    ensures ([a, b] + rest)[2..] == rest
  {
  }

  /** The number the calls of a ticket go to, given how many issues the run
      has created so far. */
  function NextIssue(o: Options, issued: nat): IssueNumber {
    if o.dryRun then Placeholder else Assigned(issued)
  }

  /** The ticket loop from ticket `ts[0]` on, `issued` issues created so far. */
  function RunTickets(o: Options, r: Resolved, ts: seq<Ticket>, issued: nat): (run: Run)
    ensures o.dryRun ==> run.trace == []
    decreases |ts|
  {
    if |ts| == 0 then Run([], [], None)
    else
      var rest := ts[1..];
      assert forall i :: 0 <= i < |rest| ==> rest[i] == ts[i + 1];
      match Decide(o, r, ts[0])
      case Abort(f) => Run([], [], Some(f))
      case Skip =>
        var tail := RunTickets(o, r, rest, issued);
        Run(tail.trace, [Skipped(ts[0].id)] + tail.log, tail.failure)
      case Proceed(p) =>
        var ops := TicketOps(p, NextIssue(o, issued), o.dryRun);
        var tail := RunTickets(o, r, rest, if o.dryRun then issued else issued + 1);
        Run(ops + tail.trace, [Migrated(ts[0].id, p)] + tail.log, tail.failure)
  }

  /** None of the calls `ops` creates a label. */
  predicate NoLabelCalls(ops: seq<Op>) {
    forall i :: 0 <= i < |ops| ==> !ops[i].CreateLabel?
  }

  lemma NoLabelCallsConcat(a: seq<Op>, b: seq<Op>)
    requires NoLabelCalls(a) && NoLabelCalls(b)
    ensures NoLabelCalls(a + b)
  {
    forall i | |a| <= i < |a + b|
      ensures !(a + b)[i].CreateLabel?
    {
      assert (a + b)[i] == b[i - |a|];
    }
  }

  /** The ticket loop creates no label. */
  lemma {:induction false} TicketLoopCreatesNoLabel(o: Options, r: Resolved, ts: seq<Ticket>, issued: nat)
    ensures NoLabelCalls(RunTickets(o, r, ts, issued).trace)
    decreases |ts|
  {
    if |ts| > 0 {
      var rest := ts[1..];
      var d := Decide(o, r, ts[0]);
      if d.Skip? {
        RunTicketsSkip(o, r, ts, issued);
        TicketLoopCreatesNoLabel(o, r, rest, issued);
      } else if d.Proceed? {
        var next := if o.dryRun then issued else issued + 1;
        var ops := TicketOps(d.plan, NextIssue(o, issued), o.dryRun);
        assert NoLabelCalls(ops) by {
          if !o.dryRun {
            TicketOpsShape(d.plan, NextIssue(o, issued));
          }
        }
        RunTicketsProceed(o, r, ts, issued);
        TicketLoopCreatesNoLabel(o, r, rest, next);
        NoLabelCallsConcat(ops, RunTickets(o, r, rest, next).trace);
      }
    }
  }

  /** `handleTracker` after the prompts: resolve the metadata, create the
      labels if asked to, then run the ticket loop. */
  function Migrate(t: Tracker, o: Options): (run: Run)
    ensures o.dryRun ==> run.trace == []
  {
    var r := Resolve(t, ClosingStatuses(o));
    var labelOps := if o.createLabels then LabelOps(r.labels, o.dryRun) else [];
    var tickets := RunTickets(o, r, t.tickets, 0);
    Run(labelOps + tickets.trace, tickets.log, tickets.failure)
  }

  /** With label creation on, a real run creates every label of the list,
      in order and duplicates included, before any ticket call; no label is
      created anywhere else. */
  lemma LabelsComeFirst(t: Tracker, o: Options)
    ensures var trace := Migrate(t, o).trace;
      && (!o.dryRun && o.createLabels ==>
            && |trace| >= |LabelList(t)|
            && forall i :: 0 <= i < |LabelList(t)| ==> trace[i] == CreateLabel(LabelList(t)[i], LabelColor))
      && forall i :: 0 <= i < |trace| && trace[i].CreateLabel? ==> !o.dryRun && o.createLabels && i < |LabelList(t)|
  {
    TicketLoopCreatesNoLabel(o, Resolve(t, ClosingStatuses(o)), t.tickets, 0);
  }

  /** The comment loop of `handleTicket` (migrate.py:201-207): one
      `handleComment` (migrate.py:144-155) per follow-up, in order. */
  method CommentLoop(followups: seq<Followup>, issue: IssueNumber, dryRun: bool)
    returns (bodies: seq<string>, ops: seq<Op>)
    ensures bodies == CommentBodies(followups)
    ensures ops == CommentOps(bodies, issue, dryRun)
  {
    bodies := [];
    ops := [];
    var i := 0;
    while i < |followups|
      invariant 0 <= i <= |followups|
      invariant bodies == CommentBodies(followups[..i])
      invariant ops == CommentOps(bodies, issue, dryRun)
    {
      var comment := CommentBody(followups[i]);
      if !dryRun {
        ops := ops + [CreateComment(issue, comment)];
      }
      assert (bodies + [comment])[..|bodies|] == bodies;
      assert CommentBodies(followups[..i + 1]) == bodies + [comment];
      bodies := bodies + [comment];
      i := i + 1;
    }
    assert followups[..i] == followups;
  }

  /** `handleTicket` (migrate.py:157-209). */
  method HandleTicket(o: Options, r: Resolved, t: Ticket, issued: nat) returns (d: Decision, ops: seq<Op>)
    ensures d == Decide(o, r, t)
    ensures ops == (if d.Proceed? then TicketOps(d.plan, NextIssue(o, issued), o.dryRun) else [])
  {
    if !IsNumeral(t.id) {
      return Abort(BadTicketId(t.id)), [];
    }
    if NumeralValue(t.id) < o.startId {
      return Skip, [];
    }
    if t.categoryId !in r.categories {
      return Abort(UnknownCategory(t.categoryId)), [];
    }
    if t.groupId !in r.groups {
      return Abort(UnknownGroup(t.groupId)), [];
    }
    var labels := [r.categories[t.categoryId], r.groups[t.groupId]] + ExtraLabels(o);
    var title := t.summary;
    var body := IssueBody(t);
    var closed := t.statusId in r.closedStatusIds;
    var issue: IssueNumber;
    ops := [];
    if !o.dryRun {
      ops := ops + [CreateIssue(title, body, labels)];
      issue := Assigned(issued);
    } else {
      issue := Placeholder;
    }
    if closed && !o.dryRun {
      ops := ops + [CloseIssue(issue)];
    }
    var bodies, commentOps := CommentLoop(t.followups, issue, o.dryRun);
    d := Proceed(IssuePlan(title, body, labels, closed, bodies));
    assert d == Decide(o, r, t);
    assert ops == Remote(o.dryRun, CreateIssue(title, body, labels)) + (if closed then Remote(o.dryRun, CloseIssue(issue)) else []);
    ops := ops + commentOps;
  }

  /** The label loop of `handleTracker` (migrate.py:260-268). */
  method CreateLabels(labels: seq<string>, dryRun: bool) returns (ops: seq<Op>)
    ensures ops == LabelOps(labels, dryRun)
  {
    ops := [];
    var i := 0;
    while i < |labels|
      invariant 0 <= i <= |labels|
      invariant ops == LabelOps(labels[..i], dryRun)
    {
      if !dryRun {
        ops := ops + [CreateLabel(labels[i], LabelColor)];
      }
      assert labels[..i + 1][..i] == labels[..i];
      i := i + 1;
    }
    assert labels[..i] == labels;
  }

  /** The ticket loop has made the calls `trace` and printed `log` for the
      tickets before `n`, and the run from ticket `n` on, with `issued`
      issues created, completes them to `whole`. */
  predicate Between(o: Options, r: Resolved, ts: seq<Ticket>, n: int, issued: nat, whole: Run, trace: seq<Op>, log: seq<Entry>)
    requires 0 <= n <= |ts|
  {
    var rest := RunTickets(o, r, ts[n..], issued);
    && whole.trace == trace + rest.trace
    && whole.log == log + rest.log
    && whole.failure == rest.failure
  }

  /** A skipped ticket adds its line to the log and nothing else. */
  lemma SkipStep(o: Options, r: Resolved, ts: seq<Ticket>, n: int, issued: nat, whole: Run, trace: seq<Op>, log: seq<Entry>)
    requires 0 <= n < |ts| && Decide(o, r, ts[n]).Skip?
    requires Between(o, r, ts, n, issued, whole, trace, log)
    ensures Between(o, r, ts, n + 1, issued, whole, trace, log + [Skipped(ts[n].id)])
  {
    var rest := ts[n..];
    assert rest[0] == ts[n] && rest[1..] == ts[n + 1..];
    var tail := RunTickets(o, r, ts[n + 1..], issued);
    assert log + ([Skipped(ts[n].id)] + tail.log) == (log + [Skipped(ts[n].id)]) + tail.log;
  }

  /** One step of the ticket loop on a ticket that is skipped. */
  lemma RunTicketsSkip(o: Options, r: Resolved, ts: seq<Ticket>, issued: nat)
    requires |ts| > 0 && Decide(o, r, ts[0]).Skip?
    ensures var tail := RunTickets(o, r, ts[1..], issued);
      RunTickets(o, r, ts, issued) == Run(tail.trace, [Skipped(ts[0].id)] + tail.log, tail.failure)
  {
  }

  /** One step of the ticket loop on a ticket that proceeds. */
  lemma RunTicketsProceed(o: Options, r: Resolved, ts: seq<Ticket>, issued: nat)
    requires |ts| > 0 && Decide(o, r, ts[0]).Proceed?
    ensures var p := Decide(o, r, ts[0]).plan;
      var tail := RunTickets(o, r, ts[1..], if o.dryRun then issued else issued + 1);
      RunTickets(o, r, ts, issued)
        == Run(TicketOps(p, NextIssue(o, issued), o.dryRun) + tail.trace, [Migrated(ts[0].id, p)] + tail.log, tail.failure)
  {
  }

  /** A migrated ticket adds its calls to the trace and its line to the log. */
  lemma ProceedStep(o: Options, r: Resolved, ts: seq<Ticket>, n: int, issued: nat, whole: Run, trace: seq<Op>, log: seq<Entry>)
    requires 0 <= n < |ts| && Decide(o, r, ts[n]).Proceed?
    requires Between(o, r, ts, n, issued, whole, trace, log)
    ensures var p := Decide(o, r, ts[n]).plan;
      Between(o, r, ts, n + 1, if o.dryRun then issued else issued + 1, whole,
        trace + TicketOps(p, NextIssue(o, issued), o.dryRun), log + [Migrated(ts[n].id, p)])
  {
    var p := Decide(o, r, ts[n]).plan;
    var ops := TicketOps(p, NextIssue(o, issued), o.dryRun);
    var rest := ts[n..];
    assert rest[0] == ts[n] && rest[1..] == ts[n + 1..];
    RunTicketsProceed(o, r, rest, issued);
    var tail := RunTickets(o, r, ts[n + 1..], if o.dryRun then issued else issued + 1);
    Regroup(trace, ops, tail.trace);
    Regroup(log, [Migrated(ts[n].id, p)], tail.log);
  }

  lemma Regroup<T>(a: seq<T>, b: seq<T>, c: seq<T>)
    ensures a + (b + c) == (a + b) + c
  {
  }

  /** A failing ticket ends the run with its exception. */
  lemma AbortStep(o: Options, r: Resolved, ts: seq<Ticket>, n: int, issued: nat, whole: Run, trace: seq<Op>, log: seq<Entry>)
    requires 0 <= n < |ts| && Decide(o, r, ts[n]).Abort?
    requires Between(o, r, ts, n, issued, whole, trace, log)
    ensures whole == Run(trace, log, Some(Decide(o, r, ts[n]).failure))
  {
    var rest := ts[n..];
    assert rest[0] == ts[n];
    assert trace + [] == trace && log + [] == log;
  }

  /** One iteration of the ticket loop: `handleTicket` on ticket `n`, then
      either the exception that ends the run or the loop state for the next
      ticket. */
  method TicketStep(o: Options, r: Resolved, ts: seq<Ticket>, n: int, issued: nat, ghost whole: Run, trace: seq<Op>, log: seq<Entry>)
    returns (failure: Option<Failure>, trace': seq<Op>, log': seq<Entry>, issued': nat)
    requires 0 <= n < |ts| && Between(o, r, ts, n, issued, whole, trace, log)
    ensures failure.Some? ==> trace' == trace && log' == log && whole == Run(trace, log, failure)
    ensures failure.None? ==> Between(o, r, ts, n + 1, issued', whole, trace', log')
  {
    var d, ops := HandleTicket(o, r, ts[n], issued);
    match d {
      case Abort(f) =>
        AbortStep(o, r, ts, n, issued, whole, trace, log);
        return Some(f), trace, log, issued;
      case Skip =>
        SkipStep(o, r, ts, n, issued, whole, trace, log);
        return None, trace, log + [Skipped(ts[n].id)], issued;
      case Proceed(p) =>
        assert ops == TicketOps(p, NextIssue(o, issued), o.dryRun);
        ProceedStep(o, r, ts, n, issued, whole, trace, log);
        return None, trace + ops, log + [Migrated(ts[n].id, p)], if o.dryRun then issued else issued + 1;
    }
  }

  /** The ticket loop of `handleTracker` (migrate.py:270-274); an exception
      raised by a ticket ends it. */
  method TicketLoop(o: Options, r: Resolved, ts: seq<Ticket>) returns (run: Run)
    ensures run == RunTickets(o, r, ts, 0)
  {
    var trace: seq<Op> := [];
    var log: seq<Entry> := [];
    var issued: nat := 0;
    var n := 0;
    ghost var whole := RunTickets(o, r, ts, 0);
    assert ts[0..] == ts;
    while n < |ts|
      invariant 0 <= n <= |ts|
      invariant Between(o, r, ts, n, issued, whole, trace, log)
    {
      var failure;
      failure, trace, log, issued := TicketStep(o, r, ts, n, issued, whole, trace, log);
      if failure.Some? {
        return Run(trace, log, failure);
      }
      n := n + 1;
    }
    assert trace + [] == trace && log + [] == log;
    run := Run(trace, log, None);
  }

  /** `handleTracker` after the prompts (migrate.py:217-274). */
  method MigrateTracker(t: Tracker, o: Options) returns (run: Run)
    ensures run == Migrate(t, o)
  {
    var r := ResolveTracker(t, ClosingStatuses(o));
    var labelOps: seq<Op> := [];
    if o.createLabels {
      labelOps := CreateLabels(r.labels, o.dryRun);
    }
    var tickets := TicketLoop(o, r, t.tickets);
    run := Run(labelOps + tickets.trace, tickets.log, tickets.failure);
  }
}
