/** The typed view of one tracker of a SourceForge export, as the script reads
    it (migrate.py:144-274), and the run options it is driven by
    (migrate.py:15-48). Every field the script reads with `.string` is
    present here; the XML loading itself is not part of this model. */
module Export {

  datatype Option<+T> = None | Some(value: T)

  /** A category, a group or a status: an id and a free-text name. */
  datatype Named = Named(id: string, name: string)

  /** A follow-up comment of a ticket. */
  datatype Followup = Followup(id: string, submitter: string, details: string)

  /** A tracker item. `followups` keeps export order. */
  datatype Ticket = Ticket(
    id: string,
    categoryId: string,
    groupId: string,
    statusId: string,
    submitter: string,
    summary: string,
    details: string,
    url: string,
    followups: seq<Followup>)

  datatype Tracker = Tracker(
    name: string,
    categories: seq<Named>,
    groups: seq<Named>,
    statuses: seq<Named>,
    tickets: seq<Ticket>)

  /** The parsed command-line options. `None` stands for an option given
      zero times (optparse leaves an `append` option at None). */
  datatype Options = Options(
    startId: int,
    extraLabels: Option<seq<string>>,
    closedStatuses: Option<seq<string>>,
    createLabels: bool,
    dryRun: bool)

  /** The status names that close an issue when none is given. */
  const DefaultClosedStatuses: seq<string> := ["closed", "deleted"]

  /** The options as the parser leaves them when no flag is given. */
  const Defaults: Options := Options(-1, None, None, true, false)

  /** The closing list in force: the user's list replaces the default. */
  function ClosingStatuses(o: Options): seq<string> {
    match o.closedStatuses
    case None => DefaultClosedStatuses
    case Some(names) => names
  }

  /** The extra labels appended to every issue (none when not given). */
  function ExtraLabels(o: Options): seq<string> {
    match o.extraLabels
    case None => []
    case Some(labels) => labels
  }
}
