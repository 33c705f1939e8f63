# SourceForge-to-GitHub tracker migration, modelled in Dafny

`migrate.py` copies one tracker of a SourceForge XML export into a GitHub
repository's issues. This project models the decision-making core of that
script. The core starts from an already-parsed tracker. It
turns category and group names into GitHub label names (`labelify`) and
resolves the tracker's metadata: the id-to-label maps, the list of labels to
create, and the ids of the statuses that close an issue. Then it runs the
label loop and the ticket loop of `handleTracker`, and `handleTicket` and
`handleComment` for every ticket and follow-up.

Every call to GitHub is replaced by an operation appended to a trace:
`CreateLabel`, `CreateIssue`, `CloseIssue` or `CreateComment`. A run is the
trace, together with the log of what the script decides for each ticket
(skipped, or migrated with the composed title, body, labels, closed flag and
comment bodies), and the exception that stopped the run, if any. The calls made
before an exception stay in the trace, because the script cannot take them
back.

Modules, in dependency order:

- `Text` (`text.dfy`): ASCII lowercasing and the `int()` of a ticket id.
- `Labels` (`labels.dfy`): `labelify`, with its output shape, idempotence and
  what it keeps of its input.
- `Export` (`export.dfy`): the typed export (trackers, tickets, follow-ups,
  categories, groups, statuses) and the parsed options with their defaults.
- `Metadata` (`metadata.dfy`): the three resolution loops of `handleTracker`.
- `Migration` (`migration.dfy`): the planner, as functions, plus methods that
  follow the script's loops and are proved equal to the functions.
- `MigrationProperties` (`migration_properties.dfy`): whole-run properties.
  These cover where a run stops, dry runs against real runs, the issue each
  close and comment goes to, and one issue per migrated ticket.
- `Scenarios` (`scenarios.dfy`): a worked one-ticket tracker, with and
  without its group.

How `migrate.py` behaves, and so the model with it:

- it has no name translation table, no maximum ticket count and no
  stripping of boilerplate from bodies;
- it does not de-duplicate labels, neither in the list to create nor on an
  issue;
- `labelify` lowercases;
- a category or group id that is not in the tracker raises a KeyError that
  ends the run. A tracker with no groups therefore fails at its first
  processed ticket. Under the default options, label creation on and no dry
  run, its labels have been created by then
  (`Scenarios.NoGroupStopsAfterLabels`).

Some behaviours of the code are kept as they are:

- Entries of a closing-status list given with `-c` are compared without being
  lowercased, while the status name is lowercased. So an entry holding an
  upper-case letter never closes anything
  (`Metadata.UpperCaseEntryNeverCloses`).
- The status name is a unicode string and a `-c` entry is a byte string from
  the command line. Python 2 decodes the byte string as ASCII before comparing
  the two, and the comparison is false when that fails. So an entry holding a
  non-ASCII character never closes anything
  (`Metadata.NonAsciiEntryNeverCloses`), and a status closes only when an
  ASCII entry equals its lowered name (`Metadata.ClosesByAsciiEntry`).
- `int(id)` on a ticket id that is not a numeral raises a ValueError. That
  stops the run like a KeyError does, and it happens before the start-id test
  (`MigrationProperties.BadIdStopsRun`).

Issue numbers are abstract. `Assigned(k)` is the number GitHub returned for
the k-th issue created in the run, counting from 0. `Placeholder` is the `"0"`
a dry run uses.

## Model

| member | source | states |
|---|---|---|
| Text.LowerChar | migrate.py:75 | an ASCII capital becomes the same letter in lower case, every other character is kept, and no upper-case letter results |
| Text.Lower | migrate.py:75 | lowercasing keeps the length, and every character is replaced by its lower-case form, so no upper-case letter remains |
| Text.LowerIdempotent | migrate.py:75 | lowering a lowered string changes nothing |
| Text.LowerCharSame | migrate.py:238 | two characters lower to the same character exactly when they are equal or are the two cases of one letter |
| Text.NumeralValue | migrate.py:158-159 | `int(id)` of an unsigned numeral is non-negative, and that of a numeral with a minus sign is not positive |
| Text.NumeralValueDecimal | migrate.py:158-159 | `int` reads back the decimal numeral of every n, unsigned, with a minus sign and with a plus sign, as n, -n and n |
| Text.DecimalDigitsValue | migrate.py:158-159 | conversely, a digit string without leading zeros is the decimal numeral of its `int` value |
| Text.LeadingZero | migrate.py:158-159 | a leading zero leaves `int` unchanged, `int("0" + s) == int(s)` for every digit string, so ids with leading zeros compare with the start id by their value |
| Labels.Collapse | migrate.py:76 | the substitution leaves an empty string empty and a non-empty one non-empty, keeps a leading label character, emits only label characters and spaces, keeps the absence of upper-case letters, and never emits two spaces in a row |
| Labels.CollapseIsBlankThenDedup | migrate.py:76 | the substitution equals an independent two-step reference: replace every character outside `[\w._()]` by a space, then drop each space that follows a space; so each maximal separator run becomes exactly one space and label characters stay in place |
| Labels.LabelifyIsReference | migrate.py:74-78 | `labelify` equals lowering, blanking the separators, squeezing the spaces and stripping trailing spaces |
| Labels.RStrip | migrate.py:77 | the result is a prefix of the input, does not end in a space, and only spaces were removed |
| Labels.Labelify | migrate.py:74-78 | every label is made of lower-case `[a-z0-9_.()]` characters and single spaces, and has no trailing space |
| Labels.CollapseFixesLabelShape | migrate.py:76 | on a string already made of lower-case label characters and single spaces, the substitution changes nothing |
| Labels.LabelifyFixpoint | migrate.py:74-78 | `labelify` leaves a string unchanged exactly when the string already has label shape |
| Labels.LabelifyIdempotent | migrate.py:74-78 | `labelify(labelify(s)) == labelify(s)` for every string |
| Labels.LabelifyKeepsLabelChars | migrate.py:74-78 | with spaces dropped, the label holds the input's `[\w._()]` characters, lowered, in their original order |
| Labels.LabelifyEmpty | migrate.py:74-78 | the label is empty exactly when the name holds no `[\w._()]` character |
| Metadata.IdLabels | migrate.py:219-230 | the keys of a category or group dict are exactly the ids of the items |
| Metadata.IdLabelsLastWins | migrate.py:223 | an id maps to the label of the last item carrying it, so a later duplicate id overwrites an earlier one |
| Metadata.LastWithIdExists | migrate.py:219-230 | an id carried by some entry is carried by a last entry |
| Metadata.IdLabelsLookup | migrate.py:219-230 | an id carried by some entry is a key of the category or group dict, and maps to the label of the last entry carrying it |
| Metadata.NameLabels | migrate.py:220-222 | one label per item, the i-th being `labelify` of the i-th item's name |
| Metadata.LabelList | migrate.py:217-231 | the labels to create are the category labels in export order followed by the group labels in export order, duplicates kept |
| Metadata.ClosedStatusIds | migrate.py:233-239 | an id is a closing id exactly when some status with that id has an all-ASCII lowercased name equal to an entry of the closing list |
| Metadata.LabelLoop | migrate.py:219-231 | the category loop and the group loop build the id dict and the appended labels described above |
| Metadata.StatusLoop | migrate.py:233-239 | the status loop collects exactly the closing status ids, in export order |
| Metadata.ResolveTracker | migrate.py:217-239 | the three loops together give the resolved metadata |
| Metadata.DefaultClosingStatuses | migrate.py:47-48 | with no `-c` option, a status closes exactly when its lowercased name is "closed" or "deleted" |
| Metadata.UpperCaseEntryNeverCloses | migrate.py:238 | a closing-list entry with an upper-case letter matches no status, because only the status name is lowered |
| Metadata.ClosesByAsciiEntry | migrate.py:238 | a status closes exactly when an all-ASCII entry of the closing list equals its lowered name |
| Metadata.NonAsciiEntryNeverCloses | migrate.py:238 | a closing-list entry holding a non-ASCII character matches no status, because the byte string fails to decode for the comparison |
| Migration.LabelOps | migrate.py:260-268 | a real run makes one `CreateLabel` per list entry, in order and in white; a dry run makes none |
| Migration.CommentOps | migrate.py:152-153 | one `CreateComment` per comment body, in order, all on the ticket's issue; none in a dry run |
| Migration.TicketOps | migrate.py:188-198 | a dry run makes no call for a ticket |
| Migration.TicketOpsShape | migrate.py:186-207 | a migrated ticket makes exactly one `CreateIssue` first, then a `CloseIssue` if it is closed, then its comments in order, and every later call goes to that ticket's issue |
| Migration.Decide | migrate.py:157-185 | a ticket is skipped exactly when its id converts and is below the start id; it aborts exactly when its id does not convert or, not skipped, its category or group id is unknown; the failure says which |
| Migration.IssueBody | migrate.py:177-178 | an issue body is exactly, end to end: the migration marker, the SourceForge id, `', submitted by '`, the submitter, `'.]` and a line break and `[`, the item URL, `]`, a blank line, and the ticket's details verbatim; its length is the sum of those parts |
| Migration.IssueBodyReadsBack | migrate.py:177-178 | the body can be read back: equal bodies with id, submitter and URL of equal lengths come from the same id, submitter, URL and details |
| Migration.CommentBody | migrate.py:148 | a comment body is exactly, end to end: the migration marker, the submitter, `'.]`, a blank line, and the follow-up's details verbatim; its length is the sum of those parts |
| Migration.CommentBodyReadsBack | migrate.py:148 | equal comment bodies with submitters of equal length come from the same submitter and details |
| Migration.ProceedPlan | migrate.py:157-185 | with the dicts and closing ids resolved from the tracker, a ticket whose id converts to at least the start id, and whose category and group ids are carried by entries of the tracker, proceeds; its issue is closed exactly when some status with its status id has an all-ASCII lowercased name in the closing list; title, body and comment bodies come from the ticket and its follow-ups in order |
| Migration.ProceedLabels | migrate.py:163-173 | such a ticket's first and second labels are those of the last category and the last group of the tracker carrying its ids, followed by the extra labels, with no de-duplication |
| Migration.RunTickets | migrate.py:270-274 | the ticket loop of a dry run makes no call |
| Migration.TicketLoopCreatesNoLabel | migrate.py:270-274 | the ticket loop never creates a label |
| Migration.Migrate | migrate.py:260-274 | a dry run makes no call at all |
| Migration.LabelsComeFirst | migrate.py:260-274 | with label creation on, a real run creates every listed label first, in order and duplicates included; no label is created anywhere else |
| Migration.CommentLoop | migrate.py:201-207 | the follow-up loop yields one comment body and one comment call per follow-up |
| Migration.HandleTicket | migrate.py:157-209 | `handleTicket` takes the decision `Decide` states and makes the calls of a migrated ticket, or none |
| Migration.CreateLabels | migrate.py:260-268 | the label loop makes the label calls `LabelOps` states |
| Migration.TicketStep | migrate.py:270-274 | one iteration of the ticket loop either stops with the run's exception, leaving the calls and log unchanged, or leaves the loop state the run from the next ticket completes |
| Migration.TicketLoop | migrate.py:270-274 | the ticket loop with its counters gives the run `RunTickets` states |
| Migration.MigrateTracker | migrate.py:217-274 | `handleTracker` after its prompts gives the run `Migrate` states |
| MigrationProperties.RunTicketsFails | migrate.py:270-274 | a run ends in an exception exactly when one of its tickets fails |
| MigrationProperties.RunTicketsFailure | migrate.py:270-274 | a failed run carries the exception of the ticket just after its last log line; a run that does not fail logs every ticket |
| MigrationProperties.FirstFailureStops | migrate.py:158-164 | the first failing ticket stops the run with its exception, and the log holds exactly the tickets before it |
| MigrationProperties.RunTicketsLog | migrate.py:159-161 | the log follows export order: each line has its ticket's id, is a skip exactly when that id is below the start id, and a migrated line has the plan composed for that ticket |
| MigrationProperties.MigratedIssueFromTracker | migrate.py:157-274 | every migrated line of a run belongs to the ticket at the same position of the export, and its issue has the labels, closed flag, title, body and comment count that `Migration.ProceedLabels` and `Migration.ProceedPlan` derive from the tracker's entries |
| MigrationProperties.SameDecisions | migrate.py:157-185 | runs that agree on the start id and the extra labels make the same decisions and stop at the same failure, whatever their dry-run flags |
| MigrationProperties.DryRunDecidesAlike | migrate.py:188-198 | a dry run makes no call, but logs the same decisions and fails at the same ticket as the real run |
| MigrationProperties.RealRunReplaysLog | migrate.py:186-207 | a real run's ticket calls are exactly the calls of each migrated log line in turn |
| MigrationProperties.DryRunPredictsRealRun | migrate.py:260-274 | a real run's calls are the label calls followed by the replay of the dry run's log |
| MigrationProperties.ReplayRefersToLatest | migrate.py:188-207 | replaying a log sends every close and every comment to the issue created most recently before it |
| MigrationProperties.MigrateRefersToLatest | migrate.py:188-207 | in every run, every close and every comment goes to the issue created most recently before it |
| MigrationProperties.ReplayCreatesOnePerTicket | migrate.py:188-190 | replaying a log creates one issue per migrated line |
| MigrationProperties.OneIssuePerMigratedTicket | migrate.py:188-190 | a real run creates exactly one issue per migrated ticket |
| MigrationProperties.SkippedTicketIsInert | migrate.py:159-161 | a ticket below the start id adds one skip line and nothing else, and its ids are never looked up |
| MigrationProperties.DefaultStartSkipsNothing | migrate.py:26 | with the default start id -1, no ticket with an unsigned numeric id is skipped |
| MigrationProperties.UnknownIdStopsRun | migrate.py:163 | the first processed ticket with an unknown category id stops the run with a KeyError for that id |
| MigrationProperties.UnknownGroupStopsRun | migrate.py:164 | the first processed ticket with a known category and an unknown group id stops the run with a KeyError for the group id |
| MigrationProperties.BadIdStopsRun | migrate.py:158-159 | the first ticket whose id `int()` rejects stops the run with a ValueError, whatever the start id |
| Scenarios.NoGroupStopsAfterLabels | migrate.py:217-274 | on a tracker with no group, the run creates the category label, then fails on the ticket's group id before creating any issue |
| Scenarios.OneTicketMigrated | migrate.py:157-209 | with the group present, the run creates both labels, the issue with both labels, closes it, then comments on it |

## Left out

- Command-line parsing and argument unpacking (migrate.py:15-45). The
  resulting options are the `Options` record. The default closing list of
  migrate.py:47-48 and the default start id of migrate.py:26 are kept.
- The interactive prompts and the password entry (migrate.py:60-72,
  257-258). They are console input; the model starts after the user agreed.
- The HTTP helpers (migrate.py:80-127). They become trace operations. The
  model assumes every call succeeds. An HTTP error, which `handleError`
  raises, would stop the run at that call; it is not modelled. The
  "label already exists" branch of `createLabel` only prints, so it adds
  nothing to the trace.
- `try_all` (migrate.py:129-141). It is test code that is never called.
- XML loading and the lookup of the tracker by name (migrate.py:276-290).
  These are done by a foreign parser; the model takes a typed `Tracker`.
- All printed output and the `[i/n]` progress strings. The log in `Run`
  keeps the decisions the prints report, not their text.
- A missing XML element, which makes `.string` fail. Every field is present
  in the typed export.
- An empty XML element (`<details/>`), whose `.string` is None. The script
  then writes the text `None` into an issue or comment body (migrate.py:148,
  177-178), and `labelify` or `status_name.lower()` raise on it
  (migrate.py:75, 238). The typed export holds a string in every field, so
  an empty element is read as the empty string and none of this is
  modelled.
- Text.Lower: only ASCII letters are lowered. The non-ASCII characters whose
  lower-case form Python 2's `unicode.lower()` changes are left as they are.
  Any such character is outside `[\w._()]` and becomes a space anyway, except
  U+0130 and U+212A, whose lower-case forms are ASCII letters. Those two are
  not modelled.
- Text.NumeralValue: `int()` also accepts surrounding whitespace, whitespace
  between the sign and the digits (`int("- 5") == -5`) and, on a unicode id,
  non-ASCII decimal digits. The model rejects such an id with
  `BadTicketId`, and `Migration.Decide` inherits this.
