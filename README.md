# Drone operations coordinator: a verified model of its core

The drone operations coordinator answers free-text queries about a roster of
pilots, drones and missions kept in a remote spreadsheet. It can:

- list the available pilots or drones;
- update one pilot's or drone's status;
- assign a pilot and a drone to a mission.

Before an assignment is written, a **conflict validator** re-checks the
proposed pair against the mission's requirements. Those rules cover drone
maintenance, three location rules, missing certifications and double booking.

This project models two parts of that system in Dafny:

- the validator, `ConflictDetector.check_conflicts` in
  `app/conflict_detector.py`;
- the query-handling logic of `CoordinatorAgent` in `app/agent.py`.

It then proves what each operation computes.

| file | module | what it holds |
|---|---|---|
| `optional.dfy` | `Optional` | `Option` |
| `strings.dfy` | `Strings` | Python's `lower()` (ASCII), `strip()`, `in` on strings, and `split(",")` with its inverse |
| `sequences.dfy` | `Sequences` | order-preserving subsequence |
| `roster.dfy` | `Roster` | pilot, drone and mission rows; the roster store, as a class whose writes append to a log |
| `conflict_detector.dfy` | `ConflictDetection` | see below |
| `keywords.dfy` | `Keywords` | keyword tables, which are the reference definition for the agent's if-chains |
| `query_parsing.dfy` | `QueryParsing` | intent classifier and keyword extractors |
| `normalisation.dfy` | `Normalisation` | the agent's `_parse_list` and `_has_all` |
| `coordinator.dfy` | `Coordinator` | see below |

`ConflictDetection` holds:

- `ConflictsOf`, the validator's result stated as a function;
- `CheckConflicts`, which builds the list by appends, as the source does;
- the per-rule properties.

`Coordinator` holds:

- the availability filters;
- the status-update guards;
- the assignment decision;
- the `CoordinatorAgent` class.

## How the model is built

Conflicts are a datatype, not message strings. Each constructor carries the
values its message quotes. `RuleIndex` numbers the seven rules in the order
they run:

| index | rule |
|---|---|
| 0 | drone under maintenance |
| 1 | pilot and drone in different places |
| 2 | pilot away from the project |
| 3 | drone away from the project |
| 4 | missing certification |
| 5 | pilot already booked |
| 6 | drone already booked |

`OfRule(s, k)` picks out the entries of rule `k`. Each rule is proved
exactly: which entries appear, how many, and in what order.

The agent is a class. It holds a `RosterStore` and a matching-engine function
(`findBestMatch`), and nothing is assumed about that function. The store's
three tables are read as they stand. Every write the agent issues is appended
to the store's `log`, so each operation's contract states exactly which
writes it makes.

The regular-expression extractors are not modelled: location, mission id,
pilot name and drone id arrive as an `Extraction` record.

Properties proved beyond the plain contracts:

- **Double booking.**
  - A pilot whose status is `"Assigned(<id>)"` is never reported as double
    booked (`AssignedWithIdIsNotEngaged`).
  - That is exactly the status the agent itself writes on assignment, to the
    pilot and to the drone. Neither the pilot rule
    (`AssignedPilotIsNotDoubleBooked`) nor the drone rule
    (`AssignedDroneIsNotDoubleBooked`) fires on it. The engaged test compares
    the whole lower-cased status against `assigned`, `busy` and `deployed`.
- **Mission without a location.** When a mission has no `location`, the
  validator receives `None` and reads it as the text `"none"`. Any located
  pilot whose location is not itself "none" (after stripping and
  lower-casing) then conflicts with the project (`NoneLocationMismatches`).
- **Two `_parse_list` helpers.**
  - The validator's version returns a list cell unchanged
    (`ListCellsAreNotStripped`), and the agent's strips every item
    (`Normalisation.ParseList`).
  - They agree on text cells and on list cells of clean names
    (`ParseListAgreesWithValidator`).
- **Drone filter.** The filter's maintenance test never removes a drone that
  the status test kept (`MaintenanceTestIsRedundant`).
- **Status extraction.** A query asking to make a pilot "unavailable", and
  naming neither leave nor maintenance, sets the status to `Available`,
  because "unavailable" contains "available" (`UnavailableReadsAsAvailable`).
- **Assignment examples.** The chat page lists two assignment examples,
  "assign project PRJ003 in Bangalore thermal dgca" and "urgent assign
  project PRJ002 in Mumbai night ops" (`ui/streamlit_app.py:166-167`).
  Neither says "mission", which both assignment intents need, so the
  classifier reads both as `Unknown` (`AssignExampleIsNotUnderstood`,
  `UrgentExampleIsNotUnderstood`).
- **Dates.** Mission dates are handed to the validator and never examined
  (`DatesAreIgnored`).

### Three details of the code the model keeps

- **The mission write carries no status.** The agent calls
  `update_mission_assignment(mission_id, pilot_name, drone_id)`
  (`app/agent.py:271-275`). The model's first write is
  `MissionAssignment(id, pilot, drone)`: the call passes no status.
- **The validator does not strip list cells.** Its `_parse_list` returns a
  list-valued cell unchanged (`app/conflict_detector.py:86-87`). A text cell
  is split and stripped.
- **A mission without a location is still checked.** The agent passes
  `mission.get("location")`, which is `None` for such a row
  (`app/agent.py:229`). The validator reads `str(None)`, which is the
  non-empty text `"None"`, so the project-location rules apply
  (`app/conflict_detector.py:40`).

## Model

| member | source | states |
|---|---|---|
| ConflictDetection.ParseList | app/conflict_detector.py:79-89 | an empty cell gives no items; a list cell is returned unchanged, without stripping; a text cell gives only stripped, non-empty items |
| ConflictDetection.ParseListPadded | app/conflict_detector.py:89 | a text cell of comma-separated pieces reads as exactly those pieces stripped, in order, blank ones dropped; an item is read iff it is the non-empty stripped form of some piece |
| ConflictDetection.ParseListPair | app/conflict_detector.py:89 | two clean names written "a, b" read back as exactly [a, b] |
| ConflictDetection.ParseListDocExample | app/conflict_detector.py:82 | "DGCA, BVLOS" reads as ["DGCA", "BVLOS"] |
| Strings.SplitListJoinPadded | app/conflict_detector.py:89 | splitting comma-joined pieces on "," and keeping the stripped non-empty ones gives the pieces' stripped, non-empty forms in order |
| Strings.TrimmedNonEmptyMembers | app/conflict_detector.py:89 | an item is kept iff it is non-empty and the stripped form of one of the pieces |
| ConflictDetection.CheckConflicts | app/conflict_detector.py:22-74 | running the four sections in order, with no early exit, yields exactly `ConflictsOf` |
| ConflictDetection.CheckMaintenance | app/conflict_detector.py:31-33 | appends the maintenance conflict exactly when the lower-cased drone status contains "maintenance" |
| ConflictDetection.CheckLocations | app/conflict_detector.py:38-50 | appends the pilot-vs-drone, then pilot-vs-project, then drone-vs-project conflicts under their conditions on the stripped, lower-cased locations |
| ConflictDetection.CheckCertifications | app/conflict_detector.py:55-60 | the loop appends one conflict per required certification missing from the pilot's lower-cased list, in requirement order |
| ConflictDetection.CheckBookings | app/conflict_detector.py:65-72 | appends the pilot's, then the drone's, double-booking conflict under the engaged / real-assignment / other-project test |
| ConflictDetection.CertConflictsExactly | app/conflict_detector.py:58-60 | the certification section reports at most one entry per requirement, only missing-certification entries, and a certification exactly when it is required and absent case-insensitively |
| ConflictDetection.MaintenanceRule | app/conflict_detector.py:31-33 | a drone under maintenance gives exactly one maintenance entry, and it is first in a non-empty result; any other drone gives none |
| ConflictDetection.LocationRules | app/conflict_detector.py:38-50 | rule 1 fires iff both stripped, lower-cased locations are non-empty and differ; rules 2 and 3 fire independently iff the project location and the site's location are non-empty and differ; each fires at most once |
| ConflictDetection.CertificationRule | app/conflict_detector.py:55-60 | the rule-4 entries are exactly `CertConflicts` of the requirement list against the pilot's parsed list; a missing-certification entry is present iff the certification is required and absent case-insensitively |
| ConflictDetection.BookingRules | app/conflict_detector.py:65-72 | rules 5 and 6 each fire at most once, iff the status is exactly one of assigned/busy/deployed and the stripped assignment is non-empty, not "-", and differs case-insensitively from the project |
| ConflictDetection.AssignedWithIdIsNotEngaged | app/conflict_detector.py:65-68 | a pilot status "Assigned(<id>)" never yields a pilot double-booking entry |
| ConflictDetection.SameProjectIsNotDoubleBooking | app/conflict_detector.py:65-72 | when both assignments name this project, in any letter case, the result holds no booking entries |
| ConflictDetection.ConflictCountBound | app/conflict_detector.py:22-74 | the result has at most 6 + (number of required certifications) entries |
| ConflictDetection.ConflictsInRuleOrder | app/conflict_detector.py:22-74 | entries appear in rule order: maintenance, the three location rules, certifications, then pilot and drone bookings |
| ConflictDetection.WithoutRequirements | app/conflict_detector.py:25-26 | with no requirements, only maintenance, pilot-vs-drone and booking entries can appear; no project-location or certification entry arises |
| ConflictDetection.DatesAreIgnored | app/conflict_detector.py:11-74 | changing the start and end dates never changes the result |
| ConflictDetection.NoneLocationMismatches | app/conflict_detector.py:40-48 | a requirements location of `None` is the text "None", so a located pilot not literally in "none" gets a pilot-vs-project conflict |
| ConflictDetection.BangaloreMumbaiScenario | app/conflict_detector.py:13-74 | pilot in Bangalore, drone in Mumbai, Bangalore project requiring DGCA held by the pilot: exactly the pilot-vs-drone and drone-vs-project conflicts |
| ConflictDetection.SameSiteAwayFromProject | app/conflict_detector.py:46-50 | pilot and drone both in Bangalore, project in Mumbai: exactly the two project-location conflicts and no pilot-vs-drone one |
| ConflictDetection.SameSiteScenario | app/conflict_detector.py:22-74 | free pilot and drone both in Bangalore, Mumbai project requiring no certification: the whole result is exactly the two project-location conflicts |
| ConflictDetection.QualifiedPairIsClean | app/conflict_detector.py:22-74 | a free pilot holding "DGCA,BVLOS" and a free drone, both in Bangalore, for a Bangalore mission requiring DGCA: no conflict |
| ConflictDetection.CertificationGapScenario | app/conflict_detector.py:55-60 | requiring DGCA and BVLOS of a pilot holding "DGCA" reports exactly one conflict, naming BVLOS |
| ConflictDetection.ListCellsAreNotStripped | app/conflict_detector.py:84-89 | a list cell holding " DGCA" does not satisfy DGCA, while a text cell " DGCA" does |
| QueryParsing.DetectIntent | app/agent.py:63-90 | the if-chain of `_detect_intent` on the lower-cased query, tests in source order; the urgent intent holds iff both "urgent" and "mission" occur, and either assignment intent needs "mission" |
| QueryParsing.DetectIntentFollowsTable | app/agent.py:63-90 | the intent is the tag of the first rule of the priority table that fires on the lower-cased query, or Unknown when none fires |
| QueryParsing.UnknownWhenNoKeyword | app/agent.py:66-90 | a query naming none of "mission", "show", "available pilots", "available drones" and "update", in any case, is Unknown |
| QueryParsing.AssignExampleIsNotUnderstood | ui/streamlit_app.py:166 | the chat page's example "assign project PRJ003 in Bangalore thermal dgca" is classified Unknown, not as an assignment |
| QueryParsing.UrgentExampleIsNotUnderstood | ui/streamlit_app.py:167 | the chat page's example "urgent assign project PRJ002 in Mumbai night ops" is classified Unknown, not as an urgent assignment |
| QueryParsing.UnknownWhenNoRuleFires | app/agent.py:63-90 | the intent is Unknown iff no rule of the table fires |
| QueryParsing.DetectIntentIgnoresCase | app/agent.py:63-64 | lower-casing the query first does not change the intent |
| QueryParsing.ExtractCapability | app/agent.py:317-322 | the loop returns the first capability of the table that the lower-cased query contains, or none |
| QueryParsing.CapabilityIsFirstListed | app/agent.py:317-322 | the result is none iff no listed capability occurs; otherwise it is a listed capability that occurs, with no earlier listed one occurring |
| QueryParsing.ExtractRequiredCerts | app/agent.py:324-333 | the appends yield the tags of every certification keyword the lower-cased query contains, in table order |
| QueryParsing.RequiredCertsShape | app/agent.py:324-333 | the certifications are distinct, drawn from DGCA, BVLOS and Night Ops, and each is present iff its keyword occurs |
| QueryParsing.ExtractStatus | app/agent.py:335-349 | the if-chain of `_extract_status`: the result is one of the six statuses; it is none iff no status keyword occurs in the lower-cased query; "on leave" wins over every other keyword |
| QueryParsing.ExtractStatusFollowsTable | app/agent.py:335-349 | the status is the tag of the first status keyword the lower-cased query contains, in the priority order on leave, maintenance, available, busy, inactive, assigned |
| QueryParsing.UnavailableReadsAsAvailable | app/agent.py:335-349 | a query saying "unavailable", with no leave or maintenance keyword, extracts "Available" |
| Normalisation.ParseList | app/agent.py:351-356 | every item returned, from a text or a list cell, is stripped and non-empty |
| Normalisation.ParseListIdempotent | app/agent.py:351-356 | parsing an already parsed list again changes nothing |
| Normalisation.ParseListJoin | app/agent.py:356 | clean, comma-free names joined with "," parse back to the same list |
| Normalisation.ParseListAgreesWithValidator | app/agent.py:351-356 | on text cells and on list cells of clean names, the agent's and the validator's `_parse_list` agree |
| Normalisation.HasAll | app/agent.py:358-363 | returns true iff every stripped, lower-cased required name is among the stripped, lower-cased held names; empty requirements give true |
| Normalisation.CoversAllMonotone | app/agent.py:358-363 | holding more names never loses coverage, and every list covers itself |
| Normalisation.CoversAllIgnoresCase | app/agent.py:358-363 | lower-casing the held names does not change coverage |
| Coordinator.AvailablePilotsMembers | app/agent.py:99-115 | a pilot is listed iff it is in the roster and its status is available/active/free, its location contains the requested one case-insensitively, and it holds every required certification |
| Coordinator.AvailablePilotsInOrder | app/agent.py:99-115 | the listed pilots are an order-preserving subsequence of the roster |
| Coordinator.ShowPilots | app/agent.py:95-115 | the filter loop yields exactly the qualifying pilots, in order, for the certifications extracted from the query |
| Coordinator.AvailableDronesMembers | app/agent.py:136-155 | a drone is listed iff it is in the fleet and its status is available/ready/free and has no "maintenance", and its location and capabilities contain the requested ones case-insensitively |
| Coordinator.AvailableDronesInOrder | app/agent.py:136-155 | the listed drones are an order-preserving subsequence of the fleet |
| Coordinator.MaintenanceTestIsRedundant | app/agent.py:143-147 | a drone status passing the status test never contains "maintenance" |
| Coordinator.ShowDrones | app/agent.py:132-155 | the filter loop yields exactly the qualifying drones, in order, for the capability extracted from the query |
| Coordinator.PilotUpdate | app/agent.py:172-185 | missing-arguments iff the name or the status was not read; not-found iff both were read and no pilot has the name case-insensitively, and it carries the name; an update writes the name and status as read |
| Coordinator.DroneUpdate | app/agent.py:190-203 | missing-arguments iff the id or the status was not read; not-found iff both were read and no drone has the id case-insensitively, and it carries the id; an update writes the id and status as read |
| Coordinator.PilotUpdateGuard | app/agent.py:172-185 | a pilot status is written iff a name and a status were read and a roster pilot has that name case-insensitively; the write carries them; not-found means no pilot has that name |
| Coordinator.DroneUpdateGuard | app/agent.py:190-203 | a drone status is written iff an id and a status were read and a fleet drone has that id case-insensitively; the write carries them; not-found means no drone has that id |
| Coordinator.FindMissionSpec | app/agent.py:215-220 | the lookup finds nothing iff no row's stripped, lower-cased id matches, and otherwise the first matching row |
| Coordinator.LookupMission | app/agent.py:215-220 | the scan with early exit returns the first matching mission row, or none |
| Coordinator.DecideAssignment | app/agent.py:208-268 | the steps lookup, already-resolved check, engine call and validation give the outcome `AssignDecision` defines |
| Coordinator.AssignWritesOnlyOnSuccess | app/agent.py:208-279 | writes happen iff an id was read, a mission row matches, it is neither assigned nor completed, the engine proposed a pair, and the validator found nothing; then exactly three writes, in order: mission assignment, pilot status "Assigned(<id>)", drone status "Assigned(<id>)" |
| Coordinator.ConflictOutcome | app/agent.py:250-268 | a conflict outcome carries the validator's non-empty result for the proposed pair against the mission's requirements |
| Coordinator.ProjectFallsBackToMissionId | app/agent.py:232 | a successful assignment's project is the mission's project cell, or the mission id when that cell is missing or empty, and is never empty |
| Coordinator.ResolvedMissionIsKept | app/agent.py:225-227 | a mission already assigned or completed, in any letter case, is reported as resolved and nothing is written |
| Coordinator.AssignedPilotIsNotDoubleBooked | app/agent.py:278 | the status written on assignment never triggers the validator's pilot double-booking rule |
| Coordinator.AssignedDroneIsNotDoubleBooked | app/agent.py:279 | the status written on assignment never triggers the validator's drone double-booking rule |
| Coordinator.CoordinatorAgent.constructor | app/agent.py:18-21 | the agent keeps the given store and matching engine |
| Coordinator.CoordinatorAgent.UpdatePilotStatus | app/agent.py:172-185 | the outcome is the guard's decision on the extracted status, and the log grows by exactly the write it allows |
| Coordinator.CoordinatorAgent.UpdateDroneStatus | app/agent.py:190-203 | the outcome is the guard's decision on the extracted status, and the log grows by exactly the write it allows |
| Coordinator.CoordinatorAgent.AssignMission | app/agent.py:208-296 | the outcome is `AssignDecision` on the store's missions and the agent's engine, and the log grows by exactly the writes of that outcome |
| Coordinator.CoordinatorAgent.WriteAssignment | app/agent.py:270-279 | an assigned outcome appends the mission write, then the pilot's and the drone's `Assigned(<id>)` status; any other outcome leaves the log as it was |
| Coordinator.CoordinatorAgent.HandleQuery | app/agent.py:26-58 | for each intent of the stripped query, the response is that operation's result and the log grows by exactly its writes; listings and unknown queries write nothing |
| Roster.RosterStore.UpdateMissionAssignment | app/agent.py:271-275 | appends the mission-assignment write to the log and changes nothing else |
| Roster.RosterStore.UpdatePilotStatus | app/sheets_client.py:42-65 | appends the pilot-status write to the log and changes nothing else |
| Roster.RosterStore.UpdateDroneStatus | app/sheets_client.py:71-94 | appends the drone-status write to the log and changes nothing else |

## Left out

- **Transport.** The roster store's HTTP transport, JSON decoding, and its exceptions on a failed read or write are not modelled. A write is an entry in the store's log.
- **Effect of writes on the tables.** What a write does to the remote tables is not modelled: the tables stay as they were read.
- **Partial commits.** A failure between the three assignment writes is not modelled.
- **Missing store operations.** `get_mission_data` and `update_mission_assignment` are called but not defined in `app/sheets_client.py`. They are abstract: the `missions` table and the `UpdateMissionAssignment` log entry.
- **Matching engine.** `AssignmentEngine.find_best_match` (`app/assignment_engine.py`) is not part of this model. It is an arbitrary function the agent is built with, so no ranking, location policy or tie-break is assumed, and end-to-end outcomes that depend on which pair the engine picks are not stated.
- **Regex extractors.** `_extract_location`, `_extract_mission_id`, `_extract_pilot_name` and `_extract_drone_id` depend on regular-expression semantics. Their results are inputs.
- **Messages.** Human-readable messages, emoji, the `urgent` tag in the success text and the `result`/`match` payloads are reduced to the outcome datatypes.
- **Type guard.** The `isinstance(..., list)` guard in `handle_query` is not modelled: pilots and drones are typed sequences.
- **Row values.** Every text field of a pilot or drone row is a string. Where the source reads a field with `.get(key, "")`, a missing key gives "" there too. JSON `null` in those rows, and non-string values, are not modelled.
- **Missing name or id.** The pilot's name and the drone's id are read with `.get(key)` and no default in the assignment writes (`app/agent.py:273-274`, `app/agent.py:278-279`) and in the conflict entries (`app/conflict_detector.py:33`, `app/conflict_detector.py:60`, `app/conflict_detector.py:68`, `app/conflict_detector.py:72`). For a row without that key, the source writes `None` to the store and its conflict message quotes the text `None`. The model uses the row's string field, which is "" when the key is missing.
- **Capabilities cell.** A drone's capabilities cell is text only; the agent only applies a substring test to `str(...)` of it.
- Strings.Lower: lower-cases ASCII letters only. Python's `str.lower()` also maps non-ASCII letters.
- Strings.Trim: strips ASCII whitespace, U+001C–U+001F, U+0085 and U+00A0. Python's `str.strip()` also strips the other Unicode space separators.
- Coordinator.CoordinatorAgent.HandleQuery: the query is a string, so the `user_query or ""` fallback for `None` is not modelled.
- **Other files.** The Streamlit UI (`ui/streamlit_app.py`), the demo scripts (`app/main.py`, `app/test.py`) and `app/__init__.py` are not part of this model.
