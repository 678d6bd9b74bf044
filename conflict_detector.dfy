/**
  The conflict validator (`ConflictDetector` in app/conflict_detector.py): a
  read-only check of a proposed pilot and drone against a mission's
  requirements. Every rule runs, in a fixed order, and each rule that fires
  appends its conflicts:

    rule 0     the drone is under maintenance;
    rules 1-3  pilot and drone are in different places; the pilot, then the
               drone, is somewhere other than the project;
    rule 4     one conflict per required certification the pilot lacks;
    rules 5-6  the pilot, then the drone, is already booked on another project.

  `ConflictsOf` states the result as a function; `CheckConflicts` builds it by
  appends, as the source does, and is proved to produce exactly that list.
*/
module ConflictDetection {
  import opened Optional
  import opened Strings
  import opened Roster

  /** The `project_req` dictionary. The coordinator always fills every key;
      `location` and the dates may hold `None`. The dates are carried and never
      examined. */
  datatype Requirements = Requirements(
    location: Option<string>,
    startDate: Option<string>,
    endDate: Option<string>,
    requiredCerts: seq<string>)

  /** One reported conflict; the fields are the values the source's message
      quotes. */
  datatype Conflict =
    | DroneMaintenance(droneId: string)
    | PilotDroneLocation(pilotLocation: string, droneLocation: string)
    | PilotProjectLocation(pilotLocation: string, projectLocation: string)
    | DroneProjectLocation(droneLocation: string, projectLocation: string)
    | MissingCertification(pilotName: string, cert: string)
    | PilotAlreadyAssigned(pilotName: string, assignment: string)
    | DroneAlreadyAssigned(droneId: string, assignment: string)

  /** The position of a conflict's rule in the order the rules run. */
  function RuleIndex(c: Conflict): nat
  {
    match c
    case DroneMaintenance(_) => 0
    case PilotDroneLocation(_, _) => 1
    case PilotProjectLocation(_, _) => 2
    case DroneProjectLocation(_, _) => 3
    case MissingCertification(_, _) => 4
    case PilotAlreadyAssigned(_, _) => 5
    case DroneAlreadyAssigned(_, _) => 6
  }

  /** `str(value)` of a value that may be `None`. */
  function PyStr(o: Option<string>): string
  {
    match o
    case None => "None"
    case Some(s) => s
  }

  /** `project_req.get("location", "")`, as text: a missing `project_req` is
      `{}`, which has no key and gives "". */
  function ProjectLocation(req: Option<Requirements>): string
  {
    match req
    case None => ""
    case Some(r) => PyStr(r.location)
  }

  /** `project_req.get("required_certs", [])`. */
  function RequiredCerts(req: Option<Requirements>): seq<string>
  {
    match req
    case None => []
    case Some(r) => r.requiredCerts
  }

  /** The validator's `_parse_list`: nothing for an empty cell, a list cell as
      it stands (not stripped), and the stripped non-empty items of a text. */
  function ParseList(v: ListValue): (r: seq<string>)
    ensures IsFalsy(v) ==> r == []
    ensures v.Items? ==> r == v.items
    ensures v.Text? ==> forall i :: 0 <= i < |r| ==> r[i] != [] && IsTrimmed(r[i])
  {
    if IsFalsy(v) then []
    else match v
      case Items(xs) => xs
      case Text(s) => SplitList(s)
  }

  /** A text cell of comma-separated pieces reads as those pieces stripped,
      in their order, with the blank ones dropped. */
  lemma ParseListPadded(parts: seq<string>)
    requires |parts| >= 1
    requires forall i :: 0 <= i < |parts| ==> ',' !in parts[i]
    ensures ParseList(Text(Join(parts))) == TrimmedNonEmpty(parts)
    ensures forall x :: x in ParseList(Text(Join(parts))) <==> x != [] && exists i :: 0 <= i < |parts| && Trim(parts[i]) == x
  {
    SplitListJoinPadded(parts);
    if Join(parts) == [] {
      assert SplitList(Join(parts)) == [];
    }
    forall x {
      TrimmedNonEmptyMembers(parts, x);
    }
  }

  /** The example the validator documents: "DGCA, BVLOS" reads as the two
      certifications, the second stripped of its leading space. */
  lemma ParseListDocExample()
    ensures ParseList(Text("DGCA, BVLOS")) == ["DGCA", "BVLOS"]
  {
    assert "DGCA" + ", " + "BVLOS" == "DGCA, BVLOS";
    ParseListPair("DGCA", "BVLOS");
  }

  /** Two clean names written "a, b" read back as the two names. */
  lemma ParseListPair(a: string, b: string)
    requires a != [] && IsTrimmed(a) && ',' !in a
    requires b != [] && IsTrimmed(b) && ',' !in b
    ensures ParseList(Text(a + ", " + b)) == [a, b]
  {
    var parts := [a, " " + b];
    assert Join(parts[1..]) == " " + b;
    assert Join(parts) == a + ", " + b;
    ParseListPadded(parts);
    TrimOfTrimmed(a);
    TrimOfTrimmed(b);
    assert TrimStart(" " + b) == TrimStart(b) by {
      assert (" " + b)[1..] == b;
    }
    assert Trim(" " + b) == b;
    assert TrimmedNonEmpty(parts[1..]) == [b] by {
      assert parts[1..][1..] == [];
    }
  }

  /** `[c.lower() for c in certs]`. */
  function LowerAll(certs: seq<string>): seq<string>
  {
    seq(|certs|, i requires 0 <= i < |certs| => Lower(certs[i]))
  }

  // ----- the rules, one function per rule group -----

  /** The one entry `c` when `test` holds, nothing otherwise. */
  function Maybe(test: bool, c: Conflict): seq<Conflict>
  {
    if test then [c] else []
  }

  function MaintenanceConflicts(drone: Drone): seq<Conflict>
  {
    Maybe(Contains(Lower(drone.status), "maintenance"), DroneMaintenance(drone.droneId))
  }

  /** Rule 1: both locations are known and differ. */
  predicate PilotDroneApart(pilot: Pilot, drone: Drone)
  {
    var pilotLoc := Normal(pilot.location);
    var droneLoc := Normal(drone.location);
    |pilotLoc| > 0 && |droneLoc| > 0 && pilotLoc != droneLoc
  }

  /** Rules 2 and 3: the project's location is given, the site's is known,
      and they differ. */
  predicate AwayFromProject(site: string, req: Option<Requirements>)
  {
    var projectLoc := Normal(ProjectLocation(req));
    var siteLoc := Normal(site);
    |projectLoc| > 0 && |siteLoc| > 0 && projectLoc != siteLoc
  }

  function LocationConflicts(pilot: Pilot, drone: Drone, req: Option<Requirements>): seq<Conflict>
  {
    Maybe(PilotDroneApart(pilot, drone), PilotDroneLocation(pilot.location, drone.location))
    + Maybe(AwayFromProject(pilot.location, req), PilotProjectLocation(pilot.location, ProjectLocation(req)))
    + Maybe(AwayFromProject(drone.location, req), DroneProjectLocation(drone.location, ProjectLocation(req)))
  }

  /** One conflict per entry of `required` whose lower-case form is not the
      lower-case form of any held certification, in the order of `required`. */
  function CertConflicts(pilotName: string, required: seq<string>, held: seq<string>): seq<Conflict>
  {
    if required == [] then []
    else
      var cert := required[|required| - 1];
      CertConflicts(pilotName, required[..|required| - 1], held)
      + Maybe(Lower(cert) !in LowerAll(held), MissingCertification(pilotName, cert))
  }

  /** A status that marks a pilot or drone as engaged: exactly "assigned",
      "busy" or "deployed" once lower-cased. */
  predicate IsEngaged(status: string)
  {
    Lower(status) in {"assigned", "busy", "deployed"}
  }

  /** The double-booking test on a stripped `current_assignment`. */
  predicate BookedElsewhere(status: string, assignment: string, project: string)
  {
    IsEngaged(status) && assignment != "" && assignment != "-" && Lower(assignment) != Lower(project)
  }

  function BookingConflicts(pilot: Pilot, drone: Drone, project: string): seq<Conflict>
  {
    var pilotAssignment := Trim(pilot.currentAssignment);
    var droneAssignment := Trim(drone.currentAssignment);
    Maybe(BookedElsewhere(pilot.status, pilotAssignment, project),
          PilotAlreadyAssigned(pilot.name, pilotAssignment))
    + Maybe(BookedElsewhere(drone.status, droneAssignment, project),
            DroneAlreadyAssigned(drone.droneId, droneAssignment))
  }

  /** Everything `check_conflicts` reports, in the order it reports it. */
  function ConflictsOf(pilot: Pilot, drone: Drone, project: string, req: Option<Requirements>): seq<Conflict>
  {
    MaintenanceConflicts(drone)
    + LocationConflicts(pilot, drone, req)
    + CertConflicts(pilot.name, RequiredCerts(req), ParseList(pilot.certifications))
    + BookingConflicts(pilot, drone, project)
  }

  /** `check_conflicts`: runs the four rule sections in order, with no early
      exit, appending what each one finds. */
  method CheckConflicts(pilot: Pilot, drone: Drone, project: string, projectReq: Option<Requirements>)
    returns (conflicts: seq<Conflict>)
    ensures conflicts == ConflictsOf(pilot, drone, project, projectReq)
  {
    ghost var m := MaintenanceConflicts(drone);
    ghost var l := LocationConflicts(pilot, drone, projectReq);
    ghost var c := CertConflicts(pilot.name, RequiredCerts(projectReq), ParseList(pilot.certifications));
    ghost var b := BookingConflicts(pilot, drone, project);
    conflicts := [];
    conflicts := CheckMaintenance(conflicts, drone);
    assert conflicts == m;
    conflicts := CheckLocations(conflicts, pilot, drone, projectReq);
    assert conflicts == m + l;
    conflicts := CheckCertifications(conflicts, pilot, projectReq);
    assert conflicts == m + l + c;
    conflicts := CheckBookings(conflicts, pilot, drone, project);
  }

  /** Section 1 of `check_conflicts`: the drone's maintenance state. */
  method CheckMaintenance(conflicts: seq<Conflict>, drone: Drone) returns (result: seq<Conflict>)
    ensures result == conflicts + MaintenanceConflicts(drone)
  {
    result := conflicts;
    var droneStatus := Lower(drone.status);
    if Contains(droneStatus, "maintenance") {
      result := result + [DroneMaintenance(drone.droneId)];
    }
  }

  /** Section 2 of `check_conflicts`: pilot against drone, then both against
      the project's location when one is given. */
  method CheckLocations(conflicts: seq<Conflict>, pilot: Pilot, drone: Drone, projectReq: Option<Requirements>)
    returns (result: seq<Conflict>)
    ensures result == conflicts + LocationConflicts(pilot, drone, projectReq)
  {
    result := conflicts;
    var pilotLoc := Normal(pilot.location);
    var droneLoc := Normal(drone.location);
    var projectLoc := Normal(ProjectLocation(projectReq));
    if |pilotLoc| > 0 && |droneLoc| > 0 && pilotLoc != droneLoc {
      result := result + [PilotDroneLocation(pilot.location, drone.location)];
    }
    if |projectLoc| > 0 {
      if |pilotLoc| > 0 && projectLoc != pilotLoc {
        result := result + [PilotProjectLocation(pilot.location, ProjectLocation(projectReq))];
      }
      if |droneLoc| > 0 && projectLoc != droneLoc {
        result := result + [DroneProjectLocation(drone.location, ProjectLocation(projectReq))];
      }
    }
  }

  /** Section 3 of `check_conflicts`: one conflict per required certification
      missing from the pilot's list. */
  method CheckCertifications(conflicts: seq<Conflict>, pilot: Pilot, projectReq: Option<Requirements>)
    returns (result: seq<Conflict>)
    ensures result == conflicts + CertConflicts(pilot.name, RequiredCerts(projectReq), ParseList(pilot.certifications))
  {
    result := conflicts;
    var requiredCerts := RequiredCerts(projectReq);
    var pilotCerts := ParseList(pilot.certifications);
    for i := 0 to |requiredCerts|
      invariant result == conflicts + CertConflicts(pilot.name, requiredCerts[..i], pilotCerts)
    {
      var cert := requiredCerts[i];
      assert requiredCerts[..i + 1][..i] == requiredCerts[..i];
      if Lower(cert) !in LowerAll(pilotCerts) {
        result := result + [MissingCertification(pilot.name, cert)];
      }
    }
    assert requiredCerts[..|requiredCerts|] == requiredCerts;
  }

  /** Section 4 of `check_conflicts`: the pilot, then the drone, already
      engaged on a different project. */
  method CheckBookings(conflicts: seq<Conflict>, pilot: Pilot, drone: Drone, project: string)
    returns (result: seq<Conflict>)
    ensures result == conflicts + BookingConflicts(pilot, drone, project)
  {
    result := conflicts;
    var pilotAssignment := Trim(pilot.currentAssignment);
    if IsEngaged(pilot.status) && pilotAssignment != "" && pilotAssignment != "-"
       && Lower(pilotAssignment) != Lower(project) {
      result := result + [PilotAlreadyAssigned(pilot.name, pilotAssignment)];
    }
    var droneAssignment := Trim(drone.currentAssignment);
    if IsEngaged(drone.status) && droneAssignment != "" && droneAssignment != "-"
       && Lower(droneAssignment) != Lower(project) {
      result := result + [DroneAlreadyAssigned(drone.droneId, droneAssignment)];
    }
  }

  // ----- properties of the validator -----

  /** The entries of `s` that rule `k` produced, in their order in `s`. */
  function OfRule(s: seq<Conflict>, k: nat): seq<Conflict>
  {
    if s == [] then []
    else Maybe(RuleIndex(s[0]) == k, s[0]) + OfRule(s[1..], k)
  }

  lemma {:induction false} OfRuleConcat(a: seq<Conflict>, b: seq<Conflict>, k: nat)
    ensures OfRule(a + b, k) == OfRule(a, k) + OfRule(b, k)
  {
    if a != [] {
      var head := Maybe(RuleIndex(a[0]) == k, a[0]);
      assert (a + b)[0] == a[0] && (a + b)[1..] == a[1..] + b;
      OfRuleConcat(a[1..], b, k);
      calc {
        OfRule(a + b, k);
        head + OfRule(a[1..] + b, k);
        head + (OfRule(a[1..], k) + OfRule(b, k));
        (head + OfRule(a[1..], k)) + OfRule(b, k);
      }
    } else {
      assert a + b == b;
    }
  }

  lemma OfRuleMaybe(test: bool, c: Conflict, k: nat)
    ensures OfRule(Maybe(test, c), k) == Maybe(test && RuleIndex(c) == k, c)
  {
    if test {
      assert [c][1..] == [];
    }
  }

  lemma {:induction false} OfRuleUniform(s: seq<Conflict>, k: nat, j: nat)
    requires forall c :: c in s ==> RuleIndex(c) == j
    ensures OfRule(s, k) == if j == k then s else []
  {
    if s != [] {
      OfRuleUniform(s[1..], k, j);
    }
  }

  /** The certification section reports only missing certifications of this
      pilot, one for each required entry whose lower-case form the pilot's
      lower-cased list lacks, and never more entries than were required. */
  lemma {:induction false} CertConflictsExactly(pilotName: string, required: seq<string>, held: seq<string>)
    ensures |CertConflicts(pilotName, required, held)| <= |required|
    ensures forall c :: c in CertConflicts(pilotName, required, held) ==> RuleIndex(c) == 4
    ensures forall name, cert ::
      MissingCertification(name, cert) in CertConflicts(pilotName, required, held)
      <==> name == pilotName && cert in required && Lower(cert) !in LowerAll(held)
  {
    if required != [] {
      var init := required[..|required| - 1];
      CertConflictsExactly(pilotName, init, held);
      assert required == init + [required[|required| - 1]];
    }
  }

  /** Splits the entries of the whole result by rule: each rule's entries are
      those its own section produced. */
  lemma SectionsByRule(pilot: Pilot, drone: Drone, project: string, req: Option<Requirements>, k: nat)
    ensures OfRule(ConflictsOf(pilot, drone, project, req), k)
         == OfRule(MaintenanceConflicts(drone), k) + OfRule(LocationConflicts(pilot, drone, req), k)
            + (if k == 4 then CertConflicts(pilot.name, RequiredCerts(req), ParseList(pilot.certifications)) else [])
            + OfRule(BookingConflicts(pilot, drone, project), k)
  {
    var m := MaintenanceConflicts(drone);
    var l := LocationConflicts(pilot, drone, req);
    var c := CertConflicts(pilot.name, RequiredCerts(req), ParseList(pilot.certifications));
    var b := BookingConflicts(pilot, drone, project);
    OfRuleConcat(m + l + c, b, k);
    OfRuleConcat(m + l, c, k);
    OfRuleConcat(m, l, k);
    CertConflictsExactly(pilot.name, RequiredCerts(req), ParseList(pilot.certifications));
    OfRuleUniform(c, k, 4);
  }

  /** The maintenance rule: a drone whose lower-cased status contains
      "maintenance" gets exactly one maintenance entry, and it is the first
      entry of the result; any other drone gets none. */
  lemma MaintenanceRule(pilot: Pilot, drone: Drone, project: string, req: Option<Requirements>)
    ensures OfRule(ConflictsOf(pilot, drone, project, req), 0)
         == Maybe(Contains(Lower(drone.status), "maintenance"), DroneMaintenance(drone.droneId))
    ensures Contains(Lower(drone.status), "maintenance") ==>
      |ConflictsOf(pilot, drone, project, req)| > 0 && ConflictsOf(pilot, drone, project, req)[0] == DroneMaintenance(drone.droneId)
  {
    SectionsByRule(pilot, drone, project, req, 0);
    LocationByRule(pilot, drone, req, 0);
    BookingByRule(pilot, drone, project, 0);
    OfRuleMaybe(Contains(Lower(drone.status), "maintenance"), DroneMaintenance(drone.droneId), 0);
  }

  /** Three optional entries, split by rule. */
  lemma OfRuleMaybe3(p: bool, c1: Conflict, q: bool, c2: Conflict, r: bool, c3: Conflict, k: nat)
    ensures OfRule(Maybe(p, c1) + Maybe(q, c2) + Maybe(r, c3), k)
         == Maybe(p && RuleIndex(c1) == k, c1) + Maybe(q && RuleIndex(c2) == k, c2)
            + Maybe(r && RuleIndex(c3) == k, c3)
  {
    OfRuleConcat(Maybe(p, c1) + Maybe(q, c2), Maybe(r, c3), k);
    OfRuleConcat(Maybe(p, c1), Maybe(q, c2), k);
    OfRuleMaybe(p, c1, k);
    OfRuleMaybe(q, c2, k);
    OfRuleMaybe(r, c3, k);
  }

  /** The location section split by rule. */
  lemma LocationByRule(pilot: Pilot, drone: Drone, req: Option<Requirements>, k: nat)
    ensures OfRule(LocationConflicts(pilot, drone, req), k)
      == Maybe(k == 1 && PilotDroneApart(pilot, drone), PilotDroneLocation(pilot.location, drone.location))
         + Maybe(k == 2 && AwayFromProject(pilot.location, req), PilotProjectLocation(pilot.location, ProjectLocation(req)))
         + Maybe(k == 3 && AwayFromProject(drone.location, req), DroneProjectLocation(drone.location, ProjectLocation(req)))
  {
    var c1 := PilotDroneLocation(pilot.location, drone.location);
    var c2 := PilotProjectLocation(pilot.location, ProjectLocation(req));
    var c3 := DroneProjectLocation(drone.location, ProjectLocation(req));
    var p, q, r := PilotDroneApart(pilot, drone), AwayFromProject(pilot.location, req), AwayFromProject(drone.location, req);
    OfRuleMaybe3(p, c1, q, c2, r, c3, k);
    assert (p && RuleIndex(c1) == k) == (k == 1 && p);
    assert (q && RuleIndex(c2) == k) == (k == 2 && q);
    assert (r && RuleIndex(c3) == k) == (k == 3 && r);
  }

  /** Two optional entries, split by rule. */
  lemma OfRuleMaybe2(p: bool, c1: Conflict, q: bool, c2: Conflict, k: nat)
    ensures OfRule(Maybe(p, c1) + Maybe(q, c2), k)
         == Maybe(p && RuleIndex(c1) == k, c1) + Maybe(q && RuleIndex(c2) == k, c2)
  {
    OfRuleConcat(Maybe(p, c1), Maybe(q, c2), k);
    OfRuleMaybe(p, c1, k);
    OfRuleMaybe(q, c2, k);
  }

  /** The booking section split by rule. */
  lemma BookingByRule(pilot: Pilot, drone: Drone, project: string, k: nat)
    ensures OfRule(BookingConflicts(pilot, drone, project), k)
      == Maybe(k == 5 && BookedElsewhere(pilot.status, Trim(pilot.currentAssignment), project),
               PilotAlreadyAssigned(pilot.name, Trim(pilot.currentAssignment)))
         + Maybe(k == 6 && BookedElsewhere(drone.status, Trim(drone.currentAssignment), project),
                 DroneAlreadyAssigned(drone.droneId, Trim(drone.currentAssignment)))
  {
    OfRuleMaybe2(BookedElsewhere(pilot.status, Trim(pilot.currentAssignment), project),
                 PilotAlreadyAssigned(pilot.name, Trim(pilot.currentAssignment)),
                 BookedElsewhere(drone.status, Trim(drone.currentAssignment), project),
                 DroneAlreadyAssigned(drone.droneId, Trim(drone.currentAssignment)), k);
  }

  /** The entries of one rule are exactly the members of the result that
      carry that rule's index. */
  lemma {:induction false} OfRuleMembers(s: seq<Conflict>, k: nat)
    ensures forall c :: c in OfRule(s, k) <==> c in s && RuleIndex(c) == k
  {
    if s != [] {
      OfRuleMembers(s[1..], k);
      assert s == [s[0]] + s[1..];
    }
  }

  /** Rules 1 to 3: a pilot and a drone in different places conflict, and
      either one conflicts with the project's location when that is given;
      each finding is reported once, and empty locations never conflict. */
  lemma LocationRules(pilot: Pilot, drone: Drone, project: string, req: Option<Requirements>)
    ensures OfRule(ConflictsOf(pilot, drone, project, req), 1)
         == Maybe(PilotDroneApart(pilot, drone), PilotDroneLocation(pilot.location, drone.location))
    ensures OfRule(ConflictsOf(pilot, drone, project, req), 2)
         == Maybe(AwayFromProject(pilot.location, req), PilotProjectLocation(pilot.location, ProjectLocation(req)))
    ensures OfRule(ConflictsOf(pilot, drone, project, req), 3)
         == Maybe(AwayFromProject(drone.location, req), DroneProjectLocation(drone.location, ProjectLocation(req)))
  {
    var all := ConflictsOf(pilot, drone, project, req);
    var loc := LocationConflicts(pilot, drone, req);
    LocationSectionRules(pilot, drone, req);
    assert OfRule(all, 1) == OfRule(loc, 1) by { LocationRuleFromSection(pilot, drone, project, req, 1); }
    assert OfRule(all, 2) == OfRule(loc, 2) by { LocationRuleFromSection(pilot, drone, project, req, 2); }
    assert OfRule(all, 3) == OfRule(loc, 3) by { LocationRuleFromSection(pilot, drone, project, req, 3); }
  }

  /** Each of rules 1 to 3 has one candidate entry in the location section. */
  lemma LocationSectionRules(pilot: Pilot, drone: Drone, req: Option<Requirements>)
    ensures OfRule(LocationConflicts(pilot, drone, req), 1)
         == Maybe(PilotDroneApart(pilot, drone), PilotDroneLocation(pilot.location, drone.location))
    ensures OfRule(LocationConflicts(pilot, drone, req), 2)
         == Maybe(AwayFromProject(pilot.location, req), PilotProjectLocation(pilot.location, ProjectLocation(req)))
    ensures OfRule(LocationConflicts(pilot, drone, req), 3)
         == Maybe(AwayFromProject(drone.location, req), DroneProjectLocation(drone.location, ProjectLocation(req)))
  {
    var c1 := PilotDroneLocation(pilot.location, drone.location);
    var c2 := PilotProjectLocation(pilot.location, ProjectLocation(req));
    var c3 := DroneProjectLocation(drone.location, ProjectLocation(req));
    var p, q, r := PilotDroneApart(pilot, drone), AwayFromProject(pilot.location, req), AwayFromProject(drone.location, req);
    assert OfRule(LocationConflicts(pilot, drone, req), 1) == Maybe(p, c1) by {
      LocationByRule(pilot, drone, req, 1);
      OnlyOneOfThree(Maybe(p, c1), Maybe(false, c2), Maybe(false, c3));
    }
    assert OfRule(LocationConflicts(pilot, drone, req), 2) == Maybe(q, c2) by {
      LocationByRule(pilot, drone, req, 2);
      OnlyOneOfThree(Maybe(false, c1), Maybe(q, c2), Maybe(false, c3));
    }
    assert OfRule(LocationConflicts(pilot, drone, req), 3) == Maybe(r, c3) by {
      LocationByRule(pilot, drone, req, 3);
      OnlyOneOfThree(Maybe(false, c1), Maybe(false, c2), Maybe(r, c3));
    }
  }

  /** Two empty parts drop out of a three-part concatenation. */
  lemma OnlyOneOfThree(a: seq<Conflict>, b: seq<Conflict>, c: seq<Conflict>)
    ensures b == [] && c == [] ==> a + b + c == a
    ensures a == [] && c == [] ==> a + b + c == b
    ensures a == [] && b == [] ==> a + b + c == c
  {
  }

  /** Only the location section produces entries of rules 1 to 3. */
  lemma LocationRuleFromSection(pilot: Pilot, drone: Drone, project: string, req: Option<Requirements>, k: nat)
    requires 1 <= k <= 3
    ensures OfRule(ConflictsOf(pilot, drone, project, req), k) == OfRule(LocationConflicts(pilot, drone, req), k)
  {
    SectionsByRule(pilot, drone, project, req, k);
    BookingByRule(pilot, drone, project, k);
    OfRuleMaybe(Contains(Lower(drone.status), "maintenance"), DroneMaintenance(drone.droneId), k);
  }

  /** Rule 4: every required certification the pilot's parsed list lacks,
      compared case-insensitively, is reported once per occurrence in the
      requirement list, in that order, and nothing else is. */
  lemma CertificationRule(pilot: Pilot, drone: Drone, project: string, req: Option<Requirements>)
    ensures OfRule(ConflictsOf(pilot, drone, project, req), 4)
         == CertConflicts(pilot.name, RequiredCerts(req), ParseList(pilot.certifications))
    ensures forall name, cert ::
      MissingCertification(name, cert) in ConflictsOf(pilot, drone, project, req)
      <==> name == pilot.name && cert in RequiredCerts(req)
           && Lower(cert) !in LowerAll(ParseList(pilot.certifications))
  {
    CertRuleFromSection(pilot, drone, project, req);
    CertMembers(ConflictsOf(pilot, drone, project, req), pilot.name, RequiredCerts(req), ParseList(pilot.certifications));
  }

  /** Only the certification section produces entries of rule 4. */
  lemma CertRuleFromSection(pilot: Pilot, drone: Drone, project: string, req: Option<Requirements>)
    ensures OfRule(ConflictsOf(pilot, drone, project, req), 4)
         == CertConflicts(pilot.name, RequiredCerts(req), ParseList(pilot.certifications))
  {
    var c := CertConflicts(pilot.name, RequiredCerts(req), ParseList(pilot.certifications));
    assert OfRule(MaintenanceConflicts(drone), 4) == [] by {
      OfRuleMaybe(Contains(Lower(drone.status), "maintenance"), DroneMaintenance(drone.droneId), 4);
    }
    assert OfRule(LocationConflicts(pilot, drone, req), 4) == [] by {
      LocationByRule(pilot, drone, req, 4);
    }
    assert OfRule(BookingConflicts(pilot, drone, project), 4) == [] by {
      BookingByRule(pilot, drone, project, 4);
    }
    SectionsByRule(pilot, drone, project, req, 4);
    assert [] + [] + c + [] == c;
  }

  /** Membership in a result whose rule-4 entries are the certification
      section's. */
  lemma CertMembers(r: seq<Conflict>, pilotName: string, required: seq<string>, held: seq<string>)
    requires OfRule(r, 4) == CertConflicts(pilotName, required, held)
    ensures forall name, cert ::
      MissingCertification(name, cert) in r
      <==> name == pilotName && cert in required && Lower(cert) !in LowerAll(held)
  {
    OfRuleMembers(r, 4);
    CertConflictsExactly(pilotName, required, held);
  }

  /** Rules 5 and 6: a pilot or drone whose status is engaged and whose
      stripped assignment is a real project other than this one (compared
      case-insensitively) is reported once. */
  lemma BookingRules(pilot: Pilot, drone: Drone, project: string, req: Option<Requirements>)
    ensures OfRule(ConflictsOf(pilot, drone, project, req), 5)
         == Maybe(BookedElsewhere(pilot.status, Trim(pilot.currentAssignment), project),
                  PilotAlreadyAssigned(pilot.name, Trim(pilot.currentAssignment)))
    ensures OfRule(ConflictsOf(pilot, drone, project, req), 6)
         == Maybe(BookedElsewhere(drone.status, Trim(drone.currentAssignment), project),
                  DroneAlreadyAssigned(drone.droneId, Trim(drone.currentAssignment)))
  {
    BookingRuleFromSection(pilot, drone, project, req, 5);
    BookingRuleFromSection(pilot, drone, project, req, 6);
    BookingByRule(pilot, drone, project, 5);
    BookingByRule(pilot, drone, project, 6);
  }

  /** Only the booking section produces entries of rules 5 and 6. */
  lemma BookingRuleFromSection(pilot: Pilot, drone: Drone, project: string, req: Option<Requirements>, k: nat)
    requires 5 <= k <= 6
    ensures OfRule(ConflictsOf(pilot, drone, project, req), k) == OfRule(BookingConflicts(pilot, drone, project), k)
  {
    SectionsByRule(pilot, drone, project, req, k);
    LocationByRule(pilot, drone, req, k);
    OfRuleMaybe(Contains(Lower(drone.status), "maintenance"), DroneMaintenance(drone.droneId), k);
  }

  /** A status of the form "Assigned(<id>)", which the coordinator writes on
      assignment, is never an engaged status, so it never counts as double
      booking whatever the assignment cell holds. */
  lemma AssignedWithIdIsNotEngaged(pilot: Pilot, drone: Drone, project: string, req: Option<Requirements>, id: string)
    requires pilot.status == "Assigned(" + id + ")"
    ensures OfRule(ConflictsOf(pilot, drone, project, req), 5) == []
  {
    assert !IsEngaged(pilot.status) by { LongStatusIsNotEngaged(pilot.status); }
    BookingRules(pilot, drone, project, req);
  }

  /** The engaged statuses are all shorter than ten characters. */
  lemma LongStatusIsNotEngaged(status: string)
    requires |status| >= 10
    ensures !IsEngaged(status)
  {
    assert |Lower(status)| >= 10;
  }

  /** An assignment to this same project, in any letter case, is never
      double booking. */
  lemma SameProjectIsNotDoubleBooking(pilot: Pilot, drone: Drone, project: string, req: Option<Requirements>)
    requires Lower(Trim(pilot.currentAssignment)) == Lower(project)
    requires Lower(Trim(drone.currentAssignment)) == Lower(project)
    ensures forall c :: c in ConflictsOf(pilot, drone, project, req) ==> RuleIndex(c) < 5
  {
    BookingRules(pilot, drone, project, req);
    NoEntriesOfLastRules(ConflictsOf(pilot, drone, project, req));
  }

  /** A result with no entries of rules 5 and 6 has only entries below 5. */
  lemma NoEntriesOfLastRules(r: seq<Conflict>)
    requires OfRule(r, 5) == [] && OfRule(r, 6) == []
    ensures forall c :: c in r ==> RuleIndex(c) < 5
  {
    OfRuleMembers(r, 5);
    OfRuleMembers(r, 6);
  }

  /** At most one entry per fixed rule plus one per required certification. */
  lemma ConflictCountBound(pilot: Pilot, drone: Drone, project: string, req: Option<Requirements>)
    ensures |ConflictsOf(pilot, drone, project, req)| <= 6 + |RequiredCerts(req)|
  {
    CertConflictsExactly(pilot.name, RequiredCerts(req), ParseList(pilot.certifications));
  }

  /** The entries of `s` appear in rule order. */
  predicate InRuleOrder(s: seq<Conflict>)
  {
    forall i, j :: 0 <= i < j < |s| ==> RuleIndex(s[i]) <= RuleIndex(s[j])
  }

  /** Every entry of `s` has a rule index between `lo` and `hi`. */
  predicate RulesWithin(s: seq<Conflict>, lo: nat, hi: nat)
  {
    forall c :: c in s ==> lo <= RuleIndex(c) <= hi
  }

  lemma InRuleOrderConcat(a: seq<Conflict>, b: seq<Conflict>, lo: nat, mid: nat, hi: nat)
    requires lo <= mid <= hi
    requires InRuleOrder(a) && RulesWithin(a, lo, mid)
    requires InRuleOrder(b) && RulesWithin(b, mid, hi)
    ensures InRuleOrder(a + b) && RulesWithin(a + b, lo, hi)
  {
    forall i, j | 0 <= i < j < |a + b|
      ensures RuleIndex((a + b)[i]) <= RuleIndex((a + b)[j])
    {
      if j < |a| {
        assert (a + b)[i] == a[i] && (a + b)[j] == a[j];
      } else if i >= |a| {
        assert (a + b)[i] == b[i - |a|] && (a + b)[j] == b[j - |a|];
      } else {
        assert (a + b)[i] in a && (a + b)[j] in b;
      }
    }
  }

  /** The result lists maintenance first, then the three location rules,
      then missing certifications, then double bookings. */
  lemma ConflictsInRuleOrder(pilot: Pilot, drone: Drone, project: string, req: Option<Requirements>)
    ensures InRuleOrder(ConflictsOf(pilot, drone, project, req))
  {
    var m := MaintenanceConflicts(drone);
    var l := LocationConflicts(pilot, drone, req);
    var c := CertConflicts(pilot.name, RequiredCerts(req), ParseList(pilot.certifications));
    var b := BookingConflicts(pilot, drone, project);
    MaybeInRuleOrder(Contains(Lower(drone.status), "maintenance"), DroneMaintenance(drone.droneId));
    LocationInRuleOrder(pilot, drone, req);
    CertConflictsExactly(pilot.name, RequiredCerts(req), ParseList(pilot.certifications));
    assert InRuleOrder(c) && RulesWithin(c, 4, 4);
    BookingInRuleOrder(pilot, drone, project);
    InRuleOrderConcat(m, l, 0, 0, 3);
    InRuleOrderConcat(m + l, c, 0, 3, 4);
    InRuleOrderConcat(m + l + c, b, 0, 4, 6);
  }

  /** A single optional entry is trivially in order. */
  lemma MaybeInRuleOrder(test: bool, c: Conflict)
    ensures InRuleOrder(Maybe(test, c)) && RulesWithin(Maybe(test, c), RuleIndex(c), RuleIndex(c))
  {
  }

  lemma LocationInRuleOrder(pilot: Pilot, drone: Drone, req: Option<Requirements>)
    ensures InRuleOrder(LocationConflicts(pilot, drone, req)) && RulesWithin(LocationConflicts(pilot, drone, req), 1, 3)
  {
    var l1 := Maybe(PilotDroneApart(pilot, drone), PilotDroneLocation(pilot.location, drone.location));
    var l2 := Maybe(AwayFromProject(pilot.location, req), PilotProjectLocation(pilot.location, ProjectLocation(req)));
    var l3 := Maybe(AwayFromProject(drone.location, req), DroneProjectLocation(drone.location, ProjectLocation(req)));
    MaybeInRuleOrder(PilotDroneApart(pilot, drone), PilotDroneLocation(pilot.location, drone.location));
    MaybeInRuleOrder(AwayFromProject(pilot.location, req), PilotProjectLocation(pilot.location, ProjectLocation(req)));
    MaybeInRuleOrder(AwayFromProject(drone.location, req), DroneProjectLocation(drone.location, ProjectLocation(req)));
    InRuleOrderConcat(l1, l2, 1, 1, 2);
    InRuleOrderConcat(l1 + l2, l3, 1, 2, 3);
  }

  lemma BookingInRuleOrder(pilot: Pilot, drone: Drone, project: string)
    ensures InRuleOrder(BookingConflicts(pilot, drone, project)) && RulesWithin(BookingConflicts(pilot, drone, project), 5, 6)
  {
    var b5 := Maybe(BookedElsewhere(pilot.status, Trim(pilot.currentAssignment), project),
                    PilotAlreadyAssigned(pilot.name, Trim(pilot.currentAssignment)));
    var b6 := Maybe(BookedElsewhere(drone.status, Trim(drone.currentAssignment), project),
                    DroneAlreadyAssigned(drone.droneId, Trim(drone.currentAssignment)));
    MaybeInRuleOrder(BookedElsewhere(pilot.status, Trim(pilot.currentAssignment), project),
                     PilotAlreadyAssigned(pilot.name, Trim(pilot.currentAssignment)));
    MaybeInRuleOrder(BookedElsewhere(drone.status, Trim(drone.currentAssignment), project),
                     DroneAlreadyAssigned(drone.droneId, Trim(drone.currentAssignment)));
    InRuleOrderConcat(b5, b6, 5, 5, 6);
  }

  /** Without project requirements only the maintenance rule, the pilot
      against the drone, and double bookings can fire. */
  lemma WithoutRequirements(pilot: Pilot, drone: Drone, project: string)
    ensures ConflictsOf(pilot, drone, project, None)
         == MaintenanceConflicts(drone)
            + Maybe(PilotDroneApart(pilot, drone), PilotDroneLocation(pilot.location, drone.location))
            + BookingConflicts(pilot, drone, project)
  {
    var apart := Maybe(PilotDroneApart(pilot, drone), PilotDroneLocation(pilot.location, drone.location));
    assert LocationConflicts(pilot, drone, None) == apart by {
      assert Normal("") == "";
      assert !AwayFromProject(pilot.location, None) && !AwayFromProject(drone.location, None);
    }
    assert CertConflicts(pilot.name, RequiredCerts(None), ParseList(pilot.certifications)) == [];
  }

  /** The dates of the requirements are never consulted. */
  lemma DatesAreIgnored(pilot: Pilot, drone: Drone, project: string, r: Requirements,
                        startDate: Option<string>, endDate: Option<string>)
    ensures ConflictsOf(pilot, drone, project, Some(r))
         == ConflictsOf(pilot, drone, project, Some(r.(startDate := startDate, endDate := endDate)))
  {
  }

  /** A requirements record whose location is `None` reads as the text
      "None", so any located pilot that is not literally in "none" conflicts
      with it. */
  lemma NoneLocationMismatches(pilot: Pilot, drone: Drone, project: string, r: Requirements)
    requires r.location == None
    requires Normal(pilot.location) != [] && Normal(pilot.location) != "none"
    ensures PilotProjectLocation(pilot.location, "None") in ConflictsOf(pilot, drone, project, Some(r))
  {
    LocationRules(pilot, drone, project, Some(r));
    NormalNone();
    OfRuleMembers(ConflictsOf(pilot, drone, project, Some(r)), 2);
  }

  lemma NormalNone()
    ensures Normal("None") == "none"
  {
    TrimOfTrimmed("None");
  }

  // ----- worked scenarios -----

  /** A pilot in Bangalore, a drone in Mumbai and a Bangalore project: the
      pilot and drone disagree, the drone is away from the project, and
      nothing else is reported. */
  lemma BangaloreMumbaiScenario(pilot: Pilot, drone: Drone, req: Option<Requirements>)
    requires pilot.location == "Bangalore" && pilot.status == "Available" && pilot.certifications == Text("DGCA")
    requires drone.location == "Mumbai" && drone.status == "Available"
    requires req == Some(Requirements(Some("Bangalore"), Some("2026-02-10"), Some("2026-02-12"), ["DGCA"]))
    ensures ConflictsOf(pilot, drone, "PRJ001", req)
         == [PilotDroneLocation("Bangalore", "Mumbai"), DroneProjectLocation("Mumbai", "Bangalore")]
  {
    AvailableNotMaintenance(drone);
    BangaloreMumbaiLocations(pilot, drone, req);
    DGCAHeld(pilot, req);
    AvailableIsFree(pilot, drone, "PRJ001");
    OnlyLocationConflicts(pilot, drone, "PRJ001", req);
  }

  /** When the maintenance, certification and booking sections are silent,
      the findings are those of the location section. */
  lemma OnlyLocationConflicts(pilot: Pilot, drone: Drone, project: string, req: Option<Requirements>)
    requires MaintenanceConflicts(drone) == []
    requires CertConflicts(pilot.name, RequiredCerts(req), ParseList(pilot.certifications)) == []
    requires BookingConflicts(pilot, drone, project) == []
    ensures ConflictsOf(pilot, drone, project, req) == LocationConflicts(pilot, drone, req)
  {
    var l := LocationConflicts(pilot, drone, req);
    assert [] + l + [] + [] == l;
  }

  /** A pilot holding "DGCA" meets a requirement of "DGCA" alone. */
  lemma DGCAHeld(pilot: Pilot, req: Option<Requirements>)
    requires pilot.certifications == Text("DGCA")
    requires req.Some? && req.value.requiredCerts == ["DGCA"]
    ensures CertConflicts(pilot.name, RequiredCerts(req), ParseList(pilot.certifications)) == []
  {
    HeldDGCA();
    CertHeld(pilot.name, "DGCA");
  }

  lemma AvailableNotMaintenance(drone: Drone)
    requires drone.status == "Available"
    ensures MaintenanceConflicts(drone) == []
  {
    ContainsLength(Lower("Available"), "maintenance");
  }

  lemma BangaloreMumbaiLocations(pilot: Pilot, drone: Drone, req: Option<Requirements>)
    requires pilot.location == "Bangalore" && drone.location == "Mumbai"
    requires req.Some? && req.value.location == Some("Bangalore")
    ensures LocationConflicts(pilot, drone, req)
         == [PilotDroneLocation("Bangalore", "Mumbai"), DroneProjectLocation("Mumbai", "Bangalore")]
  {
    TrimOfTrimmed("Bangalore");
    TrimOfTrimmed("Mumbai");
    assert |Normal("Bangalore")| == 9 && |Normal("Mumbai")| == 6;
  }

  /** A pilot and a drone both in Bangalore, for a project in Mumbai: each
      is away from the project, and they do not conflict with each other. */
  lemma SameSiteAwayFromProject(pilot: Pilot, drone: Drone, req: Option<Requirements>)
    requires pilot.location == "Bangalore" && drone.location == "Bangalore"
    requires req.Some? && req.value.location == Some("Mumbai")
    ensures LocationConflicts(pilot, drone, req)
         == [PilotProjectLocation("Bangalore", "Mumbai"), DroneProjectLocation("Bangalore", "Mumbai")]
  {
    TrimOfTrimmed("Bangalore");
    TrimOfTrimmed("Mumbai");
    assert |Normal("Bangalore")| == 9 && |Normal("Mumbai")| == 6;
  }

  /** The whole check for a free pilot and drone both in Bangalore, for a
      Mumbai project that requires no certification: the two
      project-location conflicts, and nothing else. */
  lemma SameSiteScenario(pilot: Pilot, drone: Drone, project: string, req: Option<Requirements>)
    requires pilot.location == "Bangalore" && pilot.status == "Available"
    requires drone.location == "Bangalore" && drone.status == "Available"
    requires req.Some? && req.value.location == Some("Mumbai") && req.value.requiredCerts == []
    ensures ConflictsOf(pilot, drone, project, req)
         == [PilotProjectLocation("Bangalore", "Mumbai"), DroneProjectLocation("Bangalore", "Mumbai")]
  {
    AvailableNotMaintenance(drone);
    SameSiteAwayFromProject(pilot, drone, req);
    AvailableIsFree(pilot, drone, project);
    OnlyLocationConflicts(pilot, drone, project, req);
  }

  /** A required certification the pilot holds under the same spelling is
      not reported. */
  lemma CertHeld(name: string, cert: string)
    ensures CertConflicts(name, [cert], [cert]) == []
  {
    assert [cert][..0] == [];
    assert LowerAll([cert]) == [Lower(cert)];
  }

  lemma AvailableIsFree(pilot: Pilot, drone: Drone, project: string)
    requires pilot.status == "Available" && drone.status == "Available"
    ensures BookingConflicts(pilot, drone, project) == []
  {
    assert |Lower("Available")| == 9;
  }

  /** "DGCA" read from a text cell is the list ["DGCA"]. */
  lemma HeldDGCA()
    ensures ParseList(Text("DGCA")) == ["DGCA"]
  {
    assert Join(["DGCA"]) == "DGCA";
    SplitListJoin(["DGCA"]);
  }

  /** A project asking for DGCA and BVLOS from a pilot holding only DGCA
      reports BVLOS alone. */
  lemma CertificationGapScenario(pilot: Pilot)
    requires pilot.certifications == Text("DGCA")
    ensures CertConflicts(pilot.name, ["DGCA", "BVLOS"], ParseList(pilot.certifications))
         == [MissingCertification(pilot.name, "BVLOS")]
  {
    HeldDGCA();
    CertHeld(pilot.name, "DGCA");
    assert LowerAll(["DGCA"]) == [Lower("DGCA")];
    assert |Lower("BVLOS")| == 5;
    assert ["DGCA", "BVLOS"][..1] == ["DGCA"];
  }

  /** A free pilot holding "DGCA,BVLOS" and a free drone, both in
      Bangalore, pass a Bangalore mission that requires DGCA: nothing is
      reported. */
  lemma QualifiedPairIsClean(pilot: Pilot, drone: Drone, project: string, req: Option<Requirements>)
    requires pilot.location == "Bangalore" && pilot.status == "Available" && pilot.certifications == Text("DGCA,BVLOS")
    requires drone.location == "Bangalore" && drone.status == "Available"
    requires req.Some? && req.value.location == Some("Bangalore") && req.value.requiredCerts == ["DGCA"]
    ensures ConflictsOf(pilot, drone, project, req) == []
  {
    AvailableNotMaintenance(drone);
    assert LocationConflicts(pilot, drone, req) == [];
    assert CertConflicts(pilot.name, RequiredCerts(req), ParseList(pilot.certifications)) == [] by {
      assert Join(["DGCA", "BVLOS"]) == "DGCA,BVLOS";
      TrimOfTrimmed("DGCA");
      TrimOfTrimmed("BVLOS");
      SplitListJoin(["DGCA", "BVLOS"]);
      assert LowerAll(["DGCA", "BVLOS"])[0] == Lower("DGCA");
      assert ["DGCA"][..0] == [];
    }
    AvailableIsFree(pilot, drone, project);
  }

  /** A list-valued cell is taken as it stands: a held " DGCA" with a
      leading space does not satisfy "DGCA", while the same text in a
      comma-separated cell does. */
  lemma ListCellsAreNotStripped(name: string)
    ensures CertConflicts(name, ["DGCA"], ParseList(Items([" DGCA"]))) == [MissingCertification(name, "DGCA")]
    ensures CertConflicts(name, ["DGCA"], ParseList(Text(" DGCA"))) == []
  {
    assert CertConflicts(name, ["DGCA"], ParseList(Items([" DGCA"]))) == [MissingCertification(name, "DGCA")] by {
      assert LowerAll([" DGCA"]) == [Lower(" DGCA")];
      assert Lower("DGCA") != Lower(" DGCA") by {
        assert |Lower("DGCA")| == 4 && |Lower(" DGCA")| == 5;
      }
      assert [" DGCA"][0] == " DGCA";
    }
    assert ParseList(Text(" DGCA")) == ["DGCA"] by {
      assert Split(" DGCA") == [" DGCA"] by { SplitNoComma(" DGCA"); }
      assert Trim(" DGCA") == "DGCA" by {
        assert TrimStart(" DGCA") == TrimStart("DGCA");
        TrimOfTrimmed("DGCA");
      }
    }
    CertHeld(name, "DGCA");
  }
}
