/**
  The coordinator agent: it reads a query, classifies it, and either lists
  available pilots or drones, updates one status field, or assigns a pilot
  and a drone to a mission after the validator has found no conflict.

  The regular-expression extractors (location, mission id, pilot name, drone
  id) are not modelled: their results arrive as an `Extraction`. The
  matching engine is an oracle the agent is built with; nothing is assumed
  about how it ranks candidates.
*/
module Coordinator {
  import opened Optional
  import opened Strings
  import opened Sequences
  import opened Roster
  import opened Keywords
  import opened QueryParsing
  import Normalisation
  import ConflictDetection

  // ----- availability filters -----

  /** Python's truth test on an optional text: present and non-empty. */
  predicate Given(s: Option<string>)
  {
    s.Some? && s.value != ""
  }

  /** The tests `_show_available_pilots` applies to one pilot row. */
  predicate PilotQualifies(p: Pilot, location: Option<string>, required: seq<string>)
  {
    && Lower(p.status) in ["available", "active", "free"]
    && (Given(location) ==> Contains(Lower(p.location), Lower(location.value)))
    && (required != [] ==> Normalisation.CoversAll(required, Normalisation.ParseList(p.certifications)))
  }

  /** The pilots that qualify, in roster order. */
  function AvailablePilots(pilots: seq<Pilot>, location: Option<string>, required: seq<string>): seq<Pilot>
  {
    if pilots == [] then []
    else
      var p := pilots[|pilots| - 1];
      AvailablePilots(pilots[..|pilots| - 1], location, required)
      + (if PilotQualifies(p, location, required) then [p] else [])
  }

  /** Exactly the qualifying pilots are listed. */
  lemma {:induction false} AvailablePilotsMembers(pilots: seq<Pilot>, location: Option<string>, required: seq<string>)
    ensures forall p :: p in AvailablePilots(pilots, location, required)
                        <==> p in pilots && PilotQualifies(p, location, required)
  {
    if pilots != [] {
      var init := pilots[..|pilots| - 1];
      AvailablePilotsMembers(init, location, required);
      assert pilots == init + [pilots[|pilots| - 1]];
    }
  }

  /** The listed pilots keep their input order. */
  lemma {:induction false} AvailablePilotsInOrder(pilots: seq<Pilot>, location: Option<string>, required: seq<string>)
    ensures Subsequence(AvailablePilots(pilots, location, required), pilots)
  {
    if pilots != [] {
      var init := pilots[..|pilots| - 1];
      var last := pilots[|pilots| - 1];
      AvailablePilotsInOrder(init, location, required);
      assert pilots == init + [last];
      if PilotQualifies(last, location, required) {
        assert AvailablePilots(pilots, location, required) == AvailablePilots(init, location, required) + [last];
        SubsequenceKeep(AvailablePilots(init, location, required), init, last);
      } else {
        assert AvailablePilots(pilots, location, required) == AvailablePilots(init, location, required);
        SubsequenceDrop(AvailablePilots(init, location, required), init, last);
      }
    }
  }

  /** `_show_available_pilots`: keeps, in order, every pilot whose status is
      free, whose location contains the requested one and who holds every
      certification the query names. */
  method ShowPilots(query: string, location: Option<string>, pilots: seq<Pilot>)
    returns (available: seq<Pilot>)
    ensures available == AvailablePilots(pilots, location, All(CertRules, Lower(query)))
  {
    var requiredCerts := ExtractRequiredCerts(query);
    available := [];
    for i := 0 to |pilots|
      invariant available == AvailablePilots(pilots[..i], location, requiredCerts)
    {
      var p := pilots[i];
      assert pilots[..i + 1][..i] == pilots[..i];
      var status := Lower(p.status);
      var loc := Lower(p.location);
      var certs := Normalisation.ParseList(p.certifications);
      if status !in ["available", "active", "free"] {
        continue;
      }
      if Given(location) && !Contains(loc, Lower(location.value)) {
        continue;
      }
      if requiredCerts != [] {
        var ok := Normalisation.HasAll(requiredCerts, certs);
        if !ok {
          continue;
        }
      }
      available := available + [p];
    }
    assert pilots[..|pilots|] == pilots;
  }

  /** The tests `_show_available_drones` applies to one drone row. */
  predicate DroneQualifies(d: Drone, location: Option<string>, capability: Option<string>)
  {
    && Lower(d.status) in ["available", "ready", "free"]
    && !Contains(Lower(d.status), "maintenance")
    && (Given(location) ==> Contains(Lower(d.location), Lower(location.value)))
    && (Given(capability) ==> Contains(Lower(d.capabilities), Lower(capability.value)))
  }

  /** The drones that qualify, in fleet order. */
  function AvailableDrones(drones: seq<Drone>, location: Option<string>, capability: Option<string>): seq<Drone>
  {
    if drones == [] then []
    else
      var d := drones[|drones| - 1];
      AvailableDrones(drones[..|drones| - 1], location, capability)
      + (if DroneQualifies(d, location, capability) then [d] else [])
  }

  /** Exactly the qualifying drones are listed. */
  lemma {:induction false} AvailableDronesMembers(drones: seq<Drone>, location: Option<string>, capability: Option<string>)
    ensures forall d :: d in AvailableDrones(drones, location, capability)
                        <==> d in drones && DroneQualifies(d, location, capability)
  {
    if drones != [] {
      var init := drones[..|drones| - 1];
      AvailableDronesMembers(init, location, capability);
      assert drones == init + [drones[|drones| - 1]];
    }
  }

  /** The listed drones keep their input order. */
  lemma {:induction false} AvailableDronesInOrder(drones: seq<Drone>, location: Option<string>, capability: Option<string>)
    ensures Subsequence(AvailableDrones(drones, location, capability), drones)
  {
    if drones != [] {
      var init := drones[..|drones| - 1];
      var last := drones[|drones| - 1];
      AvailableDronesInOrder(init, location, capability);
      assert drones == init + [last];
      if DroneQualifies(last, location, capability) {
        assert AvailableDrones(drones, location, capability) == AvailableDrones(init, location, capability) + [last];
        SubsequenceKeep(AvailableDrones(init, location, capability), init, last);
      } else {
        assert AvailableDrones(drones, location, capability) == AvailableDrones(init, location, capability);
        SubsequenceDrop(AvailableDrones(init, location, capability), init, last);
      }
    }
  }

  /** The drone filter's maintenance test never removes a drone the status
      test kept: none of "available", "ready", "free" contains "maintenance". */
  lemma MaintenanceTestIsRedundant(status: string)
    requires Lower(status) in ["available", "ready", "free"]
    ensures !Contains(Lower(status), "maintenance")
  {
    ContainsLength(Lower(status), "maintenance");
  }

  /** `_show_available_drones`: keeps, in order, every drone whose status is
      ready, that is not under maintenance, and whose location and
      capabilities contain the requested ones. */
  method ShowDrones(query: string, location: Option<string>, drones: seq<Drone>)
    returns (available: seq<Drone>)
    ensures available == AvailableDrones(drones, location, First(CapabilityRules, Lower(query)))
  {
    var capability := ExtractCapability(query);
    available := [];
    for i := 0 to |drones|
      invariant available == AvailableDrones(drones[..i], location, capability)
    {
      var d := drones[i];
      assert drones[..i + 1][..i] == drones[..i];
      var status := Lower(d.status);
      var caps := Lower(d.capabilities);
      var loc := Lower(d.location);
      if status !in ["available", "ready", "free"] {
        continue;
      }
      if Contains(status, "maintenance") {
        continue;
      }
      if Given(location) && !Contains(loc, Lower(location.value)) {
        continue;
      }
      if Given(capability) && !Contains(caps, Lower(capability.value)) {
        continue;
      }
      available := available + [d];
    }
    assert drones[..|drones|] == drones;
  }

  // ----- status updates -----

  datatype UpdateOutcome =
    | MissingArguments
    | NotFound(key: string)
    | Updated(write: Write)

  /** Some roster pilot has this name, ignoring letter case. */
  predicate PilotNamed(pilots: seq<Pilot>, name: string)
  {
    exists p :: p in pilots && Lower(p.name) == Lower(name)
  }

  /** Some fleet drone has this id, ignoring letter case. */
  predicate DroneNamed(drones: seq<Drone>, droneId: string)
  {
    exists d :: d in drones && Lower(d.droneId) == Lower(droneId)
  }

  /** What `_update_pilot_status` decides. */
  function PilotUpdate(pilots: seq<Pilot>, name: Option<string>, status: Option<string>): (r: UpdateOutcome)
    ensures r == MissingArguments <==> !Given(name) || !Given(status)
    ensures r.NotFound? <==> Given(name) && Given(status) && !PilotNamed(pilots, name.value)
    ensures r.NotFound? ==> name.Some? && r.key == name.value
    ensures r.Updated? ==> name.Some? && status.Some? && r.write == PilotStatus(name.value, status.value)
  {
    if !Given(name) || !Given(status) then MissingArguments
    else if !PilotNamed(pilots, name.value) then NotFound(name.value)
    else Updated(PilotStatus(name.value, status.value))
  }

  /** What `_update_drone_status` decides. */
  function DroneUpdate(drones: seq<Drone>, droneId: Option<string>, status: Option<string>): (r: UpdateOutcome)
    ensures r == MissingArguments <==> !Given(droneId) || !Given(status)
    ensures r.NotFound? <==> Given(droneId) && Given(status) && !DroneNamed(drones, droneId.value)
    ensures r.NotFound? ==> droneId.Some? && r.key == droneId.value
    ensures r.Updated? ==> droneId.Some? && status.Some? && r.write == DroneStatus(droneId.value, status.value)
  {
    if !Given(droneId) || !Given(status) then MissingArguments
    else if !DroneNamed(drones, droneId.value) then NotFound(droneId.value)
    else Updated(DroneStatus(droneId.value, status.value))
  }

  /** The writes an update outcome issues. */
  function UpdateWrites(outcome: UpdateOutcome): seq<Write>
  {
    if outcome.Updated? then [outcome.write] else []
  }

  /** A pilot status is written exactly when a name and a status were read
      and a roster pilot has that name; the write carries them as read. */
  lemma PilotUpdateGuard(pilots: seq<Pilot>, name: Option<string>, status: Option<string>)
    ensures UpdateWrites(PilotUpdate(pilots, name, status)) != []
        <==> Given(name) && Given(status) && PilotNamed(pilots, name.value)
    ensures UpdateWrites(PilotUpdate(pilots, name, status)) != [] ==>
      UpdateWrites(PilotUpdate(pilots, name, status)) == [PilotStatus(name.value, status.value)]
    ensures PilotUpdate(pilots, name, status).NotFound? ==>
      forall p :: p in pilots ==> Lower(p.name) != Lower(name.value)
  {
  }

  /** A drone status is written exactly when an id and a status were read
      and a fleet drone has that id; the write carries them as read. */
  lemma DroneUpdateGuard(drones: seq<Drone>, droneId: Option<string>, status: Option<string>)
    ensures UpdateWrites(DroneUpdate(drones, droneId, status)) != []
        <==> Given(droneId) && Given(status) && DroneNamed(drones, droneId.value)
    ensures UpdateWrites(DroneUpdate(drones, droneId, status)) != [] ==>
      UpdateWrites(DroneUpdate(drones, droneId, status)) == [DroneStatus(droneId.value, status.value)]
    ensures DroneUpdate(drones, droneId, status).NotFound? ==>
      forall d :: d in drones ==> Lower(d.droneId) != Lower(droneId.value)
  {
  }

  // ----- mission assignment -----

  /** A pilot and drone the matching engine proposes, with its reason. */
  datatype Match = Match(pilot: Pilot, drone: Drone, reason: string)

  /** Everything the coordinator hands to the matching engine. */
  datatype MatchRequest = MatchRequest(
    pilots: seq<Pilot>,
    drones: seq<Drone>,
    location: Option<string>,
    urgent: bool,
    requiredCerts: seq<string>,
    requiredCapability: Option<string>)

  datatype AssignOutcome =
    | MissingMissionId
    | MissionNotFound(missionId: string)
    | AlreadyResolved(missionId: string, status: string)
    | NoMatch(missionId: string)
    | Conflicted(missionId: string, conflicts: seq<ConflictDetection.Conflict>, found: Match)
    | Assigned(missionId: string, project: string, found: Match)

  /** The mission row a requested id names: its stripped id equals the
      requested one, ignoring letter case. */
  predicate Names(m: Mission, missionId: string)
  {
    Lower(Trim(m.missionId)) == Lower(missionId)
  }

  /** The first mission row the id names. */
  function FindMission(missions: seq<Mission>, missionId: string): Option<Mission>
  {
    if missions == [] then None
    else if Names(missions[0], missionId) then Some(missions[0])
    else FindMission(missions[1..], missionId)
  }

  /** The lookup finds nothing exactly when no row is named, and otherwise
      the first named row. */
  lemma {:induction false} FindMissionSpec(missions: seq<Mission>, missionId: string)
    ensures FindMission(missions, missionId) == None <==> forall m :: m in missions ==> !Names(m, missionId)
    ensures FindMission(missions, missionId).Some? ==>
      exists i :: 0 <= i < |missions| && missions[i] == FindMission(missions, missionId).value
                  && Names(missions[i], missionId)
                  && forall j :: 0 <= j < i ==> !Names(missions[j], missionId)
  {
    if missions != [] && !Names(missions[0], missionId) {
      var rest := missions[1..];
      FindMissionSpec(rest, missionId);
      assert FindMission(missions, missionId) == FindMission(rest, missionId);
      assert missions == [missions[0]] + rest;
      if FindMission(rest, missionId).Some? {
        var i :| 0 <= i < |rest| && rest[i] == FindMission(rest, missionId).value
                 && Names(rest[i], missionId)
                 && forall j :: 0 <= j < i ==> !Names(rest[j], missionId);
        assert missions[i + 1] == rest[i];
        forall j | 0 <= j < i + 1
          ensures !Names(missions[j], missionId)
        {
          if j > 0 {
            assert missions[j] == rest[j - 1];
          }
        }
      }
    }
  }

  /** The lookup loop of `_assign_mission`: scans the missions in order and
      stops at the first row the id names. */
  method LookupMission(missions: seq<Mission>, missionId: string) returns (mission: Option<Mission>)
    ensures mission == FindMission(missions, missionId)
  {
    mission := None;
    var i := 0;
    while i < |missions|
      invariant 0 <= i <= |missions|
      invariant FindMission(missions, missionId) == FindMission(missions[i..], missionId)
    {
      if Lower(Trim(missions[i].missionId)) == Lower(missionId) {
        return Some(missions[i]);
      }
      assert missions[i..][1..] == missions[i + 1..];
      i := i + 1;
    }
  }

  /** `mission.get("project") or mission_id`. */
  function ProjectName(m: Mission, missionId: string): string
  {
    if Given(m.project) then m.project.value else missionId
  }

  /** The requirements the validator receives for a mission. */
  function MissionRequirements(m: Mission): ConflictDetection.Requirements
  {
    ConflictDetection.Requirements(m.location, m.startDate, m.endDate, Normalisation.ParseList(m.requiredCerts))
  }

  /** The request the matching engine receives for a mission. */
  function MatchRequestFor(m: Mission, pilots: seq<Pilot>, drones: seq<Drone>, urgent: bool): MatchRequest
  {
    MatchRequest(pilots, drones, m.location, urgent, Normalisation.ParseList(m.requiredCerts), m.requiredCapability)
  }

  /** What `_assign_mission` decides, given the engine's answer. */
  function AssignDecision(missions: seq<Mission>, missionId: Option<string>, pilots: seq<Pilot>,
                          drones: seq<Drone>, urgent: bool, engine: MatchRequest -> Option<Match>): AssignOutcome
  {
    if !Given(missionId) then MissingMissionId
    else
      var id := missionId.value;
      match FindMission(missions, id)
      case None => MissionNotFound(id)
      case Some(m) =>
        if Lower(m.status) in ["assigned", "completed"] then AlreadyResolved(id, Lower(m.status))
        else
          match engine(MatchRequestFor(m, pilots, drones, urgent))
          case None => NoMatch(id)
          case Some(found) =>
            var conflicts := ConflictDetection.ConflictsOf(found.pilot, found.drone, ProjectName(m, id),
                                                           Some(MissionRequirements(m)));
            if conflicts != [] then Conflicted(id, conflicts, found)
            else Assigned(id, ProjectName(m, id), found)
  }

  /** The deciding steps of `_assign_mission`: looks the mission up,
      refuses a resolved one, asks the engine for a pair and runs the
      validator on it. */
  method DecideAssignment(missions: seq<Mission>, missionId: Option<string>, pilots: seq<Pilot>,
                          drones: seq<Drone>, urgent: bool, engine: MatchRequest -> Option<Match>)
    returns (outcome: AssignOutcome)
    ensures outcome == AssignDecision(missions, missionId, pilots, drones, urgent, engine)
  {
    if !Given(missionId) {
      return MissingMissionId;
    }
    var id := missionId.value;

    var mission := LookupMission(missions, id);
    if mission.None? {
      return MissionNotFound(id);
    }
    var m := mission.value;

    var missionStatus := Lower(m.status);
    if missionStatus in ["assigned", "completed"] {
      return AlreadyResolved(id, missionStatus);
    }

    var projectName := ProjectName(m, id);
    var found := engine(MatchRequestFor(m, pilots, drones, urgent));
    if found.None? {
      return NoMatch(id);
    }

    var conflicts := ConflictDetection.CheckConflicts(found.value.pilot, found.value.drone, projectName,
                                                      Some(MissionRequirements(m)));
    if conflicts != [] {
      return Conflicted(id, conflicts, found.value);
    }
    return Assigned(id, projectName, found.value);
  }

  /** The status a successful assignment gives the pilot and the drone. */
  function AssignedStatus(missionId: string): string
  {
    "Assigned(" + missionId + ")"
  }

  /** The writes an assignment outcome issues, in order. */
  function AssignWrites(outcome: AssignOutcome): seq<Write>
  {
    match outcome
    case Assigned(id, _, found) =>
      [MissionAssignment(id, found.pilot.name, found.drone.droneId),
       PilotStatus(found.pilot.name, AssignedStatus(id)),
       DroneStatus(found.drone.droneId, AssignedStatus(id))]
    case _ => []
  }

  /** An assignment writes only when every step succeeded: an id was read,
      a mission row is named by it and is neither assigned nor completed,
      the engine proposed a pair, and the validator found no conflict for
      it; the three writes then record the pair against the mission and
      mark both as assigned to it. */
  lemma AssignWritesOnlyOnSuccess(missions: seq<Mission>, missionId: Option<string>, pilots: seq<Pilot>,
                                  drones: seq<Drone>, urgent: bool, engine: MatchRequest -> Option<Match>)
    ensures var outcome := AssignDecision(missions, missionId, pilots, drones, urgent, engine);
      AssignWrites(outcome) != [] <==>
        && Given(missionId)
        && FindMission(missions, missionId.value).Some?
        && Lower(FindMission(missions, missionId.value).value.status) !in ["assigned", "completed"]
        && engine(MatchRequestFor(FindMission(missions, missionId.value).value, pilots, drones, urgent)).Some?
        && var m := FindMission(missions, missionId.value).value;
           var found := engine(MatchRequestFor(m, pilots, drones, urgent)).value;
           ConflictDetection.ConflictsOf(found.pilot, found.drone, ProjectName(m, missionId.value),
                                         Some(MissionRequirements(m))) == []
    ensures var outcome := AssignDecision(missions, missionId, pilots, drones, urgent, engine);
      outcome.Assigned? ==>
        && outcome.missionId == missionId.value
        && AssignWrites(outcome) == [MissionAssignment(outcome.missionId, outcome.found.pilot.name, outcome.found.drone.droneId),
                                     PilotStatus(outcome.found.pilot.name, AssignedStatus(outcome.missionId)),
                                     DroneStatus(outcome.found.drone.droneId, AssignedStatus(outcome.missionId))]
  {
  }

  /** A conflict outcome carries the validator's non-empty findings for the
      proposed pair, and the project falls back to the mission id. */
  lemma ConflictOutcome(missions: seq<Mission>, missionId: Option<string>, pilots: seq<Pilot>,
                        drones: seq<Drone>, urgent: bool, engine: MatchRequest -> Option<Match>)
    ensures var outcome := AssignDecision(missions, missionId, pilots, drones, urgent, engine);
      outcome.Conflicted? ==>
        && outcome.conflicts != []
        && var m := FindMission(missions, outcome.missionId).value;
           outcome.conflicts == ConflictDetection.ConflictsOf(outcome.found.pilot, outcome.found.drone,
                                                              ProjectName(m, outcome.missionId),
                                                              Some(MissionRequirements(m)))
  {
    var outcome := AssignDecision(missions, missionId, pilots, drones, urgent, engine);
    if outcome.Conflicted? {
      var id := missionId.value;
      var m := FindMission(missions, id).value;
      var found := engine(MatchRequestFor(m, pilots, drones, urgent)).value;
      assert outcome == Conflicted(id, ConflictDetection.ConflictsOf(found.pilot, found.drone, ProjectName(m, id),
                                                                     Some(MissionRequirements(m))), found);
    }
  }

  /** A successful assignment names the mission's project, or the mission id
      when the project cell is missing or empty; either way the name is not
      empty. */
  lemma ProjectFallsBackToMissionId(missions: seq<Mission>, missionId: Option<string>, pilots: seq<Pilot>,
                                    drones: seq<Drone>, urgent: bool, engine: MatchRequest -> Option<Match>)
    ensures var outcome := AssignDecision(missions, missionId, pilots, drones, urgent, engine);
      outcome.Assigned? ==>
        && outcome.project != ""
        && var m := FindMission(missions, outcome.missionId).value;
           outcome.project == (if m.project.Some? && m.project.value != "" then m.project.value
                               else outcome.missionId)
  {
    var outcome := AssignDecision(missions, missionId, pilots, drones, urgent, engine);
    if outcome.Assigned? {
      var id := missionId.value;
      var m := FindMission(missions, id).value;
      var found := engine(MatchRequestFor(m, pilots, drones, urgent)).value;
      assert outcome == Assigned(id, ProjectName(m, id), found);
    }
  }

  /** A mission already assigned or completed, in any letter case, is never
      reassigned, whatever the engine would propose. */
  lemma ResolvedMissionIsKept(missions: seq<Mission>, missionId: string, pilots: seq<Pilot>,
                              drones: seq<Drone>, urgent: bool, engine: MatchRequest -> Option<Match>)
    requires missionId != ""
    requires FindMission(missions, missionId).Some?
    requires Lower(FindMission(missions, missionId).value.status) in ["assigned", "completed"]
    ensures AssignDecision(missions, Some(missionId), pilots, drones, urgent, engine).AlreadyResolved?
    ensures AssignWrites(AssignDecision(missions, Some(missionId), pilots, drones, urgent, engine)) == []
  {
  }

  /** The status written on assignment never reads as engaged to the
      validator, so a pilot that has just been assigned is not reported as
      double-booked on a later check. */
  lemma AssignedPilotIsNotDoubleBooked(missionId: string, pilot: Pilot, drone: Drone, project: string,
                                       req: Option<ConflictDetection.Requirements>)
    requires pilot.status == AssignedStatus(missionId)
    ensures ConflictDetection.OfRule(ConflictDetection.ConflictsOf(pilot, drone, project, req), 5) == []
  {
    ConflictDetection.AssignedWithIdIsNotEngaged(pilot, drone, project, req, missionId);
  }

  /** Likewise for the drone: the status written on assignment never
      triggers the drone double-booking rule. */
  lemma AssignedDroneIsNotDoubleBooked(missionId: string, pilot: Pilot, drone: Drone, project: string,
                                       req: Option<ConflictDetection.Requirements>)
    requires drone.status == AssignedStatus(missionId)
    ensures ConflictDetection.OfRule(ConflictDetection.ConflictsOf(pilot, drone, project, req), 6) == []
  {
    assert !ConflictDetection.IsEngaged(drone.status) by {
      ConflictDetection.LongStatusIsNotEngaged(drone.status);
    }
    ConflictDetection.BookingRules(pilot, drone, project, req);
  }

  // ----- the agent -----

  /** The results of the regular-expression extractors on a query. */
  datatype Extraction = Extraction(
    location: Option<string>,
    missionId: Option<string>,
    pilotName: Option<string>,
    droneId: Option<string>)

  datatype Response =
    | PilotList(pilots: seq<Pilot>)
    | DroneList(drones: seq<Drone>)
    | StatusUpdate(update: UpdateOutcome)
    | Assignment(outcome: AssignOutcome)
    | NotUnderstood

  class CoordinatorAgent {
    const store: RosterStore
    /** The matching engine's `find_best_match`. */
    const findBestMatch: MatchRequest -> Option<Match>

    constructor (store: RosterStore, findBestMatch: MatchRequest -> Option<Match>)
      ensures this.store == store && this.findBestMatch == findBestMatch
    {
      this.store := store;
      this.findBestMatch := findBestMatch;
    }

    /** `_update_pilot_status`: writes the status read from the query for
        the named pilot, after checking both were read and the pilot exists. */
    method UpdatePilotStatus(query: string, pilotName: Option<string>, pilots: seq<Pilot>)
      returns (outcome: UpdateOutcome)
      modifies store`log
      ensures outcome == PilotUpdate(pilots, pilotName, ExtractStatus(query))
      ensures store.log == old(store.log) + UpdateWrites(outcome)
    {
      var status := ExtractStatus(query);
      if !Given(pilotName) || !Given(status) {
        return MissingArguments;
      }
      var known := exists p | p in pilots :: Lower(p.name) == Lower(pilotName.value);
      if !known {
        return NotFound(pilotName.value);
      }
      store.UpdatePilotStatus(pilotName.value, status.value);
      return Updated(PilotStatus(pilotName.value, status.value));
    }

    /** `_update_drone_status`: writes the status read from the query for
        the named drone, after checking both were read and the drone exists. */
    method UpdateDroneStatus(query: string, droneId: Option<string>, drones: seq<Drone>)
      returns (outcome: UpdateOutcome)
      modifies store`log
      ensures outcome == DroneUpdate(drones, droneId, ExtractStatus(query))
      ensures store.log == old(store.log) + UpdateWrites(outcome)
    {
      var status := ExtractStatus(query);
      if !Given(droneId) || !Given(status) {
        return MissingArguments;
      }
      var known := exists d | d in drones :: Lower(d.droneId) == Lower(droneId.value);
      if !known {
        return NotFound(droneId.value);
      }
      store.UpdateDroneStatus(droneId.value, status.value);
      return Updated(DroneStatus(droneId.value, status.value));
    }

    /** `_assign_mission`: decides as `DecideAssignment` does with this
        agent's engine and the store's missions, and on a clean check writes
        the assignment and both statuses, in that order. */
    method AssignMission(missionId: Option<string>, pilots: seq<Pilot>, drones: seq<Drone>, urgent: bool)
      returns (outcome: AssignOutcome)
      modifies store`log
      ensures outcome == AssignDecision(store.missions, missionId, pilots, drones, urgent, findBestMatch)
      ensures store.log == old(store.log) + AssignWrites(outcome)
    {
      outcome := DecideAssignment(store.missions, missionId, pilots, drones, urgent, findBestMatch);
      WriteAssignment(outcome);
    }

    /** The writes of a successful assignment: the pair against the mission,
        then the pilot's and the drone's status. Other outcomes write nothing. */
    method WriteAssignment(outcome: AssignOutcome)
      modifies store`log
      ensures store.log == old(store.log) + AssignWrites(outcome)
    {
      if outcome.Assigned? {
        var id := outcome.missionId;
        var found := outcome.found;
        store.UpdateMissionAssignment(id, found.pilot.name, found.drone.droneId);
        store.UpdatePilotStatus(found.pilot.name, AssignedStatus(id));
        store.UpdateDroneStatus(found.drone.droneId, AssignedStatus(id));
      }
    }

    /** `handle_query`: strips the query, reads pilots and drones, and
        dispatches on the detected intent. */
    method HandleQuery(query: string, extracted: Extraction) returns (response: Response)
      modifies store`log
      ensures var q := Trim(query);
        match DetectIntent(q)
        case ShowAvailablePilots =>
          response == PilotList(AvailablePilots(store.pilots, extracted.location, All(CertRules, Lower(q))))
          && store.log == old(store.log)
        case ShowAvailableDrones =>
          response == DroneList(AvailableDrones(store.drones, extracted.location, First(CapabilityRules, Lower(q))))
          && store.log == old(store.log)
        case UpdatePilotStatus =>
          response == StatusUpdate(PilotUpdate(store.pilots, extracted.pilotName, ExtractStatus(q)))
          && store.log == old(store.log) + UpdateWrites(response.update)
        case UpdateDroneStatus =>
          response == StatusUpdate(DroneUpdate(store.drones, extracted.droneId, ExtractStatus(q)))
          && store.log == old(store.log) + UpdateWrites(response.update)
        case AssignMission =>
          response == Assignment(AssignDecision(store.missions, extracted.missionId, store.pilots, store.drones,
                                                false, findBestMatch))
          && store.log == old(store.log) + AssignWrites(response.outcome)
        case UrgentAssignMission =>
          response == Assignment(AssignDecision(store.missions, extracted.missionId, store.pilots, store.drones,
                                                true, findBestMatch))
          && store.log == old(store.log) + AssignWrites(response.outcome)
        case Unknown =>
          response == NotUnderstood && store.log == old(store.log)
    {
      var q := Trim(query);
      var pilots := store.pilots;
      var drones := store.drones;
      var intent := DetectIntent(q);
      match intent {
        case ShowAvailablePilots =>
          var list := ShowPilots(q, extracted.location, pilots);
          response := PilotList(list);
        case ShowAvailableDrones =>
          var list := ShowDrones(q, extracted.location, drones);
          response := DroneList(list);
        case UpdatePilotStatus =>
          var outcome := UpdatePilotStatus(q, extracted.pilotName, pilots);
          response := StatusUpdate(outcome);
        case UpdateDroneStatus =>
          var outcome := UpdateDroneStatus(q, extracted.droneId, drones);
          response := StatusUpdate(outcome);
        case AssignMission =>
          var outcome := AssignMission(extracted.missionId, pilots, drones, false);
          response := Assignment(outcome);
        case UrgentAssignMission =>
          var outcome := AssignMission(extracted.missionId, pilots, drones, true);
          response := Assignment(outcome);
        case Unknown =>
          response := NotUnderstood;
      }
    }
  }
}
