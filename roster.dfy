/**
  The roster tables (pilots, drones, missions) as the coordinator sees them, and
  the store behind them, reduced to what the coordinator needs: three tables it
  reads and a log of the single-field writes it issues.

  A row is a dictionary in the source; here every field the coordinator reads is
  a record field. Every text field of a pilot or drone row is a string; where
  the source reads it with `row.get(key, "")`, a missing key gives "" here too.
  The pilot's name and the drone's id are also read with `.get(key)` and no
  default, which gives `None` for a missing key; the model has "" there.
  Mission fields that the coordinator reads with `mission.get(key)` and no
  default may be `None`, so they are options.
*/
module Roster {
  import opened Optional

  /** A list-valued cell: the sheet may hold either a comma-separated text or a list. */
  datatype ListValue = Text(text: string) | Items(items: seq<string>)

  /** Python's truth test on a list-valued cell: false for "" and for []. */
  predicate IsFalsy(v: ListValue)
  {
    match v
    case Text(s) => s == []
    case Items(xs) => xs == []
  }

  datatype Pilot = Pilot(
    name: string,
    location: string,
    status: string,
    certifications: ListValue,
    currentAssignment: string)

  datatype Drone = Drone(
    droneId: string,
    model: string,
    location: string,
    status: string,
    capabilities: string,
    currentAssignment: string)

  datatype Mission = Mission(
    missionId: string,
    project: Option<string>,
    location: Option<string>,
    status: string,
    requiredCerts: ListValue,
    requiredCapability: Option<string>,
    startDate: Option<string>,
    endDate: Option<string>)

  /** One single-field write the coordinator sends to the store. */
  datatype Write =
    | MissionAssignment(missionId: string, pilotName: string, droneId: string)
    | PilotStatus(pilotName: string, status: string)
    | DroneStatus(droneId: string, status: string)

  /**
    The remote roster. Reads return the tables; every write is appended to
    `log`, in the order issued. What a write does to the remote tables is the
    store's business and is not modelled, so the tables stay as they were read.
  */
  class RosterStore {
    var pilots: seq<Pilot>
    var drones: seq<Drone>
    var missions: seq<Mission>
    var log: seq<Write>

    constructor (pilots: seq<Pilot>, drones: seq<Drone>, missions: seq<Mission>)
      ensures this.pilots == pilots && this.drones == drones && this.missions == missions
      ensures log == []
    {
      this.pilots := pilots;
      this.drones := drones;
      this.missions := missions;
      log := [];
    }

    /** Records a mission's assigned pilot and drone. */
    method UpdateMissionAssignment(missionId: string, pilotName: string, droneId: string)
      modifies this`log
      ensures log == old(log) + [MissionAssignment(missionId, pilotName, droneId)]
    {
      log := log + [MissionAssignment(missionId, pilotName, droneId)];
    }

    /** Sets the status of the pilot row whose `name` is `pilotName`. */
    method UpdatePilotStatus(pilotName: string, status: string)
      modifies this`log
      ensures log == old(log) + [PilotStatus(pilotName, status)]
    {
      log := log + [PilotStatus(pilotName, status)];
    }

    /** Sets the status of the drone row whose `drone_id` is `droneId`. */
    method UpdateDroneStatus(droneId: string, status: string)
      modifies this`log
      ensures log == old(log) + [DroneStatus(droneId, status)]
    {
      log := log + [DroneStatus(droneId, status)];
    }
  }
}
