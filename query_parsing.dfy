/**
  How the coordinator reads a free-text query: the intent classifier and the
  keyword extractors for capability, required certifications and status.
  Each works on the lower-cased query and tests substrings in a fixed order;
  each is checked here against a keyword table listing those tests in
  priority order.
*/
module QueryParsing {
  import opened Optional
  import opened Strings
  import opened Keywords

  datatype Intent =
    | UrgentAssignMission
    | AssignMission
    | ShowAvailablePilots
    | ShowAvailableDrones
    | UpdatePilotStatus
    | UpdateDroneStatus
    | Unknown

  // ----- intent -----

  /** `_detect_intent`: the first keyword combination the lower-cased query
      contains decides the intent. */
  function DetectIntent(query: string): (r: Intent)
    ensures r == UrgentAssignMission <==> Contains(Lower(query), "urgent") && Contains(Lower(query), "mission")
    ensures (r == UrgentAssignMission || r == AssignMission) ==> Contains(Lower(query), "mission")
  {
    var q := Lower(query);
    if Contains(q, "urgent") && Contains(q, "mission") then UrgentAssignMission
    else if Contains(q, "assign") && Contains(q, "mission") then AssignMission
    else if Contains(q, "show") && Contains(q, "pilot") then ShowAvailablePilots
    else if Contains(q, "show") && Contains(q, "drone") then ShowAvailableDrones
    else if Contains(q, "available pilots") then ShowAvailablePilots
    else if Contains(q, "available drones") then ShowAvailableDrones
    else if Contains(q, "update") && Contains(q, "pilot") then UpdatePilotStatus
    else if Contains(q, "update") && Contains(q, "drone") then UpdateDroneStatus
    else Unknown
  }

  /** The intent rules in priority order. */
  const IntentRules: seq<Rule<Intent>> := [
    Rule(["urgent", "mission"], UrgentAssignMission),
    Rule(["assign", "mission"], AssignMission),
    Rule(["show", "pilot"], ShowAvailablePilots),
    Rule(["show", "drone"], ShowAvailableDrones),
    Rule(["available pilots"], ShowAvailablePilots),
    Rule(["available drones"], ShowAvailableDrones),
    Rule(["update", "pilot"], UpdatePilotStatus),
    Rule(["update", "drone"], UpdateDroneStatus)
  ]

  /** The intent is the tag of the first rule of the table that fires on the
      lower-cased query, and `Unknown` when none does. */
  lemma DetectIntentFollowsTable(query: string)
    ensures DetectIntent(query) == (match First(IntentRules, Lower(query))
                                    case None => Unknown
                                    case Some(intent) => intent)
  {
    var q := Lower(query);
    FiresTwo(q, "urgent", "mission", UrgentAssignMission);
    FiresTwo(q, "assign", "mission", AssignMission);
    FiresTwo(q, "show", "pilot", ShowAvailablePilots);
    FiresTwo(q, "show", "drone", ShowAvailableDrones);
    IntentTableTail(q);
  }

  /** The last four rules of the intent table. */
  lemma IntentTableTail(q: string)
    ensures FirstFrom(IntentRules, q, 4)
         == if Contains(q, "available pilots") then Some(ShowAvailablePilots)
            else if Contains(q, "available drones") then Some(ShowAvailableDrones)
            else if Contains(q, "update") && Contains(q, "pilot") then Some(UpdatePilotStatus)
            else if Contains(q, "update") && Contains(q, "drone") then Some(UpdateDroneStatus)
            else None
  {
    FiresOne(q, "available pilots", ShowAvailablePilots);
    FiresOne(q, "available drones", ShowAvailableDrones);
    FiresTwo(q, "update", "pilot", UpdatePilotStatus);
    FiresTwo(q, "update", "drone", UpdateDroneStatus);
  }

  /** No rule of the table fires exactly when the intent is `Unknown`. */
  lemma UnknownWhenNoRuleFires(query: string)
    ensures DetectIntent(query) == Unknown
        <==> forall j :: 0 <= j < |IntentRules| ==> !Fires(IntentRules[j], Lower(query))
  {
    DetectIntentFollowsTable(query);
    FirstFromSpec(IntentRules, Lower(query), 0);
  }

  /** A query that names none of "mission", "show", "available pilots",
      "available drones" and "update", in any letter case, is not
      understood. */
  lemma UnknownWhenNoKeyword(query: string)
    requires !Contains(Lower(query), "mission") && !Contains(Lower(query), "show")
    requires !Contains(Lower(query), "available pilots") && !Contains(Lower(query), "available drones")
    requires !Contains(Lower(query), "update")
    ensures DetectIntent(query) == Unknown
  {
  }

  /** A query is not understood when its lower-cased text is three runs
      joined by spaces, each run avoiding some letter of "mission", the "w"
      of "show", the "v" of "available" and some letter of "update". */
  lemma UnknownWhenLettersMissing(query: string, a: string, b: string, c: string,
                                  ma: char, mb: char, mc: char, u: char)
    requires Lower(query) == a + " " + b + " " + c
    requires ma in "mission" && mb in "mission" && mc in "mission"
    requires u in "update" && u != ' '
    requires Avoids(a, [ma, 'w', 'v', u]) && Avoids(b, [mb, 'w', 'v', u]) && Avoids(c, [mc, 'w', 'v', u])
    ensures DetectIntent(query) == Unknown
  {
    var l := a + " " + b + " " + c;
    AvoidsChar(a, [ma, 'w', 'v', u], ma);
    AvoidsChar(b, [mb, 'w', 'v', u], mb);
    AvoidsChar(c, [mc, 'w', 'v', u], mc);
    MissingChar(a, "mission", ma);
    MissingChar(b, "mission", mb);
    MissingChar(c, "mission", mc);
    NotContainsSpaced(a, b, "mission");
    NotContainsSpaced(a + " " + b, c, "mission");
    forall x | x in [ma, 'w', 'v', u] && x != ma
      ensures x !in l
    {
      AvoidsChar(a, [ma, 'w', 'v', u], x);
      AvoidsChar(b, [mb, 'w', 'v', u], x);
      AvoidsChar(c, [mc, 'w', 'v', u], x);
    }
    MissingChar(l, "show", 'w');
    MissingChar(l, "available pilots", 'v');
    MissingChar(l, "available drones", 'v');
    MissingChar(l, "update", u);
    UnknownWhenNoKeyword(query);
  }

  /** The chat page's first assignment example never says "mission", which
      both assignment intents need, and holds no keyword of the other
      intents: the classifier does not understand it. */
  lemma AssignExampleIsNotUnderstood()
    ensures DetectIntent("assign project PRJ003 in Bangalore thermal dgca") == Unknown
  {
    LowerAssignExample();
    UnknownWhenLettersMissing("assign project PRJ003 in Bangalore thermal dgca",
                              "assign project prj003 in bangalore", "thermal", "dgca", 'm', 's', 'm', 'u');
  }

  lemma LowerAssignExample()
    ensures Lower("assign project PRJ003 in Bangalore thermal dgca")
         == "assign project prj003 in bangalore" + " " + "thermal" + " " + "dgca"
  {
    var a, b, c := "assign project PRJ003 in Bangalore", "thermal", "dgca";
    assert "assign project PRJ003 in Bangalore thermal dgca" == a + " " + b + " " + c;
    LowerAppend(a, " ");
    LowerAppend(a + " ", b);
    LowerAppend(a + " " + b, " ");
    LowerAppend(a + " " + b + " ", c);
    assert Lower(a) == "assign project prj003 in bangalore";
    assert Lower(b) == b;
    assert Lower(" ") == " ";
    assert Lower(c) == c;
  }

  /** The chat page's urgent example names "urgent" but not "mission", so it
      is not understood either. */
  lemma UrgentExampleIsNotUnderstood()
    ensures DetectIntent("urgent assign project PRJ002 in Mumbai night ops") == Unknown
  {
    LowerUrgentExample();
    UnknownWhenLettersMissing("urgent assign project PRJ002 in Mumbai night ops",
                              "urgent assign project prj002 in", "mumbai", "night ops", 'm', 's', 'm', 'd');
  }

  lemma LowerUrgentExample()
    ensures Lower("urgent assign project PRJ002 in Mumbai night ops")
         == "urgent assign project prj002 in" + " " + "mumbai" + " " + "night ops"
  {
    var a, b, c := "urgent assign project PRJ002 in", "Mumbai", "night ops";
    assert "urgent assign project PRJ002 in Mumbai night ops" == a + " " + b + " " + c;
    LowerAppend(a, " ");
    LowerAppend(a + " ", b);
    LowerAppend(a + " " + b, " ");
    LowerAppend(a + " " + b + " ", c);
    assert Lower(a) == "urgent assign project prj002 in";
    assert Lower(b) == "mumbai";
    assert Lower(" ") == " ";
    assert Lower(c) == c;
  }

  /** The classifier ignores letter case. */
  lemma DetectIntentIgnoresCase(query: string)
    ensures DetectIntent(Lower(query)) == DetectIntent(query)
  {
    LowerIdempotent(query);
  }

  // ----- capability -----

  /** The capabilities `_extract_capability` looks for, in order. */
  const Capabilities: seq<string> := ["thermal", "lidar", "rgb", "camera"]

  /** One rule per capability: it fires when the capability's name occurs. */
  const CapabilityRules: seq<Rule<string>> :=
    seq(|Capabilities|, i requires 0 <= i < |Capabilities| => Rule([Capabilities[i]], Capabilities[i]))

  /** `_extract_capability`: the first listed capability the lower-cased
      query contains, if any. */
  method ExtractCapability(query: string) returns (capability: Option<string>)
    ensures capability == First(CapabilityRules, Lower(query))
  {
    var q := Lower(query);
    for i := 0 to |Capabilities|
      invariant First(CapabilityRules, q) == FirstFrom(CapabilityRules, q, i)
    {
      FiresOne(q, Capabilities[i], Capabilities[i]);
      if Contains(q, Capabilities[i]) {
        return Some(Capabilities[i]);
      }
    }
    return None;
  }

  /** A capability read from a query is a listed one that the query
      contains, and no capability listed before it occurs. */
  lemma CapabilityIsFirstListed(query: string)
    ensures var r := First(CapabilityRules, Lower(query));
      && (r == None <==> forall j :: 0 <= j < |Capabilities| ==> !Contains(Lower(query), Capabilities[j]))
      && (r.Some? ==> exists j :: 0 <= j < |Capabilities| && Capabilities[j] == r.value
                                  && Contains(Lower(query), r.value)
                                  && forall l :: 0 <= l < j ==> !Contains(Lower(query), Capabilities[l]))
  {
    FirstFromSpec(CapabilityRules, Lower(query), 0);
    forall j | 0 <= j < |Capabilities|
      ensures Fires(CapabilityRules[j], Lower(query)) <==> Contains(Lower(query), Capabilities[j])
    {
      FiresOne(Lower(query), Capabilities[j], Capabilities[j]);
    }
  }

  // ----- required certifications -----

  /** The certification keywords and the certification each one names, in order. */
  const CertRules: seq<Rule<string>> := [
    Rule(["dgca"], "DGCA"),
    Rule(["bvlos"], "BVLOS"),
    Rule(["night"], "Night Ops")
  ]

  /** `_extract_required_certs`: appends each certification whose keyword
      the lower-cased query contains, in table order. */
  method ExtractRequiredCerts(query: string) returns (certs: seq<string>)
    ensures certs == All(CertRules, Lower(query))
  {
    var q := Lower(query);
    CertTable(q);
    certs := [];
    if Contains(q, "dgca") {
      certs := certs + ["DGCA"];
    }
    if Contains(q, "bvlos") {
      certs := certs + ["BVLOS"];
    }
    if Contains(q, "night") {
      certs := certs + ["Night Ops"];
    }
  }

  /** The certifications read from a query: each named at most once, in the
      order DGCA, BVLOS, Night Ops, and each present exactly when its keyword
      occurs. */
  lemma RequiredCertsShape(query: string)
    ensures var certs := All(CertRules, Lower(query));
      && (forall i, j :: 0 <= i < j < |certs| ==> certs[i] != certs[j])
      && ("DGCA" in certs <==> Contains(Lower(query), "dgca"))
      && ("BVLOS" in certs <==> Contains(Lower(query), "bvlos"))
      && ("Night Ops" in certs <==> Contains(Lower(query), "night"))
      && (forall c :: c in certs ==> c in ["DGCA", "BVLOS", "Night Ops"])
  {
    CertTable(Lower(query));
  }

  /** The certification table spelled out. */
  lemma CertTable(q: string)
    ensures All(CertRules, q)
         == (if Contains(q, "dgca") then ["DGCA"] else [])
            + (if Contains(q, "bvlos") then ["BVLOS"] else [])
            + (if Contains(q, "night") then ["Night Ops"] else [])
  {
    FiresOne(q, "dgca", "DGCA");
    FiresOne(q, "bvlos", "BVLOS");
    FiresOne(q, "night", "Night Ops");
  }

  // ----- status -----

  /** `_extract_status`: the first status keyword the lower-cased query
      contains, as the status to write. */
  function ExtractStatus(query: string): (r: Option<string>)
    ensures r.Some? ==> r.value in ["On Leave", "Maintenance", "Available", "Busy", "Inactive", "Assigned"]
    ensures r.None? <==> !Contains(Lower(query), "on leave") && !Contains(Lower(query), "maintenance")
                         && !Contains(Lower(query), "available") && !Contains(Lower(query), "busy")
                         && !Contains(Lower(query), "inactive") && !Contains(Lower(query), "assigned")
    ensures Contains(Lower(query), "on leave") ==> r == Some("On Leave")
  {
    var q := Lower(query);
    if Contains(q, "on leave") then Some("On Leave")
    else if Contains(q, "maintenance") then Some("Maintenance")
    else if Contains(q, "available") then Some("Available")
    else if Contains(q, "busy") then Some("Busy")
    else if Contains(q, "inactive") then Some("Inactive")
    else if Contains(q, "assigned") then Some("Assigned")
    else None
  }

  /** The status keywords in priority order. */
  const StatusRules: seq<Rule<string>> := [
    Rule(["on leave"], "On Leave"),
    Rule(["maintenance"], "Maintenance"),
    Rule(["available"], "Available"),
    Rule(["busy"], "Busy"),
    Rule(["inactive"], "Inactive"),
    Rule(["assigned"], "Assigned")
  ]

  /** The status read from a query is the tag of the first status rule that
      fires on the lower-cased query. */
  lemma ExtractStatusFollowsTable(query: string)
    ensures ExtractStatus(query) == First(StatusRules, Lower(query))
  {
    var q := Lower(query);
    FiresOne(q, "on leave", "On Leave");
    FiresOne(q, "maintenance", "Maintenance");
    FiresOne(q, "available", "Available");
    FiresOne(q, "busy", "Busy");
    FiresOne(q, "inactive", "Inactive");
    FiresOne(q, "assigned", "Assigned");
  }

  /** "unavailable" contains "available", so a query asking to make a pilot
      or drone unavailable, and naming no leave or maintenance, sets it to
      "Available". */
  lemma UnavailableReadsAsAvailable(query: string)
    requires Contains(Lower(query), "unavailable")
    requires !Contains(Lower(query), "on leave") && !Contains(Lower(query), "maintenance")
    ensures ExtractStatus(query) == Some("Available")
  {
    AvailableInUnavailable();
    ContainsTransitive(Lower(query), "unavailable", "available");
  }

  lemma AvailableInUnavailable()
    ensures Contains("unavailable", "available")
  {
    var s := "un" + "available";
    assert s[2..11] == "available";
    ContainsAt(s, "available", 2);
    assert s == "unavailable";
  }
}
