/**
 * The Home Assistant tools of ai/app/mcp_server.py: entity lookup and the batched
 * turn-on / turn-off actions. The REST client (`hass_api.make_request`) is an oracle:
 * `connected` says whether the client exists, a `StatesReply` is what `GET states`
 * gave, and a `PostOracle` answers the k-th service request of one tool call.
 */
module McpServer {
  import opened Wrappers
  import opened Text

  const NotConnectedError: string := "Error: HA API not connected"
  const NoResults: string := "검색 결과가 없습니다."
  const MaxResults: nat := 15
  const AllowedDomains: seq<string> := ["light", "switch", "media_player", "climate", "fan", "cover"]

  /** One element of the `GET states` array. Absent `friendly_name` and `state` are `None`;
      an absent `entity_id` is the empty string, as `state.get("entity_id", "")` makes it. */
  datatype EntityState = EntityState(entityId: string, friendlyName: Option<string>, state: Option<string>)

  datatype StatesReply = States(states: seq<EntityState>) | RequestFailed(message: string)

  datatype ServiceReply = Done | ServiceFailed(message: string)

  datatype Service = TurnOn | TurnOff

  /** One `POST` to the Home Assistant API: the endpoint and the `entity_id` of its body. */
  datatype Request = Request(endpoint: string, entityId: string)

  /** The reply to the k-th request made during one tool call. */
  type PostOracle = (nat, Request) -> ServiceReply

  // ---------------------------------------------------------------- find_entity_by_name

  /** `entity_id.split('.')[0]`: the text before the first '.', or all of it. */
  function Domain(entityId: string): (d: string)
    ensures |d| <= |entityId| && entityId[..|d|] == d
    ensures '.' !in d
    ensures d == entityId || entityId[|d|] == '.'
    decreases |entityId|
  {
    if entityId == [] || entityId[0] == '.' then ""
    else [entityId[0]] + Domain(entityId[1..])
  }

  /** The domain of `d + "." + rest` is `d` when `d` has no '.'. */
  lemma {:induction false} DomainBeforeDot(d: string, rest: string)
    requires '.' !in d
    ensures Domain(d + "." + rest) == d
    decreases |d|
  {
    if d != [] {
      assert (d + "." + rest)[1..] == d[1..] + "." + rest;
      DomainBeforeDot(d[1..], rest);
      assert [d[0]] + d[1..] == d;
    } else {
      assert (d + "." + rest)[0] == '.';
    }
  }

  predicate InAllowedDomain(e: EntityState) {
    Domain(e.entityId) in AllowedDomains
  }

  /** Lower-cased with spaces removed, as both the search term and the friendly name are. */
  function Normalize(s: string): string {
    RemoveSpaces(ToLower(s))
  }

  /** The search term occurs in the normalised friendly name or in the lower-cased id. */
  predicate MatchesTerm(searchTerm: string, e: EntityState) {
    var needle := Normalize(searchTerm);
    IsSubstring(needle, Normalize(e.friendlyName.GetOr(""))) || IsSubstring(needle, ToLower(e.entityId))
  }

  predicate Selected(searchTerm: string, e: EntityState) {
    InAllowedDomain(e) && MatchesTerm(searchTerm, e)
  }

  /** The entities that end up in `matches`, in the order of the state list. */
  function Matching(searchTerm: string, states: seq<EntityState>): (r: seq<EntityState>)
    ensures |r| <= |states|
    decreases |states|
  {
    if states == [] then []
    else
      var last := states[|states| - 1];
      Matching(searchTerm, states[..|states| - 1]) + (if Selected(searchTerm, last) then [last] else [])
  }

  /** Python prints a missing value as `None`. */
  function Show(v: Option<string>): string {
    v.GetOr("None")
  }

  function EntityLine(e: EntityState): string {
    "- ID: " + e.entityId + " (이름: " + Show(e.friendlyName) + ", 상태: " + Show(e.state) + ")"
  }

  function Lines(es: seq<EntityState>): (r: seq<string>)
    ensures |r| == |es|
  {
    seq(|es|, i requires 0 <= i < |es| => EntityLine(es[i]))
  }

  lemma LinesSnoc(es: seq<EntityState>, e: EntityState)
    ensures Lines(es + [e]) == Lines(es) + [EntityLine(e)]
  {
    var l, r := Lines(es + [e]), Lines(es) + [EntityLine(e)];
    assert |l| == |r|;
    forall i | 0 <= i < |l| ensures l[i] == r[i] {
      if i < |es| { assert (es + [e])[i] == es[i]; }
    }
  }

  /** `xs[:n]`. */
  function Take<T>(xs: seq<T>, n: nat): (r: seq<T>)
    ensures |r| == if |xs| <= n then |xs| else n
  {
    if |xs| <= n then xs else xs[..n]
  }

  /** What `find_entity_by_name` returns. */
  function FindResult(connected: bool, reply: StatesReply, searchTerm: string): string {
    if !connected then NotConnectedError
    else match reply
      case RequestFailed(message) => "Error: " + message
      case States(states) =>
        var found := Lines(Matching(searchTerm, states));
        if found == [] then NoResults else JoinLines(Take(found, MaxResults))
  }

  method FindEntityByName(connected: bool, reply: StatesReply, searchTerm: string) returns (out: string)
    ensures out == FindResult(connected, reply, searchTerm)
  {
    if !connected {
      return NotConnectedError;
    }
    match reply
    case RequestFailed(message) =>
      out := "Error: " + message;
    case States(states) =>
      var searchLower := Normalize(searchTerm);
      var matches: seq<string> := [];
      for i := 0 to |states|
        invariant matches == Lines(Matching(searchTerm, states[..i]))
      {
        ghost var before := Matching(searchTerm, states[..i]);
        assert states[..i + 1][..i] == states[..i];
        var state := states[i];
        var friendly := Normalize(state.friendlyName.GetOr(""));
        var domain := Domain(state.entityId);
        if domain !in AllowedDomains {
          assert Matching(searchTerm, states[..i + 1]) == before;
          continue;
        }
        if IsSubstring(searchLower, friendly) || IsSubstring(searchLower, ToLower(state.entityId)) {
          assert Matching(searchTerm, states[..i + 1]) == before + [state];
          LinesSnoc(before, state);
          matches := matches + [EntityLine(state)];
        } else {
          assert Matching(searchTerm, states[..i + 1]) == before;
        }
      }
      assert states[..|states|] == states;
      if matches == [] {
        return NoResults;
      }
      out := JoinLines(Take(matches, MaxResults));
  }

  /** An entity is kept exactly when it is in the list, its domain is allowed and the
      term matches it. */
  lemma {:induction false} MatchingIff(searchTerm: string, states: seq<EntityState>, e: EntityState)
    ensures e in Matching(searchTerm, states) <==> e in states && Selected(searchTerm, e)
    decreases |states|
  {
    if states != [] {
      var init := states[..|states| - 1];
      MatchingIff(searchTerm, init, e);
      assert states == init + [states[|states| - 1]];
    }
  }

  /** Filtering keeps the order of the state list: it distributes over concatenation. */
  lemma {:induction false} MatchingAppend(searchTerm: string, a: seq<EntityState>, b: seq<EntityState>)
    ensures Matching(searchTerm, a + b) == Matching(searchTerm, a) + Matching(searchTerm, b)
    decreases |b|
  {
    if b == [] {
      assert a + b == a;
    } else {
      var init := b[..|b| - 1];
      assert (a + b)[..|a + b| - 1] == a + init;
      MatchingAppend(searchTerm, a, init);
    }
  }

  /** Every line of a successful lookup is the line of a selected entity, at most 15 of
      them, the first matches in state-list order, one line per entity when no field
      holds a line break. */
  lemma FindResultLines(searchTerm: string, states: seq<EntityState>)
    requires Matching(searchTerm, states) != []
    requires forall e :: e in states ==> NoNewline(EntityLine(e))
    ensures var out := SplitLines(FindResult(true, States(states), searchTerm));
      var found := Matching(searchTerm, states);
      |out| == (if |found| <= MaxResults then |found| else MaxResults) &&
      forall j :: 0 <= j < |out| ==>
        out[j] == EntityLine(found[j]) && found[j] in states && InAllowedDomain(found[j])
  {
    var found := Matching(searchTerm, states);
    var lines := Take(Lines(found), MaxResults);
    forall j | 0 <= j < |lines| ensures NoNewline(lines[j]) && found[j] in states && Selected(searchTerm, found[j]) {
      MatchingIff(searchTerm, states, found[j]);
    }
    SplitJoin(lines);
  }

  /** The fixed "no results" answer comes back exactly when nothing matched: an entity
      line starts with "- ID: " and so can never be mistaken for it. */
  lemma NoResultsIff(searchTerm: string, states: seq<EntityState>)
    ensures FindResult(true, States(states), searchTerm) == NoResults <==> Matching(searchTerm, states) == []
  {
    var found := Lines(Matching(searchTerm, states));
    if found != [] {
      var lines := Take(found, MaxResults);
      JoinLinesPrefix(lines);
      assert lines[0][0] == '-';
      assert JoinLines(lines)[0] == '-';
    }
  }

  /** An empty search term is a substring of everything, so it selects every entity of an
      allowed domain. */
  lemma EmptyTermSelectsAllowed(e: EntityState)
    ensures Selected("", e) <==> InAllowedDomain(e)
  {
    assert Normalize("") == "";
    assert OccursAt("", Normalize(e.friendlyName.GetOr("")), 0);
  }

  // ------------------------------------------------ turn_on_multiple / turn_off_multiple

  function Endpoint(service: Service): string {
    match service
    case TurnOn => "services/homeassistant/turn_on"
    case TurnOff => "services/homeassistant/turn_off"
  }

  function Verb(service: Service): string {
    match service
    case TurnOn => "on"
    case TurnOff => "off"
  }

  function ActionLine(service: Service, entityId: string, reply: ServiceReply): string {
    match reply
    case Done => "success: " + entityId + " " + Verb(service)
    case ServiceFailed(e) => "fail: " + entityId + " error: " + e
  }

  /** The `results` list after handling every id in `entityIds`. */
  function ActionLines(service: Service, entityIds: seq<string>, post: PostOracle): seq<string>
    decreases |entityIds|
  {
    if entityIds == [] then []
    else
      var k := |entityIds| - 1;
      ActionLines(service, entityIds[..k], post)
        + [ActionLine(service, entityIds[k], post(k, Request(Endpoint(service), entityIds[k])))]
  }

  /** What `turn_on_multiple` / `turn_off_multiple` return. */
  function ActionResult(service: Service, connected: bool, entityIds: seq<string>, post: PostOracle): string {
    if !connected then NotConnectedError else JoinLines(ActionLines(service, entityIds, post))
  }

  /** One line per id, in input order; the line for an id depends only on the reply to
      that id's own request, so a failure leaves the other ids' lines alone. */
  lemma {:induction false} ActionLinesAt(service: Service, entityIds: seq<string>, post: PostOracle)
    ensures var lines := ActionLines(service, entityIds, post);
      |lines| == |entityIds| &&
      forall j :: 0 <= j < |entityIds| ==>
        lines[j] == ActionLine(service, entityIds[j], post(j, Request(Endpoint(service), entityIds[j])))
    decreases |entityIds|
  {
    if entityIds != [] {
      var k := |entityIds| - 1;
      ActionLinesAt(service, entityIds[..k], post);
    }
  }

  /** The shared loop of both batch tools: one request per id, failures recorded and
      skipped over. `requests` lists the requests made, in order. */
  method CallForEach(service: Service, connected: bool, entityIds: seq<string>, post: PostOracle)
    returns (out: string, requests: seq<Request>)
    ensures out == ActionResult(service, connected, entityIds, post)
    ensures connected ==> (|requests| == |entityIds| &&
      forall k :: 0 <= k < |entityIds| ==> requests[k] == Request(Endpoint(service), entityIds[k]))
    ensures !connected ==> requests == []
  {
    if !connected {
      return NotConnectedError, [];
    }
    var results: seq<string> := [];
    requests := [];
    for i := 0 to |entityIds|
      invariant results == ActionLines(service, entityIds[..i], post)
      invariant |requests| == i
      invariant forall k :: 0 <= k < i ==> requests[k] == Request(Endpoint(service), entityIds[k])
    {
      assert entityIds[..i + 1][..i] == entityIds[..i];
      var eid := entityIds[i];
      var request := Request(Endpoint(service), eid);
      var reply := post(|requests|, request);
      requests := requests + [request];
      match reply
      case Done =>
        results := results + ["success: " + eid + " " + Verb(service)];
      case ServiceFailed(e) =>
        results := results + ["fail: " + eid + " error: " + e];
    }
    assert entityIds[..|entityIds|] == entityIds;
    out := JoinLines(results);
  }

  method TurnOnMultiple(connected: bool, entityIds: seq<string>, post: PostOracle)
    returns (out: string, requests: seq<Request>)
    ensures out == ActionResult(TurnOn, connected, entityIds, post)
    ensures connected ==> (|requests| == |entityIds| &&
      forall k :: 0 <= k < |entityIds| ==> requests[k] == Request("services/homeassistant/turn_on", entityIds[k]))
    ensures !connected ==> requests == []
  {
    out, requests := CallForEach(TurnOn, connected, entityIds, post);
  }

  method TurnOffMultiple(connected: bool, entityIds: seq<string>, post: PostOracle)
    returns (out: string, requests: seq<Request>)
    ensures out == ActionResult(TurnOff, connected, entityIds, post)
    ensures connected ==> (|requests| == |entityIds| &&
      forall k :: 0 <= k < |entityIds| ==> requests[k] == Request("services/homeassistant/turn_off", entityIds[k]))
    ensures !connected ==> requests == []
  {
    out, requests := CallForEach(TurnOff, connected, entityIds, post);
  }

  lemma ActionLineNoNewline(service: Service, entityId: string, reply: ServiceReply)
    requires NoNewline(entityId)
    requires reply.ServiceFailed? ==> NoNewline(reply.message)
    ensures NoNewline(ActionLine(service, entityId, reply))
  {
    assert NoNewline(Verb(service));
    assert NoNewline("success: ") && NoNewline(" ") && NoNewline("fail: ") && NoNewline(" error: ");
  }

  /** When no id and no error message holds a line break, the answer splits back into
      exactly one line per id; an empty id list gives the empty string. */
  lemma ActionResultLines(service: Service, entityIds: seq<string>, post: PostOracle)
    requires forall j :: 0 <= j < |entityIds| ==> NoNewline(entityIds[j])
    requires forall j :: 0 <= j < |entityIds| ==> post(j, Request(Endpoint(service), entityIds[j])).ServiceFailed? ==>
      NoNewline(post(j, Request(Endpoint(service), entityIds[j])).message)
    ensures entityIds == [] ==> ActionResult(service, true, entityIds, post) == ""
    ensures entityIds != [] ==> SplitLines(ActionResult(service, true, entityIds, post)) == ActionLines(service, entityIds, post)
  {
    ActionLinesAt(service, entityIds, post);
    if entityIds != [] {
      var lines := ActionLines(service, entityIds, post);
      forall j | 0 <= j < |lines| ensures NoNewline(lines[j]) {
        ActionLineNoNewline(service, entityIds[j], post(j, Request(Endpoint(service), entityIds[j])));
      }
      SplitJoin(lines);
    }
  }

  // ------------------------------------------------------------------------- examples

  lemma NotAllowedSensor(d: string)
    requires d == "sensor"
    ensures d !in AllowedDomains
  {
  }

  /** `sensor.living_room_temp` lies outside the allowed domains. */
  lemma SensorExcluded(e: EntityState)
    requires e.entityId == "sensor.living_room_temp"
    ensures !InAllowedDomain(e)
  {
    var id := e.entityId;
    assert id == id[..6] + "." + id[7..];
    assert id[..6] == "sensor";
    DomainBeforeDot(id[..6], id[7..]);
    NotAllowedSensor(Domain(id));
  }

  /** "living room" normalises to "livingroom". */
  lemma NormalizeLivingRoom(term: string)
    requires term == "living room"
    ensures Normalize(term) == "livingroom"
  {
    LowerNone(term);
    var living, room := term[..6], term[7..];
    assert term == living + " " + room;
    RemoveSpacesWord(living, room);
    RemoveSpacesNone(living);
  }

  lemma LowerLivingRoomLamp(name: string)
    requires name == "Living Room Lamp"
    ensures ToLower(name) == "living room lamp"
  {
  }

  /** "Living Room Lamp" normalises to "livingroomlamp". */
  lemma NormalizeLivingRoomLamp(name: string)
    requires name == "Living Room Lamp"
    ensures Normalize(name) == "livingroomlamp"
  {
    LowerLivingRoomLamp(name);
    var lower := ToLower(name);
    var livingRoom, lamp := lower[..11], lower[12..];
    assert lower == livingRoom + " " + lamp;
    RemoveSpacesWord(livingRoom, lamp);
    NormalizeLivingRoom(livingRoom);
    LowerNone(livingRoom);
    assert lamp == "lamp";
  }

  lemma LowerLivingRoomTemp(name: string)
    requires name == "Living Room Temp"
    ensures ToLower(name) == "living room temp"
  {
  }

  /** "Living Room Temp" normalises to "livingroomtemp". */
  lemma NormalizeLivingRoomTemp(name: string)
    requires name == "Living Room Temp"
    ensures Normalize(name) == "livingroomtemp"
  {
    LowerLivingRoomTemp(name);
    var lower := ToLower(name);
    var livingRoom, temp := lower[..11], lower[12..];
    assert lower == livingRoom + " " + temp;
    RemoveSpacesWord(livingRoom, temp);
    NormalizeLivingRoom(livingRoom);
    LowerNone(livingRoom);
    assert temp == "temp";
  }

  /** "living room" is found in the friendly name "Living Room Temp" as well. */
  lemma SensorMatchesTerm(e: EntityState, term: string)
    requires e.friendlyName == Some("Living Room Temp") && term == "living room"
    ensures MatchesTerm(term, e)
  {
    NormalizeLivingRoom(term);
    NormalizeLivingRoomTemp(e.friendlyName.value);
    var needle, hay := Normalize(term), Normalize(e.friendlyName.value);
    assert hay[..|needle|] == needle;
    assert OccursAt(needle, hay, 0);
    IsSubstringIff(needle, hay);
  }

  /** `light.living_room_lamp` lies in the allowed `light` domain. */
  lemma LampAllowed(e: EntityState)
    requires e.entityId == "light.living_room_lamp"
    ensures InAllowedDomain(e)
  {
    var id := e.entityId;
    assert id == id[..5] + "." + id[6..];
    assert id[..5] == "light";
    DomainBeforeDot(id[..5], id[6..]);
  }

  /** "living room" is found in the friendly name "Living Room Lamp". */
  lemma LampNameMatches(name: string, term: string)
    requires name == "Living Room Lamp" && term == "living room"
    ensures IsSubstring(Normalize(term), Normalize(name))
  {
    NormalizeLivingRoom(term);
    NormalizeLivingRoomLamp(name);
    var needle, hay := Normalize(term), Normalize(name);
    assert hay[..|needle|] == needle;
    assert OccursAt(needle, hay, 0);
  }

  /** `light.living_room_lamp`, named "Living Room Lamp", matches "living room". */
  lemma LampSelected(e: EntityState, term: string)
    requires e.entityId == "light.living_room_lamp" && e.friendlyName == Some("Living Room Lamp")
    requires term == "living room"
    ensures Selected(term, e)
  {
    LampAllowed(e);
    LampNameMatches(e.friendlyName.GetOr(""), term);
  }

  /** Of two entities, a selected one followed by one outside the allowed domains, only
      the first matches. */
  lemma MatchingFirstOfTwo(term: string, first: EntityState, second: EntityState)
    requires Selected(term, first) && !InAllowedDomain(second)
    ensures Matching(term, [first, second]) == [first]
  {
    var states := [first, second];
    assert states[..1] == [first] && [first][..0] == [];
    assert Matching(term, [first]) == [first] by {
      assert Matching(term, []) == [];
    }
  }

  /** A single match is answered with its line alone. */
  lemma FindSingle(states: seq<EntityState>, term: string, e: EntityState)
    requires Matching(term, states) == [e]
    ensures FindResult(true, States(states), term) == EntityLine(e)
  {
    assert Lines([e]) == [EntityLine(e)];
  }

  /** A lamp in an allowed domain is found by a spaced, lower-case term. The sensor
      `sensor.living_room_temp`, named "Living Room Temp", also matches the term and is
      left out only because of its domain. */
  lemma FindLivingRoomExample(lamp: EntityState, sensor: EntityState, term: string)
    requires lamp == EntityState("light.living_room_lamp", Some("Living Room Lamp"), Some("off"))
    requires sensor == EntityState("sensor.living_room_temp", Some("Living Room Temp"), Some("21.5"))
    requires term == "living room"
    ensures MatchesTerm(term, sensor)
    ensures Matching(term, [lamp, sensor]) == [lamp]
    ensures FindResult(true, States([lamp, sensor]), term) == EntityLine(lamp)
  {
    SensorMatchesTerm(sensor, term);
    SensorExcluded(sensor);
    LampSelected(lamp, term);
    MatchingFirstOfTwo(term, lamp, sensor);
    FindSingle([lamp, sensor], term, lamp);
  }

  /** An API that accepts the first request and rejects every later one. */
  function FailAfterFirst(k: nat, r: Request): ServiceReply {
    if k == 0 then Done else ServiceFailed("500 Server Error")
  }

  /** A failing second request still leaves one line per id, in order. */
  lemma TurnOnPartialFailureLines(ids: seq<string>)
    requires ids == ["light.a", "light.b"]
    ensures ActionLines(TurnOn, ids, FailAfterFirst)
      == ["success: " + "light.a" + " " + "on", "fail: " + "light.b" + " error: " + "500 Server Error"]
  {
    ActionLinesAt(TurnOn, ids, FailAfterFirst);
    var lines := ActionLines(TurnOn, ids, FailAfterFirst);
    assert lines[0] == ActionLine(TurnOn, ids[0], Done);
    assert lines[1] == ActionLine(TurnOn, ids[1], ServiceFailed("500 Server Error"));
  }

  /** The same answer as the tool returns it, one line per id. */
  lemma TurnOnPartialFailureExample(ids: seq<string>)
    requires ids == ["light.a", "light.b"]
    ensures ActionResult(TurnOn, true, ids, FailAfterFirst)
      == ("success: " + "light.a" + " " + "on") + "\n" + ("fail: " + "light.b" + " error: " + "500 Server Error")
  {
    TurnOnPartialFailureLines(ids);
    var lines := ActionLines(TurnOn, ids, FailAfterFirst);
    assert lines[1..] == [lines[1]];
    assert JoinLines(lines) == lines[0] + "\n" + JoinLines(lines[1..]);
  }
}
