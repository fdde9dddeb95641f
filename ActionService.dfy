/**
 * The hub's Action service: the actions offered to an account, the
 * field-restricted upsert of an action, and the building of an action's
 * payload from its field mappings and the envelope's data before dispatch.
 *
 * The authorised plugins, the envelope data, the JSON parse of the mapping
 * settings and the rendering of the result as text are inputs.
 */
module ActionService {
  import opened Wrappers
  import opened Strings
  import opened PluginRegistration
  import PluginTransmitter

  // ---------------------------------------------------------------------
  // GetAvailableActions

  /** A plugin as the subscription service returns it: the actions it offers. */
  datatype PluginDO = PluginDO(id: int, availableActions: seq<ActionRegistration>)

  /** SelectMany(p => p.AvailableActions) */
  function AllActions(plugins: seq<PluginDO>): seq<ActionRegistration> {
    if |plugins| == 0 then [] else plugins[0].availableActions + AllActions(plugins[1..])
  }

  /** Places `x` before the first action whose type is not below its own. */
  function Insert(x: ActionRegistration, t: seq<ActionRegistration>): (r: seq<ActionRegistration>)
    ensures multiset(r) == multiset(t) + multiset{x}
  {
    if |t| == 0 || OrdinalLe(x.actionType, t[0].actionType) then [x] + t
    else
      assert t == [t[0]] + t[1..];
      [t[0]] + Insert(x, t[1..])
  }

  /** OrderBy(s => s.ActionType): a stable sort by action type. */
  function SortByActionType(s: seq<ActionRegistration>): seq<ActionRegistration> {
    if |s| == 0 then [] else Insert(s[0], SortByActionType(s[1..]))
  }

  /** GetAvailableActions: the authorised plugins' actions, ordered by action type. */
  function GetAvailableActions(authorizedPlugins: seq<PluginDO>): seq<ActionRegistration> {
    SortByActionType(AllActions(authorizedPlugins))
  }

  predicate SortedByActionType(s: seq<ActionRegistration>) {
    forall i, j :: 0 <= i < j < |s| ==> OrdinalLe(s[i].actionType, s[j].actionType)
  }

  /** The actions of one type, in their order. */
  function OfType(s: seq<ActionRegistration>, actionType: string): seq<ActionRegistration> {
    if |s| == 0 then []
    else (if s[0].actionType == actionType then [s[0]] else []) + OfType(s[1..], actionType)
  }

  lemma {:induction false} InsertSorted(x: ActionRegistration, t: seq<ActionRegistration>)
    requires SortedByActionType(t)
    ensures SortedByActionType(Insert(x, t))
  {
    if |t| == 0 {
    } else if OrdinalLe(x.actionType, t[0].actionType) {
      forall j | 0 <= j < |t| ensures OrdinalLe(x.actionType, t[j].actionType) {
        if j > 0 {
          OrdinalLeTransitive(x.actionType, t[0].actionType, t[j].actionType);
        }
      }
    } else {
      InsertSorted(x, t[1..]);
      OrdinalLeTotal(x.actionType, t[0].actionType);
      var rest := Insert(x, t[1..]);
      forall j | 0 <= j < |rest| ensures OrdinalLe(t[0].actionType, rest[j].actionType) {
        assert rest[j] in multiset(rest);
        if rest[j] != x {
          assert rest[j] in multiset(t[1..]);
          var k :| 0 <= k < |t[1..]| && t[1..][k] == rest[j];
          assert t[k + 1] == rest[j];
        }
      }
    }
  }

  /** Inserting into a sorted list keeps the order among the actions of each type. */
  lemma {:induction false} InsertOfType(x: ActionRegistration, t: seq<ActionRegistration>, actionType: string)
    requires SortedByActionType(t)
    ensures OfType(Insert(x, t), actionType) == (if x.actionType == actionType then [x] else []) + OfType(t, actionType)
  {
    if |t| > 0 && !OrdinalLe(x.actionType, t[0].actionType) {
      OrdinalLeReflexive(x.actionType);
      InsertOfType(x, t[1..], actionType);
    }
  }

  /** The result is ordered by action type. */
  lemma {:induction false} SortSorted(s: seq<ActionRegistration>)
    ensures SortedByActionType(SortByActionType(s))
  {
    if |s| > 0 {
      SortSorted(s[1..]);
      InsertSorted(s[0], SortByActionType(s[1..]));
    }
  }

  /** The result holds the same actions, each as often. */
  lemma {:induction false} SortPermutes(s: seq<ActionRegistration>)
    ensures multiset(SortByActionType(s)) == multiset(s)
  {
    if |s| > 0 {
      SortPermutes(s[1..]);
      assert s == [s[0]] + s[1..];
    }
  }

  /** The sort is stable: actions of equal type keep their relative order. */
  lemma {:induction false} SortStable(s: seq<ActionRegistration>, actionType: string)
    ensures OfType(SortByActionType(s), actionType) == OfType(s, actionType)
  {
    if |s| > 0 {
      SortStable(s[1..], actionType);
      SortSorted(s[1..]);
      InsertOfType(s[0], SortByActionType(s[1..]), actionType);
    }
  }

  /** GetAvailableActions lists every authorised action once per offer, sorted, stably. */
  lemma GetAvailableActionsSpec(plugins: seq<PluginDO>, actionType: string)
    ensures SortedByActionType(GetAvailableActions(plugins))
    ensures multiset(GetAvailableActions(plugins)) == multiset(AllActions(plugins))
    ensures OfType(GetAvailableActions(plugins), actionType) == OfType(AllActions(plugins), actionType)
  {
    SortSorted(AllActions(plugins));
    SortPermutes(AllActions(plugins));
    SortStable(AllActions(plugins), actionType);
  }

  // ---------------------------------------------------------------------
  // SaveOrUpdateAction

  /** The ActionDO columns the service reads or writes. */
  datatype ActionDO = ActionDO(
    id: int,
    actionList: Option<int>,              // the referenced ActionListDO, by its id
    actionListId: Option<int>,
    actionType: Option<string>,
    configurationSettings: Option<string>,
    fieldMappingSettings: Option<string>,
    parentPluginRegistration: Option<string>,
    userLabel: Option<string>,
    payloadMappings: Option<string>)

  /** The seven columns SaveOrUpdateAction copies onto a stored action. */
  predicate SameTrackedColumns(a: ActionDO, b: ActionDO) {
    && a.actionList == b.actionList && a.actionListId == b.actionListId && a.actionType == b.actionType
    && a.configurationSettings == b.configurationSettings && a.fieldMappingSettings == b.fieldMappingSettings
    && a.parentPluginRegistration == b.parentPluginRegistration && a.userLabel == b.userLabel
  }

  /** The stored action after the copy: the seven columns from `current`, the rest kept. */
  function CopyTracked(existing: ActionDO, current: ActionDO): (r: ActionDO)
    ensures SameTrackedColumns(r, current)
    ensures r.id == existing.id && r.payloadMappings == existing.payloadMappings
  {
    existing.(actionList := current.actionList, actionListId := current.actionListId,
              actionType := current.actionType, configurationSettings := current.configurationSettings,
              fieldMappingSettings := current.fieldMappingSettings,
              parentPluginRegistration := current.parentPluginRegistration, userLabel := current.userLabel)
  }

  /** What SaveOrUpdateAction does to the action table. */
  function Upsert(rows: map<int, ActionDO>, current: ActionDO): map<int, ActionDO> {
    if current.id in rows then rows[current.id := CopyTracked(rows[current.id], current)]
    else rows[current.id := current]
  }

  /** After the upsert the row agrees with `current` on the seven columns, and keeps the rest if it existed. */
  lemma UpsertStores(rows: map<int, ActionDO>, current: ActionDO)
    ensures var r := Upsert(rows, current);
      && current.id in r && SameTrackedColumns(r[current.id], current)
      && (current.id in rows ==> r[current.id].payloadMappings == rows[current.id].payloadMappings)
      && (current.id !in rows ==> r[current.id] == current)
      && r.Keys == rows.Keys + {current.id}
      && forall k :: k in rows && k != current.id ==> r[k] == rows[k]
  {
  }

  /** Saving the same action twice is saving it once. */
  lemma UpsertIdempotent(rows: map<int, ActionDO>, current: ActionDO)
    ensures Upsert(Upsert(rows, current), current) == Upsert(rows, current)
  {
  }

  /** The action table. */
  class ActionRepository {
    var rows: map<int, ActionDO>

    constructor (initial: map<int, ActionDO>)
      ensures rows == initial
    {
      rows := initial;
    }

    method SaveOrUpdateAction(currentActionDo: ActionDO) returns (saved: bool)
      modifies this
      ensures saved && rows == Upsert(old(rows), currentActionDo)
    {
      if currentActionDo.id in rows {
        var existingActionDo := rows[currentActionDo.id];
        existingActionDo := existingActionDo.(actionList := currentActionDo.actionList);
        existingActionDo := existingActionDo.(actionListId := currentActionDo.actionListId);
        existingActionDo := existingActionDo.(actionType := currentActionDo.actionType);
        existingActionDo := existingActionDo.(configurationSettings := currentActionDo.configurationSettings);
        existingActionDo := existingActionDo.(fieldMappingSettings := currentActionDo.fieldMappingSettings);
        existingActionDo := existingActionDo.(parentPluginRegistration := currentActionDo.parentPluginRegistration);
        existingActionDo := existingActionDo.(userLabel := currentActionDo.userLabel);
        rows := rows[currentActionDo.id := existingActionDo];
      } else {
        rows := rows[currentActionDo.id := currentActionDo];
      }
      saved := true;
    }
  }

  // ---------------------------------------------------------------------
  // ParsePayloadMappings, CreateActionPayload, Dispatch

  /** One property of the "field_mappings" object: a field name and the mapped value's text. */
  datatype Mapping = Mapping(name: string, value: string)

  /** EnvelopeDataDTO: a named datum of the envelope. */
  datatype EnvelopeData = EnvelopeData(name: string, value: Option<string>)

  /** The JSON values the payload is made of. */
  datatype JValue = JString(text: string) | JObject(properties: seq<(string, JValue)>)

  datatype Failure =
    | ArgumentNull(paramName: string)
    | InvalidOperation(message: string)
    | JsonReader                          // the settings are not a JSON object
    | NullReference                       // "field_mappings" missing or not an object
    | DuplicateProperty(name: string)     // JObject.Add of a name already there

  /** DocuSignFieldMissing(envelopeId, name) */
  datatype FieldMissing = FieldMissing(envelopeId: string, fieldName: string)

  const MoreThanOneElement := "Sequence contains more than one element"

  /** envelopeData.Where(e => e.Name == name).Select(e => e.Value) */
  function ValuesNamed(data: seq<EnvelopeData>, name: string): seq<Option<string>> {
    if |data| == 0 then []
    else (if data[0].name == name then [data[0].value] else []) + ValuesNamed(data[1..], name)
  }

  /** The value SingleOrDefault yields when it does not throw. */
  function SingleValue(data: seq<EnvelopeData>, name: string): Option<string> {
    var vs := ValuesNamed(data, name);
    if |vs| == 1 then vs[0] else None
  }

  function Names(payload: seq<(string, string)>): (r: seq<string>)
    ensures |r| == |payload| && forall i :: 0 <= i < |payload| ==> r[i] == payload[i].0
  {
    seq(|payload|, i requires 0 <= i < |payload| => payload[i].0)
  }

  /** The payload built so far and the names reported missing so far. */
  datatype Built = Built(payload: seq<(string, string)>, missing: seq<string>)

  /** One iteration of the loop over the mapping properties. */
  function MapOne(b: Built, name: string, data: seq<EnvelopeData>): Result<Built, Failure> {
    var vs := ValuesNamed(data, name);
    if |vs| > 1 then Err(InvalidOperation(MoreThanOneElement))
    else if |vs| == 0 || vs[0].None? then Ok(b.(missing := b.missing + [name]))
    else if name in Names(b.payload) then Err(DuplicateProperty(name))
    else Ok(b.(payload := b.payload + [(name, vs[0].value)]))
  }

  /** The loop over all mapping properties, in order; the first exception ends it. */
  function MapAll(ms: seq<Mapping>, data: seq<EnvelopeData>): Result<Built, Failure>
    decreases |ms|
  {
    if |ms| == 0 then Ok(Built([], []))
    else match MapAll(ms[..|ms| - 1], data)
      case Err(e) => Err(e)
      case Ok(b) => MapOne(b, ms[|ms| - 1].name, data)
  }

  /** The mapping names with exactly one non-null datum of that name, in mapping order. */
  function Matched(ms: seq<Mapping>, data: seq<EnvelopeData>): seq<string>
    decreases |ms|
  {
    if |ms| == 0 then []
    else Matched(ms[..|ms| - 1], data) + (if SingleValue(data, ms[|ms| - 1].name).Some? then [ms[|ms| - 1].name] else [])
  }

  /** The mapping names without such a datum, in mapping order. */
  function Unmatched(ms: seq<Mapping>, data: seq<EnvelopeData>): seq<string>
    decreases |ms|
  {
    if |ms| == 0 then []
    else Unmatched(ms[..|ms| - 1], data) + (if SingleValue(data, ms[|ms| - 1].name).None? then [ms[|ms| - 1].name] else [])
  }

  predicate DistinctNames(ms: seq<Mapping>) {
    forall i, j :: 0 <= i < j < |ms| ==> ms[i].name != ms[j].name
  }

  function PayloadObject(payload: seq<(string, string)>): (r: JValue)
    ensures r.JObject? && |r.properties| == |payload|
    ensures forall i :: 0 <= i < |payload| ==> r.properties[i] == (payload[i].0, JString(payload[i].1))
  {
    JObject(seq(|payload|, i requires 0 <= i < |payload| => (payload[i].0, JString(payload[i].1))))
  }

  /**
   * JObject.Parse(settings)["field_mappings"] as JObject: text that is not a
   * JSON object throws, a missing or non-object "field_mappings" gives null,
   * otherwise its properties in order.
   */
  datatype MappingsJson = NotAnObject | NoMappingsObject | MappingsObject(mappings: seq<Mapping>)

  /** The outcome of a parse: the result object or the exception, and the DocuSignFieldMissing events raised on the way. */
  datatype Parsed = Parsed(result: Result<JValue, Failure>, reported: seq<FieldMissing>)

  function Reports(envelopeId: string, names: seq<string>): (r: seq<FieldMissing>)
    ensures |r| == |names| && forall i :: 0 <= i < |names| ==> r[i] == FieldMissing(envelopeId, names[i])
  {
    seq(|names|, i requires 0 <= i < |names| => FieldMissing(envelopeId, names[i]))
  }

  /** The names reported missing before the loop ends or throws: the report list of the longest prefix that ran through. */
  function Raised(ms: seq<Mapping>, data: seq<EnvelopeData>): seq<string>
    decreases |ms|
  {
    if |ms| == 0 then []
    else if MapAll(ms, data).Ok? then MapAll(ms, data).value.missing
    else Raised(ms[..|ms| - 1], data)
  }

  /** What ParsePayloadMappings computes from the parsed settings. */
  function ParsePayload(json: MappingsJson, envelopeId: string, data: seq<EnvelopeData>): Parsed {
    match json
    case NotAnObject => Parsed(Err(JsonReader), [])
    case NoMappingsObject => Parsed(Err(NullReference), [])
    case MappingsObject(ms) =>
      var reported := Reports(envelopeId, Raised(ms, data));
      match MapAll(ms, data)
      case Err(e) => Parsed(Err(e), reported)
      case Ok(b) => Parsed(Ok(JObject([("payload", PayloadObject(b.payload))])), reported)
  }

  /** A successful run puts exactly the matched names into the payload and reports exactly the others. */
  lemma {:induction false} MapAllShape(ms: seq<Mapping>, data: seq<EnvelopeData>)
    requires MapAll(ms, data).Ok?
    ensures Names(MapAll(ms, data).value.payload) == Matched(ms, data)
    ensures MapAll(ms, data).value.missing == Unmatched(ms, data)
    ensures forall i :: 0 <= i < |MapAll(ms, data).value.payload| ==>
      SingleValue(data, MapAll(ms, data).value.payload[i].0) == Some(MapAll(ms, data).value.payload[i].1)
    decreases |ms|
  {
    if |ms| > 0 {
      MapAllShape(ms[..|ms| - 1], data);
      var b := MapAll(ms[..|ms| - 1], data).value;
      var name := ms[|ms| - 1].name;
      var vs := ValuesNamed(data, name);
      if |vs| == 1 && vs[0].Some? {
        assert Names(b.payload + [(name, vs[0].value)]) == Names(b.payload) + [name];
      }
    }
  }

  lemma {:induction false} MatchedFromNames(ms: seq<Mapping>, data: seq<EnvelopeData>)
    ensures forall n :: n in Matched(ms, data) ==> exists i :: 0 <= i < |ms| && ms[i].name == n
    decreases |ms|
  {
    if |ms| > 0 {
      MatchedFromNames(ms[..|ms| - 1], data);
      forall n | n in Matched(ms, data) ensures exists i :: 0 <= i < |ms| && ms[i].name == n {
        if n in Matched(ms[..|ms| - 1], data) {
          var i :| 0 <= i < |ms[..|ms| - 1]| && ms[..|ms| - 1][i].name == n;
          assert ms[i].name == n;
        } else {
          assert ms[|ms| - 1].name == n;
        }
      }
    }
  }

  /**
   * With distinct mapping names (as the properties of one JSON object are),
   * the parse fails exactly when some name has more than one envelope datum.
   */
  lemma {:induction false} MapAllSucceeds(ms: seq<Mapping>, data: seq<EnvelopeData>)
    requires DistinctNames(ms)
    ensures MapAll(ms, data).Ok? <==> forall i :: 0 <= i < |ms| ==> |ValuesNamed(data, ms[i].name)| <= 1
    decreases |ms|
  {
    if |ms| > 0 {
      var init := ms[..|ms| - 1];
      assert DistinctNames(init);
      MapAllSucceeds(init, data);
      var name := ms[|ms| - 1].name;
      if MapAll(init, data).Ok? {
        MapAllShape(init, data);
        MatchedFromNames(init, data);
        assert name !in Names(MapAll(init, data).value.payload);
      }
      if forall i :: 0 <= i < |ms| ==> |ValuesNamed(data, ms[i].name)| <= 1 {
        assert forall i :: 0 <= i < |init| ==> |ValuesNamed(data, init[i].name)| <= 1 by {
          forall i | 0 <= i < |init| ensures |ValuesNamed(data, init[i].name)| <= 1 {
            assert init[i] == ms[i];
          }
        }
      } else {
        var i :| 0 <= i < |ms| && |ValuesNamed(data, ms[i].name)| > 1;
        if i < |init| {
          assert init[i] == ms[i];
        }
      }
    }
  }

  /** The mapping's own value never matters: only the names do. */
  lemma {:induction false} MapAllIgnoresMappedValues(ms: seq<Mapping>, ms': seq<Mapping>, data: seq<EnvelopeData>)
    requires |ms| == |ms'| && forall i :: 0 <= i < |ms| ==> ms[i].name == ms'[i].name
    ensures MapAll(ms, data) == MapAll(ms', data)
    decreases |ms|
  {
    if |ms| > 0 {
      MapAllIgnoresMappedValues(ms[..|ms| - 1], ms'[..|ms'| - 1], data);
    }
  }

  /** Once a step has thrown, the rest of the loop does not run. */
  lemma {:induction false} MapAllErrSticks(ms: seq<Mapping>, i: nat, j: nat, data: seq<EnvelopeData>)
    requires i <= j <= |ms| && MapAll(ms[..i], data).Err?
    ensures MapAll(ms[..j], data) == MapAll(ms[..i], data)
    decreases j - i
  {
    if j > i {
      MapAllErrSticks(ms, i, j - 1, data);
      assert ms[..j][..j - 1] == ms[..j - 1];
    }
  }

  /** Once the loop over a prefix has thrown, the reports stay those made before the throw. */
  lemma {:induction false} RaisedAfterThrow(ms: seq<Mapping>, i: nat, j: nat, data: seq<EnvelopeData>)
    requires i < j <= |ms| && MapAll(ms[..i], data).Ok? && MapAll(ms[..i + 1], data).Err?
    ensures Raised(ms[..j], data) == MapAll(ms[..i], data).value.missing
    decreases j - i
  {
    MapAllErrSticks(ms, i + 1, j, data);
    assert ms[..j][..j - 1] == ms[..j - 1];
    if j > i + 1 {
      RaisedAfterThrow(ms, i, j - 1, data);
    } else {
      assert ms[..i + 1][..i] == ms[..i];
    }
  }

  /**
   * The reports: on success exactly the unmatched names; after a throw at
   * mapping k, exactly the unmatched names among the mappings before k.
   */
  lemma RaisedSpec(ms: seq<Mapping>, data: seq<EnvelopeData>, k: nat)
    ensures MapAll(ms, data).Ok? ==> Raised(ms, data) == Unmatched(ms, data)
    ensures k < |ms| && MapAll(ms[..k], data).Ok? && MapAll(ms[..k + 1], data).Err? ==>
      Raised(ms, data) == Unmatched(ms[..k], data)
  {
    if MapAll(ms, data).Ok? {
      MapAllShape(ms, data);
    }
    if k < |ms| && MapAll(ms[..k], data).Ok? && MapAll(ms[..k + 1], data).Err? {
      RaisedAfterThrow(ms, k, |ms|, data);
      MapAllShape(ms[..k], data);
      assert ms[..|ms|] == ms;
    }
  }

  /** ParsePayloadMappings; the DocuSignFieldMissing events are returned in `reported`, also when it throws. */
  method ParsePayloadMappings(json: MappingsJson, envelopeId: string, envelopeData: seq<EnvelopeData>,
                              render: JValue -> string)
    returns (r: Result<string, Failure>, reported: seq<FieldMissing>)
    ensures reported == ParsePayload(json, envelopeId, envelopeData).reported
    ensures match ParsePayload(json, envelopeId, envelopeData).result
      case Err(e) => r == Err(e)
      case Ok(j) => r == Ok(render(j))
  {
    if json.NotAnObject? {
      return Err(JsonReader), [];
    }
    if json.NoMappingsObject? {
      return Err(NullReference), [];
    }
    var ms := json.mappings;
    var payload: seq<(string, string)> := [];
    var missing: seq<string> := [];
    var i := 0;
    while i < |ms|
      invariant 0 <= i <= |ms|
      invariant MapAll(ms[..i], envelopeData) == Ok(Built(payload, missing))
    {
      var name := ms[i].name;
      var values := ValuesNamed(envelopeData, name);
      assert ms[..i + 1][..i] == ms[..i];
      if |values| > 1 {
        MapAllErrSticks(ms, i + 1, |ms|, envelopeData);
        RaisedAfterThrow(ms, i, |ms|, envelopeData);
        assert ms[..|ms|] == ms;
        return Err(InvalidOperation(MoreThanOneElement)), Reports(envelopeId, missing);
      }
      var newValue := if |values| == 0 then None else values[0];
      if newValue.None? {
        missing := missing + [name];
      } else {
        if name in Names(payload) {
          MapAllErrSticks(ms, i + 1, |ms|, envelopeData);
          RaisedAfterThrow(ms, i, |ms|, envelopeData);
          assert ms[..|ms|] == ms;
          return Err(DuplicateProperty(name)), Reports(envelopeId, missing);
        }
        payload := payload + [(name, newValue.value)];
      }
      i := i + 1;
    }
    assert ms[..|ms|] == ms;
    var result := JObject([("payload", PayloadObject(payload))]);
    r := Ok(render(result));
    reported := Reports(envelopeId, missing);
  }

  function EmptyMappingsMessage(id: int): string {
    "Field mappings are empty on ActionDO with id " + IntToString(id)
  }

  /** CreateActionPayload: the envelope data are fetched first, then the settings are checked. */
  method CreateActionPayload(curActionDO: ActionDO, envelopeId: string, envelopeData: seq<EnvelopeData>,
                             parse: string -> MappingsJson, render: JValue -> string)
    returns (r: Result<string, Failure>, reported: seq<FieldMissing>)
    ensures IsNullOrEmpty(curActionDO.fieldMappingSettings) ==>
      r == Err(InvalidOperation(EmptyMappingsMessage(curActionDO.id))) && reported == []
    ensures !IsNullOrEmpty(curActionDO.fieldMappingSettings) ==>
      var p := ParsePayload(parse(curActionDO.fieldMappingSettings.value), envelopeId, envelopeData);
      && reported == p.reported
      && match p.result
         case Err(e) => r == Err(e)
         case Ok(j) => r == Ok(render(j))
  {
    if IsNullOrEmpty(curActionDO.fieldMappingSettings) {
      return Err(InvalidOperation(EmptyMappingsMessage(curActionDO.id))), [];
    }
    r, reported := ParsePayloadMappings(parse(curActionDO.fieldMappingSettings.value), envelopeId, envelopeData, render);
  }

  /**
   * Dispatch up to the post: a null action is refused first; otherwise the
   * client's base address is set and the action's payload mappings are built.
   */
  method Dispatch(curActionDO: Option<ActionDO>, baseUri: string, pluginClient: PluginTransmitter.Transmitter,
                  envelopeId: string, envelopeData: seq<EnvelopeData>,
                  parse: string -> MappingsJson, render: JValue -> string)
    returns (r: Result<ActionDO, Failure>, reported: seq<FieldMissing>)
    modifies pluginClient
    ensures curActionDO.None? ==> r == Err(ArgumentNull("curAction")) && reported == []
                                  && pluginClient.BaseUri == old(pluginClient.BaseUri)
    ensures curActionDO.Some? ==> pluginClient.BaseUri == Some(baseUri)
    ensures r.Ok? ==> curActionDO.Some? && r.value == curActionDO.value.(payloadMappings := r.value.payloadMappings)
    ensures curActionDO.Some? && IsNullOrEmpty(curActionDO.value.fieldMappingSettings) ==>
      r == Err(InvalidOperation(EmptyMappingsMessage(curActionDO.value.id))) && reported == []
    ensures curActionDO.Some? && !IsNullOrEmpty(curActionDO.value.fieldMappingSettings) ==>
      var p := ParsePayload(parse(curActionDO.value.fieldMappingSettings.value), envelopeId, envelopeData);
      && reported == p.reported
      && (p.result.Err? ==> r == Err(p.result.error))
      && (p.result.Ok? ==> r == Ok(curActionDO.value.(payloadMappings := Some(render(p.result.value)))))
  {
    if curActionDO.None? {
      return Err(ArgumentNull("curAction")), [];
    }
    pluginClient.BaseUri := Some(baseUri);
    var payload;
    payload, reported := CreateActionPayload(curActionDO.value, envelopeId, envelopeData, parse, render);
    match payload
    case Err(e) => r := Err(e);
    case Ok(p) => r := Ok(curActionDO.value.(payloadMappings := Some(p)));
  }
}
