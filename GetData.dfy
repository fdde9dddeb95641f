/**
 * Get_Data_v1 (Salesforce): configuration keeps two crates in step with the
 * selected object type (the queryable criteria and the object's fields);
 * a run queries the objects and appends them as payload and as table data.
 */
module GetData {
  import opened Wrappers
  import opened Strings
  import opened Crates

  const QueryFilterCrateLabel := "Queryable Criteria"
  const RuntimeDataCrateLabel := "Table from Salesforce Get Data"
  const PayloadDataCrateLabel := "Payload from Salesforce Get Data"
  const SalesforceObjectFieldsCrateLabel := "Salesforce Object Fields"
  const NoObjectSelected := "No Salesforce object is selected"

  /** The state configuration works on: the crate storage and the stored selection (this["SalesforceObjectSelector"]). */
  datatype ConfigState = ConfigState(storage: seq<Crate>, selection: Option<string>)

  /** The queryable-criteria crate for the object's properties. */
  function QueryFilterCrate(properties: seq<Field>): Crate {
    Crate(QueryFilterCrateLabel, FieldDescriptions(properties), Configuration)
  }

  /** Each property as (key, key) sourced from the run-time table crate. */
  function ObjectFields(properties: seq<Field>): (r: seq<Field>)
    ensures |r| == |properties|
    ensures forall i :: 0 <= i < |r| ==>
      r[i] == Field(properties[i].key, Some(properties[i].key), Some(RuntimeDataCrateLabel))
  {
    seq(|properties|, i requires 0 <= i < |properties| =>
      Field(properties[i].key, Some(properties[i].key), Some(RuntimeDataCrateLabel)))
  }

  function ObjectFieldsCrate(properties: seq<Field>): Crate {
    Crate(SalesforceObjectFieldsCrateLabel, FieldDescriptions(ObjectFields(properties)), RunTime)
  }

  /** ConfigureETA; `getProperties` stands for the Salesforce query of the object's properties. */
  function Configured(s: ConfigState, selectedObject: Option<string>, getProperties: string -> seq<Field>): ConfigState {
    if IsNullOrEmpty(selectedObject) then
      ConfigState(RemoveByLabel(RemoveByLabel(s.storage, QueryFilterCrateLabel), SalesforceObjectFieldsCrateLabel),
                  selectedObject)
    else if selectedObject == s.selection then s
    else
      var properties := getProperties(selectedObject.value);
      ConfigState(ReplaceByLabel(ReplaceByLabel(s.storage, QueryFilterCrate(properties)), ObjectFieldsCrate(properties)),
                  selectedObject)
  }

  /** An empty selection drops both crates and is stored, whatever was stored before. */
  lemma ConfigureEmptySelection(s: ConfigState, selectedObject: Option<string>, getProperties: string -> seq<Field>, c: Crate)
    requires IsNullOrEmpty(selectedObject)
    ensures var t := Configured(s, selectedObject, getProperties);
      && t.selection == selectedObject
      && (c in t.storage <==> c in s.storage && c.labelText != QueryFilterCrateLabel
                               && c.labelText != SalesforceObjectFieldsCrateLabel)
  {
  }

  /** Selecting the stored object again changes nothing. */
  lemma ConfigureSameSelection(s: ConfigState, selectedObject: Option<string>, getProperties: string -> seq<Field>)
    requires !IsNullOrEmpty(selectedObject) && selectedObject == s.selection
    ensures Configured(s, selectedObject, getProperties) == s
  {
  }

  /**
   * A new selection leaves exactly one criteria crate (Configuration) and
   * one object-fields crate (RunTime) for the object's properties, keeps
   * every other crate, and stores the selection.
   */
  lemma ConfigureNewSelection(s: ConfigState, selectedObject: Option<string>, getProperties: string -> seq<Field>, c: Crate)
    requires !IsNullOrEmpty(selectedObject) && selectedObject != s.selection
    ensures var t := Configured(s, selectedObject, getProperties);
      var properties := getProperties(selectedObject.value);
      && t.selection == selectedObject
      && QueryFilterCrate(properties) in t.storage && ObjectFieldsCrate(properties) in t.storage
      && t.storage[|t.storage| - 1] == ObjectFieldsCrate(properties)
      && (c in t.storage && c.labelText == QueryFilterCrateLabel ==> c == QueryFilterCrate(properties))
      && (c in t.storage && c.labelText == SalesforceObjectFieldsCrateLabel ==> c == ObjectFieldsCrate(properties))
      && (c.labelText != QueryFilterCrateLabel && c.labelText != SalesforceObjectFieldsCrateLabel ==>
            (c in t.storage <==> c in s.storage))
  {
    var properties := getProperties(selectedObject.value);
    var first := ReplaceByLabel(s.storage, QueryFilterCrate(properties));
    assert QueryFilterCrate(properties) in first;
  }

  /** One filter condition of the query builder. */
  datatype FilterCondition = FilterCondition(field: string, operator: string, value: string)

  datatype Failure =
    | DesignTimeDataMissing(message: string)   // ActivityExecutionException, DESIGN_TIME_DATA_MISSING
    | InvalidOperation                         // FirstCrate without a criteria crate
    | NullReference                            // a filter value that deserialises to null

  /** The keys of the criteria crate's fields. */
  function FieldKeys(fields: seq<Field>): (r: seq<string>)
    ensures |r| == |fields| && forall i :: 0 <= i < |fields| ==> r[i] == fields[i].key
  {
    seq(|fields|, i requires 0 <= i < |fields| => fields[i].key)
  }

  /** The first field-descriptions crate labelled "Queryable Criteria": its fields. */
  function QueryFilterFields(storage: seq<Crate>): (r: Option<seq<Field>>)
    ensures r.None? <==> forall c :: c in storage ==> !(c.labelText == QueryFilterCrateLabel && c.content.FieldDescriptions?)
  {
    if |storage| == 0 then None
    else if storage[0].labelText == QueryFilterCrateLabel && storage[0].content.FieldDescriptions? then
      Some(storage[0].content.fields)
    else QueryFilterFields(storage[1..])
  }

  /** The condition text: only built for a non-empty filter list. */
  function Condition(filters: seq<FilterCondition>, parseConditionToText: seq<FilterCondition> -> string): string {
    if |filters| > 0 then parseConditionToText(filters) else ""
  }

  /**
   * RunETA: the new payload, or the failure. `query` stands for the
   * Salesforce query (object, fields, condition) and `toPayloadData` for the
   * conversion of its table to payload objects.
   */
  function Ran(payload: seq<Crate>, storage: seq<Crate>, selectedObject: Option<string>, filters: Option<seq<FilterCondition>>,
               parseConditionToText: seq<FilterCondition> -> string,
               query: (string, seq<string>, string) -> seq<seq<Field>>,
               toPayloadData: seq<seq<Field>> -> seq<seq<Field>>): Result<seq<Crate>, Failure>
  {
    if IsNullOrEmpty(selectedObject) then Err(DesignTimeDataMissing(NoObjectSelected))
    else if QueryFilterFields(storage).None? then Err(InvalidOperation)
    else if filters.None? then Err(NullReference)
    else
      var rows := query(selectedObject.value, FieldKeys(QueryFilterFields(storage).value),
                        Condition(filters.value, parseConditionToText));
      Ok(payload + [Crate(PayloadDataCrateLabel, PayloadData(toPayloadData(rows)), RunTime),
                    Crate(RuntimeDataCrateLabel, TableData(rows), RunTime)])
  }

  /**
   * No selection fails before anything is queried; a successful run queries
   * the criteria fields with the condition text ("" without filters) and
   * appends the payload crate and then the table crate, both RunTime.
   */
  lemma RanSpec(payload: seq<Crate>, storage: seq<Crate>, selectedObject: Option<string>, filters: Option<seq<FilterCondition>>,
                parseConditionToText: seq<FilterCondition> -> string,
                query: (string, seq<string>, string) -> seq<seq<Field>>,
                toPayloadData: seq<seq<Field>> -> seq<seq<Field>>)
    ensures var r := Ran(payload, storage, selectedObject, filters, parseConditionToText, query, toPayloadData);
      && (IsNullOrEmpty(selectedObject) ==> r == Err(DesignTimeDataMissing(NoObjectSelected)))
      && (r.Ok? <==> !IsNullOrEmpty(selectedObject) && QueryFilterFields(storage).Some? && filters.Some?)
      && (r.Ok? ==>
            var rows := query(selectedObject.value, FieldKeys(QueryFilterFields(storage).value),
                              if |filters.value| == 0 then "" else parseConditionToText(filters.value));
            && |r.value| == |payload| + 2 && r.value[..|payload|] == payload
            && r.value[|payload|] == Crate(PayloadDataCrateLabel, PayloadData(toPayloadData(rows)), RunTime)
            && r.value[|payload| + 1] == Crate(RuntimeDataCrateLabel, TableData(rows), RunTime))
  {
  }

  class GetDataActivity {
    var storage: seq<Crate>
    var selection: Option<string>
    var payload: seq<Crate>

    constructor (storage: seq<Crate>, selection: Option<string>, payload: seq<Crate>)
      ensures this.storage == storage && this.selection == selection && this.payload == payload
    {
      this.storage := storage;
      this.selection := selection;
      this.payload := payload;
    }

    function State(): ConfigState
      reads this
    {
      ConfigState(storage, selection)
    }

    method ConfigureETA(selectedObject: Option<string>, getProperties: string -> seq<Field>)
      modifies this
      ensures State() == Configured(old(State()), selectedObject, getProperties)
      ensures payload == old(payload)
    {
      if IsNullOrEmpty(selectedObject) {
        storage := RemoveByLabel(storage, QueryFilterCrateLabel);
        storage := RemoveByLabel(storage, SalesforceObjectFieldsCrateLabel);
        selection := selectedObject;
        return;
      }
      if selectedObject == selection {
        return;
      }
      var selectedObjectProperties := getProperties(selectedObject.value);
      storage := ReplaceByLabel(storage, QueryFilterCrate(selectedObjectProperties));
      storage := ReplaceByLabel(storage, ObjectFieldsCrate(selectedObjectProperties));
      selection := selectedObject;
    }

    method RunETA(selectedObject: Option<string>, filters: Option<seq<FilterCondition>>,
                  parseConditionToText: seq<FilterCondition> -> string,
                  query: (string, seq<string>, string) -> seq<seq<Field>>,
                  toPayloadData: seq<seq<Field>> -> seq<seq<Field>>) returns (failure: Option<Failure>)
      modifies this
      ensures var r := Ran(old(payload), storage, selectedObject, filters, parseConditionToText, query, toPayloadData);
        && (r.Ok? ==> failure.None? && payload == r.value)
        && (r.Err? ==> failure == Some(r.error) && payload == old(payload))
      ensures storage == old(storage) && selection == old(selection)
    {
      if IsNullOrEmpty(selectedObject) {
        return Some(DesignTimeDataMissing(NoObjectSelected));
      }
      var criteria := QueryFilterFields(storage);
      if criteria.None? {
        return Some(InvalidOperation);
      }
      var salesforceObjectFields := FieldKeys(criteria.value);
      if filters.None? {
        return Some(NullReference);
      }
      var parsedCondition := "";
      if |filters.value| > 0 {
        parsedCondition := parseConditionToText(filters.value);
      }
      var resultObjects := query(selectedObject.value, salesforceObjectFields, parsedCondition);
      payload := payload + [Crate(PayloadDataCrateLabel, PayloadData(toPayloadData(resultObjects)), RunTime)];
      payload := payload + [Crate(RuntimeDataCrateLabel, TableData(resultObjects), RunTime)];
      failure := None;
    }
  }
}
