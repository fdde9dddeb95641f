/**
 * Crates: the labelled, typed units of configuration and payload data that
 * activities keep in their storage, and the fields and controls inside them.
 * A crate's content is a tagged union over the manifest types the core uses.
 */
module Crates {
  import opened Wrappers

  /** FieldDTO: a key, a nullable value and the label of the crate it comes from. */
  datatype Field = Field(key: string, value: Option<string>, sourceCrateLabel: Option<string>)

  function KeyValue(key: string, value: Option<string>): Field {
    Field(key, value, None)
  }

  datatype Availability = NotSet | Configuration | RunTime | Always

  datatype ListItem = ListItem(key: string, value: string)

  /** The control kinds the modelled activities inspect. */
  datatype ControlKind =
    | TextBox
    | TextSource(sourceLabel: string)
    | DropDownList(items: seq<ListItem>, selectedKey: Option<string>)
    | Button(clicked: bool)
    | OtherControl

  /** ControlDefinitionDTO: the name, label and value of one control. */
  datatype Control = Control(name: string, labelText: string, value: Option<string>, kind: ControlKind)

  /** The manifest-typed content a crate carries. */
  datatype Content =
    | ConfigurationControls(controls: seq<Control>)   // StandardConfigurationControlsCM
    | FieldDescriptions(fields: seq<Field>)           // FieldDescriptionsCM / design-time fields
    | PayloadData(objects: seq<seq<Field>>)           // StandardPayloadDataCM
    | TableData(rows: seq<seq<Field>>)                // StandardTableDataCM
    | EventReport(report: Report)                     // EventReportCM
    | OtherContent(manifestType: string)

  /** EventReportCM */
  datatype Report = Report(
    eventNames: string,
    containerDoId: string,
    externalAccountId: string,
    manufacturer: string,
    eventPayload: seq<Crate>)

  datatype Crate = Crate(labelText: string, content: Content, availability: Availability)

  /** The label under which an activity keeps its configuration controls. */
  const ControlsCrateLabel := "Configuration_Controls"

  /** PackControlsCrate: the controls in one configuration-controls crate. */
  function PackControlsCrate(controls: seq<Control>): Crate {
    Crate(ControlsCrateLabel, ConfigurationControls(controls), NotSet)
  }

  /** CreateDesignTimeFieldsCrate: the fields in one field-descriptions crate. */
  function DesignTimeFieldsCrate(labelText: string, fields: seq<Field>): Crate {
    Crate(labelText, FieldDescriptions(fields), NotSet)
  }

  /** ConfigurationRequestType: which configuration response an activity gives. */
  datatype RequestType = Initial | Followup

  /** CrateStorage.RemoveByLabel: every crate with that label goes. */
  function RemoveByLabel(storage: seq<Crate>, labelText: string): (r: seq<Crate>)
    ensures forall c :: c in r <==> c in storage && c.labelText != labelText
    ensures |r| <= |storage|
  {
    if |storage| == 0 then []
    else (if storage[0].labelText == labelText then [] else [storage[0]]) + RemoveByLabel(storage[1..], labelText)
  }

  /** CrateStorage.ReplaceByLabel: drops the crates with the new crate's label, then adds it. */
  function ReplaceByLabel(storage: seq<Crate>, crate: Crate): (r: seq<Crate>)
    ensures |r| > 0 && r[|r| - 1] == crate
    ensures forall c :: c in r && c.labelText == crate.labelText ==> c == crate
  {
    RemoveByLabel(storage, crate.labelText) + [crate]
  }

  /** The control lists of all configuration-controls crates, in storage order. */
  function ControlsCrates(storage: seq<Crate>): (r: seq<seq<Control>>)
    ensures |r| <= |storage|
  {
    if |storage| == 0 then []
    else
      (if storage[0].content.ConfigurationControls? then [storage[0].content.controls] else [])
      + ControlsCrates(storage[1..])
  }

  /** A control list is collected exactly when some configuration-controls crate holds it. */
  lemma {:induction false} ControlsCratesMembers(storage: seq<Crate>, cs: seq<Control>)
    ensures cs in ControlsCrates(storage) <==>
      exists c :: c in storage && c.content.ConfigurationControls? && c.content.controls == cs
  {
    if |storage| > 0 {
      ControlsCratesMembers(storage[1..], cs);
      assert storage == [storage[0]] + storage[1..];
    }
  }

  /** Collection keeps the storage order: it distributes over concatenation. */
  lemma {:induction false} ControlsCratesAppend(a: seq<Crate>, b: seq<Crate>)
    ensures ControlsCrates(a + b) == ControlsCrates(a) + ControlsCrates(b)
  {
    if |a| > 0 {
      assert (a + b)[0] == a[0] && (a + b)[1..] == a[1..] + b;
      ControlsCratesAppend(a[1..], b);
    } else {
      assert a + b == b;
    }
  }

  /** The first control with the given name (ControlDefinitionDTO lookup by Name). */
  function FindControl(controls: seq<Control>, name: string): (r: Option<Control>)
    ensures r.Some? ==> r.value in controls && r.value.name == name
    ensures r.None? <==> forall c :: c in controls ==> c.name != name
  {
    if |controls| == 0 then None
    else if controls[0].name == name then Some(controls[0])
    else FindControl(controls[1..], name)
  }

  /** The first control with that name in any configuration-controls crate. */
  function FindControlInStorage(storage: seq<Crate>, name: string): Option<Control> {
    if |storage| == 0 then None
    else if storage[0].content.ConfigurationControls? && FindControl(storage[0].content.controls, name).Some? then
      FindControl(storage[0].content.controls, name)
    else FindControlInStorage(storage[1..], name)
  }

  /** The first field with the given key (FirstOrDefault(x => x.Key == key)). */
  function FirstWithKey(fields: seq<Field>, key: string): (r: Option<Field>)
    ensures r.Some? ==> r.value in fields && r.value.key == key
    ensures r.None? <==> forall f :: f in fields ==> f.key != key
  {
    if |fields| == 0 then None
    else if fields[0].key == key then Some(fields[0])
    else FirstWithKey(fields[1..], key)
  }

  /** The field FirstWithKey finds is the first one with that key. */
  lemma {:induction false} FirstWithKeyIsFirst(fields: seq<Field>, key: string)
    requires FirstWithKey(fields, key).Some?
    ensures exists i :: 0 <= i < |fields| && fields[i] == FirstWithKey(fields, key).value
                        && forall j :: 0 <= j < i ==> fields[j].key != key
  {
    if fields[0].key != key {
      FirstWithKeyIsFirst(fields[1..], key);
      var i :| 0 <= i < |fields[1..]| && fields[1..][i] == FirstWithKey(fields, key).value
               && forall j :: 0 <= j < i ==> fields[1..][j].key != key;
      assert fields[i + 1] == FirstWithKey(fields, key).value;
      assert forall j :: 0 <= j < i + 1 ==> fields[j].key != key by {
        forall j | 0 <= j < i + 1 ensures fields[j].key != key {
          if j > 0 { assert fields[j] == fields[1..][j - 1]; }
        }
      }
    } else {
      assert fields[0] == FirstWithKey(fields, key).value;
    }
  }
}
