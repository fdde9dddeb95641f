/**
 * The Salesforce terminal's event service: it turns an outbound-message
 * envelope into a "Standard Event Report" crate whose event names say, per
 * notification, which object type was created or updated.
 */
module SalesforceEvent {
  import opened Wrappers
  import opened Strings
  import opened Crates

  /** The notified object; dates are instants, compared as numbers. */
  datatype SObject = SObject(objectType: string, id: Option<string>, ownerId: string, createdDate: int, lastModifiedDate: int)

  /** The parsed envelope: its notification list may be absent. */
  datatype Envelope = Envelope(notificationList: Option<seq<SObject>>)

  const ReportLabel := "Standard Event Report"
  const PayloadLabel := "Salesforce Event Notification Payload"
  const Manufacturer := "Salesforce"
  const ErrorPrefix := "Error while processing. \r\n"

  /** The object type without its namespace: what follows the last ':'. */
  function ObjectTypeName(o: SObject): string {
    AfterLast(o.objectType, ':')
  }

  /** ExtractOccuredEvent; None where it throws InvalidOperationException. */
  function OccuredEvent(o: SObject): Option<string> {
    if o.createdDate == o.lastModifiedDate then Some(ObjectTypeName(o) + "Created")
    else if o.createdDate < o.lastModifiedDate then Some(ObjectTypeName(o) + "Updated")
    else None
  }

  /** An event name is the namespace-free type followed by "Created" or "Updated"; it fails only when the object was modified before it was created. */
  lemma OccuredEventSpec(o: SObject)
    ensures OccuredEvent(o).None? <==> o.createdDate > o.lastModifiedDate
    ensures OccuredEvent(o).Some? ==>
      var n := OccuredEvent(o).value;
      var t := ObjectTypeName(o);
      && |n| > |t| && n[..|t|] == t
      && (forall i :: 0 <= i < |t| ==> t[i] != ':')
      && t == o.objectType[|o.objectType| - |t|..]
      && (n[|t|..] == "Created" <==> o.createdDate == o.lastModifiedDate)
      && (n[|t|..] == "Updated" <==> o.createdDate < o.lastModifiedDate)
  {
    var t := ObjectTypeName(o);
    if OccuredEvent(o).Some? {
      var n := OccuredEvent(o).value;
      assert n[..|t|] == t;
      assert n[|t|..] == "Created" || n[|t|..] == "Updated";
    }
  }

  /** The event name of every notification, in order; None when any of them fails. */
  function EventNameList(list: seq<SObject>): (r: Option<seq<string>>)
    ensures r.Some? <==> forall i :: 0 <= i < |list| ==> OccuredEvent(list[i]).Some?
    ensures r.Some? ==> (|r.value| == |list|
      && forall i :: 0 <= i < |list| ==> r.value[i] == OccuredEvent(list[i]).value)
  {
    if |list| == 0 then Some([])
    else
      match OccuredEvent(list[0])
      case None => None
      case Some(n) =>
        match EventNameList(list[1..])
        case None => None
        case Some(rest) => Some([n] + rest)
  }

  /** GetEventNames: the names joined by ','. */
  function EventNames(list: seq<SObject>): Option<string> {
    match EventNameList(list)
    case None => None
    case Some(names) => Some(Join(names, ","))
  }

  /** An event name holds a ',' only if the object type does. */
  lemma EventNameFree(o: SObject)
    requires OccuredEvent(o).Some?
    requires forall j :: 0 <= j < |o.objectType| ==> o.objectType[j] != ','
    ensures forall i :: 0 <= i < |OccuredEvent(o).value| ==> OccuredEvent(o).value[i] != ','

  {
    var t := ObjectTypeName(o);
    var n := OccuredEvent(o).value;
    assert n == t + "Created" || n == t + "Updated";
    forall i | 0 <= i < |n| ensures n[i] != ',' {
      if i < |t| {
        assert n[i] == t[i] == o.objectType[|o.objectType| - |t| + i];
      }
    }
  }

  /** When no object type holds a ',', the event names split back into one name per notification. */
  lemma EventNamesSplit(list: seq<SObject>)
    requires |list| > 0
    requires forall i :: 0 <= i < |list| ==> OccuredEvent(list[i]).Some?
    requires forall i, j :: 0 <= i < |list| && 0 <= j < |list[i].objectType| ==> list[i].objectType[j] != ','
    ensures EventNames(list).Some?
    ensures var parts := Split(EventNames(list).value, ',');
      |parts| == |list| && forall i :: 0 <= i < |list| ==> parts[i] == OccuredEvent(list[i]).value
  {
    var names := EventNameList(list).value;
    forall k | 0 <= k < |names|
      ensures forall i :: 0 <= i < |names[k]| ==> names[k][i] != ','
    {
      EventNameFree(list[k]);
    }
    assert "," == [','];
    JoinSplit(names, ',');
  }

  /** CreateKeyValuePairList: exactly these five fields, in this order. */
  function NotificationFields(o: SObject, dateToString: int -> string): (r: seq<Field>)
    requires OccuredEvent(o).Some?
    ensures |r| == 5
    ensures r[0].key == "ObjectType" && r[1].key == "Id" && r[2].key == "CreatedDate"
         && r[3].key == "LastModifiedDate" && r[4].key == "OccuredEvent"
    ensures r[0].value == Some(ObjectTypeName(o)) && r[1].value == o.id
         && r[2].value == Some(dateToString(o.createdDate))
         && r[3].value == Some(dateToString(o.lastModifiedDate))
         && r[4].value == OccuredEvent(o)
  {
    [KeyValue("ObjectType", Some(ObjectTypeName(o))),
     KeyValue("Id", o.id),
     KeyValue("CreatedDate", Some(dateToString(o.createdDate))),
     KeyValue("LastModifiedDate", Some(dateToString(o.lastModifiedDate))),
     KeyValue("OccuredEvent", OccuredEvent(o))]
  }

  /** All notifications' payload objects, in order (the prefix is built first). */
  function PayloadObjects(list: seq<SObject>, dateToString: int -> string): seq<seq<Field>>
    requires forall i :: 0 <= i < |list| ==> OccuredEvent(list[i]).Some?
  {
    if |list| == 0 then []
    else PayloadObjects(list[..|list| - 1], dateToString) + [NotificationFields(list[|list| - 1], dateToString)]
  }

  lemma {:induction false} PayloadObjectsLength(list: seq<SObject>, dateToString: int -> string)
    requires forall i :: 0 <= i < |list| ==> OccuredEvent(list[i]).Some?
    ensures |PayloadObjects(list, dateToString)| == |list|
  {
    if |list| > 0 {
      var n := |list| - 1;
      assert forall i :: 0 <= i < n ==> list[..n][i] == list[i];
      PayloadObjectsLength(list[..n], dateToString);
    }
  }

  /** One payload object per notification, each the notification's five fields. */
  lemma {:induction false} PayloadObjectsSpec(list: seq<SObject>, dateToString: int -> string, i: int)
    requires forall i :: 0 <= i < |list| ==> OccuredEvent(list[i]).Some?
    requires 0 <= i < |list|
    ensures |PayloadObjects(list, dateToString)| == |list|
    ensures PayloadObjects(list, dateToString)[i] == NotificationFields(list[i], dateToString)
  {
    PayloadObjectsLength(list, dateToString);
    var n := |list| - 1;
    assert forall j :: 0 <= j < n ==> list[..n][j] == list[j];
    if i < n {
      PayloadObjectsSpec(list[..n], dateToString, i);
    }
  }

  /** ExtractEventPayload: a storage holding the single payload crate. */
  method ExtractEventPayload(list: seq<SObject>, dateToString: int -> string) returns (storage: seq<Crate>)
    requires forall i :: 0 <= i < |list| ==> OccuredEvent(list[i]).Some?
    ensures storage == [Crate(PayloadLabel, PayloadData(PayloadObjects(list, dateToString)), NotSet)]
  {
    var objects: seq<seq<Field>> := [];
    var i := 0;
    while i < |list|
      invariant 0 <= i <= |list|
      invariant objects == PayloadObjects(list[..i], dateToString)
    {
      assert list[..i + 1][..i] == list[..i];
      objects := objects + [NotificationFields(list[i], dateToString)];
      i := i + 1;
    }
    assert list[..i] == list;
    storage := [Crate(PayloadLabel, PayloadData(objects), NotSet)];
  }

  /** The account of the first notification, or "" without any. */
  function AccountId(list: Option<seq<SObject>>): string {
    if list.Some? && |list.value| > 0 then list.value[0].ownerId else ""
  }

  /** ProcessEvent: the report crate, or the rethrown error naming the payload. */
  function Processed(payload: string, parse: string -> Option<Envelope>, dateToString: int -> string): Result<Crate, string> {
    var envelope := parse(payload);
    if envelope.None? || envelope.value.notificationList.None?
       || EventNames(envelope.value.notificationList.value).None?
    then Err(ErrorPrefix + payload)
    else
      var list := envelope.value.notificationList.value;
      var report := Report(EventNames(list).value, "", AccountId(envelope.value.notificationList), Manufacturer,
                           [Crate(PayloadLabel, PayloadData(PayloadObjects(list, dateToString)), NotSet)]);
      Ok(Crate(ReportLabel, EventReport(report), NotSet))
  }

  /**
   * ProcessEvent succeeds exactly when the payload parses, has a
   * notification list and every notification has a reason; the report then
   * carries the fixed label, manufacturer and container id, the first owner
   * as account, the per-notification event names joined by ',' in
   * notification order, and one payload object per notification, each that
   * notification's five fields.
   */
  lemma ProcessedSpec(payload: string, parse: string -> Option<Envelope>, dateToString: int -> string)
    ensures var r := Processed(payload, parse, dateToString);
      && (r.Ok? <==> (parse(payload).Some? && parse(payload).value.notificationList.Some?
            && forall i :: 0 <= i < |parse(payload).value.notificationList.value| ==>
                 OccuredEvent(parse(payload).value.notificationList.value[i]).Some?))
      && (r.Err? ==> r.error == ErrorPrefix + payload)
      && (r.Ok? ==>
            var list := parse(payload).value.notificationList.value;
            && r.value.labelText == ReportLabel && r.value.content.EventReport?
            && r.value.content.report.manufacturer == Manufacturer
            && r.value.content.report.containerDoId == ""
            && r.value.content.report.externalAccountId == (if |list| > 0 then list[0].ownerId else "")
            && |r.value.content.report.eventPayload| == 1
            && r.value.content.report.eventPayload[0].labelText == PayloadLabel
            && r.value.content.report.eventNames == Join(EventNameList(list).value, ",")
            && |r.value.content.report.eventPayload[0].content.objects| == |list|
            && forall i :: 0 <= i < |list| ==>
                 r.value.content.report.eventPayload[0].content.objects[i] == NotificationFields(list[i], dateToString))
  {
    var envelope := parse(payload);
    if envelope.Some? && envelope.value.notificationList.Some? {
      var list := envelope.value.notificationList.value;
      if EventNames(list).Some? {
        var objects := PayloadObjects(list, dateToString);
        PayloadObjectsLength(list, dateToString);
        forall i | 0 <= i < |list|
          ensures objects[i] == NotificationFields(list[i], dateToString)
        {
          PayloadObjectsSpec(list, dateToString, i);
        }
        var report := Report(EventNames(list).value, "", AccountId(envelope.value.notificationList), Manufacturer,
                             [Crate(PayloadLabel, PayloadData(objects), NotSet)]);
        assert Processed(payload, parse, dateToString) == Ok(Crate(ReportLabel, EventReport(report), NotSet));
      }
    }
  }

  /** The event service. */
  method ProcessEvent(payload: string, parse: string -> Option<Envelope>, dateToString: int -> string)
    returns (r: Result<Crate, string>)
    ensures r == Processed(payload, parse, dateToString)
  {
    var envelope := parse(payload);
    if envelope.None? || envelope.value.notificationList.None? {
      return Err(ErrorPrefix + payload);
    }
    var list := envelope.value.notificationList.value;
    var accountId := "";
    if |list| > 0 {
      accountId := list[0].ownerId;
    }
    var names := EventNames(list);
    if names.None? {
      return Err(ErrorPrefix + payload);
    }
    var storage := ExtractEventPayload(list, dateToString);
    var report := Report(names.value, "", accountId, Manufacturer, storage);
    r := Ok(Crate(ReportLabel, EventReport(report), NotSet));
  }
}
