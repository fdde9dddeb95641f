/**
 * Publish_To_Slack_v1: configuration offers a channel and a message field
 * to choose; a run checks the token, the channel and the field name, finds
 * the field among the payload's fields and posts its value to the channel.
 */
module PublishToSlack {
  import opened Wrappers
  import opened Strings
  import opened Crates

  const NoAuthToken := "No AuthToken provided."
  const NoChannel := "No selected channelId found in action."
  const NoFieldSelected := "No selected field found in action."
  const NoFieldFound := "No specified field found in action."

  const ChannelControlName := "Selected_Slack_Channel"
  const MessageFieldControlName := "Select_Message_Field"
  const AvailableChannelsLabel := "Available Channels"
  const AvailableFieldsLabel := "Available Fields"

  /** ConfigurationEvaluator: Initial exactly for an empty storage. */
  function ConfigurationEvaluator(storage: seq<Crate>): (r: RequestType)
    ensures r == Initial <==> |storage| == 0
  {
    if |storage| == 0 then Initial else Followup
  }

  /** The two drop-down lists, for the channel and for the message field. */
  function SlackControls(): seq<Control> {
    [Control(ChannelControlName, "Select Slack Channel", None, DropDownList([], None)),
     Control(MessageFieldControlName, "Select Message Field", None, DropDownList([], None))]
  }

  /** InitialConfigurationResponse: the controls, channels and fields crates, appended in that order. */
  function InitialStorage(storage: seq<Crate>, channels: seq<Field>, upstreamFields: seq<Field>): seq<Crate> {
    storage + [PackControlsCrate(SlackControls()),
               DesignTimeFieldsCrate(AvailableChannelsLabel, channels),
               DesignTimeFieldsCrate(AvailableFieldsLabel, upstreamFields)]
  }

  /** After the initial response the storage is not empty, so the next configuration is a follow-up. */
  lemma InitialThenFollowup(storage: seq<Crate>, channels: seq<Field>, upstreamFields: seq<Field>)
    ensures ConfigurationEvaluator(InitialStorage(storage, channels, upstreamFields)) == Followup
    ensures var r := InitialStorage(storage, channels, upstreamFields);
      |r| == |storage| + 3 && r[..|storage|] == storage
  {
  }

  /**
   * The field lists of the standard-payload crates, concatenated in storage
   * order. `parse` stands for deserialising a crate's contents as a field list.
   */
  function PayloadFields(crates: seq<Crate>, parse: Crate -> seq<Field>): seq<Field> {
    if |crates| == 0 then []
    else
      var last := crates[|crates| - 1];
      PayloadFields(crates[..|crates| - 1], parse) + (if last.content.PayloadData? then parse(last) else [])
  }

  /** A field is collected exactly when some standard-payload crate holds it. */
  lemma {:induction false} PayloadFieldsMembers(crates: seq<Crate>, parse: Crate -> seq<Field>, f: Field)
    ensures f in PayloadFields(crates, parse) <==> exists c :: c in crates && c.content.PayloadData? && f in parse(c)
  {
    if |crates| > 0 {
      var n := |crates| - 1;
      PayloadFieldsMembers(crates[..n], parse, f);
      assert crates == crates[..n] + [crates[n]];
      if f in PayloadFields(crates, parse) && f !in PayloadFields(crates[..n], parse) {
        assert crates[n] in crates;
      }
    }
  }

  /** Collection keeps the storage order: it distributes over concatenation. */
  lemma {:induction false} PayloadFieldsAppend(a: seq<Crate>, b: seq<Crate>, parse: Crate -> seq<Field>)
    ensures PayloadFields(a + b, parse) == PayloadFields(a, parse) + PayloadFields(b, parse)
  {
    if |b| == 0 {
      assert a + b == a;
    } else {
      var n := |b| - 1;
      assert (a + b)[..|a + b| - 1] == a + b[..n];
      assert (a + b)[|a + b| - 1] == b[n];
      PayloadFieldsAppend(a, b[..n], parse);
    }
  }

  /** ExtractPayloadFields. */
  method ExtractPayloadFields(crates: seq<Crate>, parse: Crate -> seq<Field>) returns (result: seq<Field>)
    ensures result == PayloadFields(crates, parse)
  {
    result := [];
    var i := 0;
    while i < |crates|
      invariant 0 <= i <= |crates|
      invariant result == PayloadFields(crates[..i], parse)
    {
      assert crates[..i + 1][..i] == crates[..i];
      if crates[i].content.PayloadData? {
        result := result + parse(crates[i]);
      }
      i := i + 1;
    }
    assert crates[..i] == crates;
  }

  /** The message posted: the channel and the chosen field's value. */
  datatype SlackPost = SlackPost(channelId: string, text: Option<string>)

  /**
   * Run: the message to post, or the ApplicationException's message. The
   * channel id and the field name are the values of the two controls.
   */
  function Ran(needsAuthentication: bool, channelId: Option<string>, fieldName: Option<string>,
               payload: seq<Crate>, parse: Crate -> seq<Field>): Result<SlackPost, string>
  {
    if needsAuthentication then Err(NoAuthToken)
    else if IsNullOrEmpty(channelId) then Err(NoChannel)
    else if IsNullOrEmpty(fieldName) then Err(NoFieldSelected)
    else
      match FirstWithKey(PayloadFields(payload, parse), fieldName.value)
      case None => Err(NoFieldFound)
      case Some(f) => Ok(SlackPost(channelId.value, f.value))
  }

  /**
   * The checks come in a fixed order (token, channel, field name, field);
   * without a token the payload is never looked at; a post goes to the
   * selected channel with the value of the first payload field carrying the
   * selected name, and fails only when no payload crate has such a field.
   */
  lemma RanSpec(needsAuthentication: bool, channelId: Option<string>, fieldName: Option<string>,
                payload: seq<Crate>, parse: Crate -> seq<Field>)
    ensures var r := Ran(needsAuthentication, channelId, fieldName, payload, parse);
      var fields := PayloadFields(payload, parse);
      && (needsAuthentication ==> r == Err(NoAuthToken))
      && (!needsAuthentication && IsNullOrEmpty(channelId) ==> r == Err(NoChannel))
      && (!needsAuthentication && !IsNullOrEmpty(channelId) && IsNullOrEmpty(fieldName) ==> r == Err(NoFieldSelected))
      && (r == Err(NoFieldFound) <==>
            (!needsAuthentication && !IsNullOrEmpty(channelId) && !IsNullOrEmpty(fieldName)
             && forall c, f :: c in payload && c.content.PayloadData? && f in parse(c) ==> f.key != fieldName.value))
      && (r.Ok? ==>
            (!needsAuthentication && !IsNullOrEmpty(channelId) && !IsNullOrEmpty(fieldName)
             && r.value.channelId == channelId.value
             && exists i :: 0 <= i < |fields| && fields[i].key == fieldName.value && r.value.text == fields[i].value
                            && forall j :: 0 <= j < i ==> fields[j].key != fieldName.value))
  {
    var r := Ran(needsAuthentication, channelId, fieldName, payload, parse);
    var fields := PayloadFields(payload, parse);
    if !needsAuthentication && !IsNullOrEmpty(channelId) && !IsNullOrEmpty(fieldName) {
      var key := fieldName.value;
      forall c, f | c in payload && c.content.PayloadData? && f in parse(c)
        ensures FirstWithKey(fields, key).None? ==> f.key != key
      {
        PayloadFieldsMembers(payload, parse, f);
      }
      if FirstWithKey(fields, key).Some? {
        var g := FirstWithKey(fields, key).value;
        PayloadFieldsMembers(payload, parse, g);
        FirstWithKeyIsFirst(fields, key);
      }
    }
  }

  /** Run: the payload itself is handed back unchanged; the post is returned for the caller to send. */
  method Run(needsAuthentication: bool, channelId: Option<string>, fieldName: Option<string>,
             payload: seq<Crate>, parse: Crate -> seq<Field>) returns (r: Result<SlackPost, string>)
    ensures r == Ran(needsAuthentication, channelId, fieldName, payload, parse)
  {
    if needsAuthentication {
      return Err(NoAuthToken);
    }
    if IsNullOrEmpty(channelId) {
      return Err(NoChannel);
    }
    if IsNullOrEmpty(fieldName) {
      return Err(NoFieldSelected);
    }
    var payloadFields := ExtractPayloadFields(payload, parse);
    var payloadMessageField := FirstWithKey(payloadFields, fieldName.value);
    if payloadMessageField.None? {
      return Err(NoFieldFound);
    }
    r := Ok(SlackPost(channelId.value, payloadMessageField.value.value));
  }

  /** The activity's crate storage during configuration. */
  class PublishToSlackActivity {
    var storage: seq<Crate>

    constructor (storage: seq<Crate>)
      ensures this.storage == storage
    {
      this.storage := storage;
    }

    method InitialConfigurationResponse(channels: seq<Field>, upstreamFields: seq<Field>)
      modifies this
      ensures storage == InitialStorage(old(storage), channels, upstreamFields)
    {
      var crateControls := PackControlsCrate(SlackControls());
      var crateAvailableChannels := DesignTimeFieldsCrate(AvailableChannelsLabel, channels);
      var crateAvailableFields := DesignTimeFieldsCrate(AvailableFieldsLabel, upstreamFields);
      storage := storage + [crateControls];
      storage := storage + [crateAvailableChannels];
      storage := storage + [crateAvailableFields];
    }
  }
}
