/**
 * Create_Lead_v1 (Salesforce): configuration offers one text source per
 * lead property; a run checks authentication, then the last name, then the
 * company, and creates the lead.
 */
module CreateLead {
  import opened Wrappers
  import opened Strings
  import opened Crates

  const UpstreamFieldsLabel := "Upstream Terminal-Provided Fields"
  const NoLastName := "No last name found in action."
  const NoCompany := "No company name found in action."
  const CreationFailed := "Lead creation is failed"

  /** Whether the storage holds a configuration-controls crate labelled "Configuration_Controls". */
  predicate HasControlsCrate(storage: seq<Crate>) {
    exists c :: c in storage && c.labelText == ControlsCrateLabel && c.content.ConfigurationControls?
  }

  /** ConfigurationEvaluator. */
  function ConfigurationEvaluator(storage: seq<Crate>): (r: RequestType)
    ensures r == Followup <==> |storage| > 0 && HasControlsCrate(storage)
    ensures |storage| == 0 ==> r == Initial
  {
    if |storage| == 0 then Initial
    else if HasControlsCrate(storage) then Followup
    else Initial
  }

  /** The text source offered for one lead property: named and labelled by it, sourced from the upstream fields. */
  function TextSourceFor(property: string): Control {
    Control(property, property, None, TextSource(UpstreamFieldsLabel))
  }

  /** The lead's properties other than "Id", each as a text source, in declaration order. */
  function TextSources(properties: seq<string>): seq<Control> {
    if |properties| == 0 then []
    else (if properties[0] == "Id" then [] else [TextSourceFor(properties[0])]) + TextSources(properties[1..])
  }

  /** A property is offered exactly when it is a lead property other than "Id". */
  lemma {:induction false} TextSourcesMembers(properties: seq<string>, p: string)
    ensures TextSourceFor(p) in TextSources(properties) <==> p in properties && p != "Id"
  {
    if |properties| > 0 {
      TextSourcesMembers(properties[1..], p);
      assert properties == [properties[0]] + properties[1..];
    }
  }

  /** Offering keeps the declaration order: it distributes over concatenation. */
  lemma {:induction false} TextSourcesAppend(a: seq<string>, b: seq<string>)
    ensures TextSources(a + b) == TextSources(a) + TextSources(b)
  {
    if |a| > 0 {
      assert (a + b)[1..] == a[1..] + b;
      TextSourcesAppend(a[1..], b);
    } else {
      assert a + b == b;
    }
  }

  /** AddTextSourceControl applied to each control in turn; `add` stands for that helper. */
  function AddAll(storage: seq<Crate>, controls: seq<Control>, add: (seq<Crate>, Control) -> seq<Crate>): seq<Crate>
    decreases |controls|
  {
    if |controls| == 0 then storage else AddAll(add(storage, controls[0]), controls[1..], add)
  }

  /** InitialConfigurationResponse: clear, add the text sources, then the available-fields crate. */
  function InitialStorage(properties: seq<string>, add: (seq<Crate>, Control) -> seq<Crate>, availableFields: Crate): seq<Crate> {
    AddAll([], TextSources(properties), add) + [availableFields]
  }

  /** The available-fields crate comes last (the old storage was cleared, so InitialStorage does not depend on it). */
  lemma InitialStorageEndsWithFields(properties: seq<string>, add: (seq<Crate>, Control) -> seq<Crate>, availableFields: Crate)
    ensures var r := InitialStorage(properties, add, availableFields);
      |r| > 0 && r[|r| - 1] == availableFields
  {
  }

  /** The run's outcome; every outcome passes the payload on unchanged. */
  datatype Outcome = NeedsAuthenticationError | Error(message: string) | Success

  const LeadFieldNames: seq<string> := ["FirstName", "LastName", "Company", "Title", "Phone", "Mobile", "Fax",
    "Email", "Website", "Street", "City", "State", "Zip", "Country", "Description"]

  /** The lead: each field's specific or upstream value. */
  function Lead(extract: string -> Option<string>): map<string, Option<string>> {
    map n | n in LeadFieldNames :: extract(n)
  }

  /**
   * Run. `needsAuthentication` is the token check, `extract` stands for
   * ExtractSpecificOrUpstreamValue and `createObject` for the Salesforce call.
   */
  function Run(needsAuthentication: bool, extract: string -> Option<string>,
               createObject: map<string, Option<string>> -> bool): Outcome {
    if needsAuthentication then NeedsAuthenticationError
    else if IsNullOrEmpty(extract("LastName")) then Error(NoLastName)
    else if IsNullOrEmpty(extract("Company")) then Error(NoCompany)
    else if createObject(Lead(extract)) then Success
    else Error(CreationFailed)
  }

  /**
   * The checks come in a fixed order: authentication, then the last name,
   * then the company; only a lead with both is created, and the creation
   * result decides between Success and "Lead creation is failed".
   */
  lemma RunSpec(needsAuthentication: bool, extract: string -> Option<string>,
                createObject: map<string, Option<string>> -> bool)
    ensures var r := Run(needsAuthentication, extract, createObject);
      && (needsAuthentication <==> r == NeedsAuthenticationError)
      && (r == Error(NoLastName) <==> !needsAuthentication && IsNullOrEmpty(extract("LastName")))
      && (r == Error(NoCompany) <==> !needsAuthentication && !IsNullOrEmpty(extract("LastName"))
                                     && IsNullOrEmpty(extract("Company")))
      && (r == Success <==> !needsAuthentication && !IsNullOrEmpty(extract("LastName"))
                            && !IsNullOrEmpty(extract("Company")) && createObject(Lead(extract)))
      && (r.Error? ==> r.message == NoLastName || r.message == NoCompany || r.message == CreationFailed)
  {
  }

  /** The lead sent to Salesforce carries exactly the fifteen fields, each its extracted value. */
  lemma LeadFields(extract: string -> Option<string>)
    ensures Lead(extract).Keys == set n | n in LeadFieldNames
    ensures "LastName" in Lead(extract) && Lead(extract)["LastName"] == extract("LastName")
    ensures "Id" !in Lead(extract)
  {
  }

  class CreateLeadActivity {
    var storage: seq<Crate>

    constructor (storage: seq<Crate>)
      ensures this.storage == storage
    {
      this.storage := storage;
    }

    method InitialConfigurationResponse(properties: seq<string>, add: (seq<Crate>, Control) -> seq<Crate>, availableFields: Crate)
      modifies this
      ensures storage == InitialStorage(properties, add, availableFields)
    {
      storage := [];
      var controls := TextSources(properties);
      var i := 0;
      while i < |controls|
        invariant 0 <= i <= |controls|
        invariant AddAll(storage, controls[i..], add) == AddAll([], controls, add)
      {
        assert controls[i..][0] == controls[i] && controls[i..][1..] == controls[i + 1..];
        storage := add(storage, controls[i]);
        i := i + 1;
      }
      storage := storage + [availableFields];
    }
  }
}
