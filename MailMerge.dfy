/**
 * Mail_Merge_Into_DocuSign_v1: a solution that chains a table-data source
 * activity and a Send DocuSign Envelope activity. Modelled here: the
 * configuration-phase decision, validation of the two drop-down lists, the
 * test for table-generating sources, the first child's detection and
 * creation (it goes to the front of the children), and the documentation
 * routing.
 */
module MailMerge {
  import opened Wrappers
  import opened Strings
  import opened Crates

  const SolutionName := "Mail Merge Into DocuSign"
  const SolutionVersion: real := 1.0
  const TerminalName := "DocuSign"
  const SolutionBody :=
    "<p>This solution is designed to take data from any table-like source(initially supported: Microsoft Excel and Google Sheets) and create and send DocuSign Envelopes.A DocuSign Template is used to generate the envelopes, and Fr8 makes it easy to map data from the sources to the DocuSign Template for automatic insertion.</p>\n"
    + "                                              <p>This Activity also highlights the use of the Loop activity, which can process any amount of table data, one row at a time.</p>\n"
    + "                                              <iframe src='https://player.vimeo.com/video/162762690' width='500' height='343' frameborder='0' webkitallowfullscreen mozallowfullscreen allowfullscreen></iframe>"

  const DataSourceName := "DataSource"
  const TemplateName := "DocuSignTemplate"
  const ContinueName := "Continue"
  const NotSelected := "Data source is not selected"
  const NoDataSource := "No data source exists"

  /** An activity template: its name and its comma-separated tags (null allowed). */
  datatype ActivityTemplate = ActivityTemplate(name: string, tags: Option<string>)

  /** A child activity of the solution: its id, its template's name and its ordering. */
  datatype ChildActivity = ChildActivity(id: int, templateName: string, ordering: int)

  datatype Failure =
    | NullReference      // a control the code dereferences is missing
    | InvalidOperation   // Single without exactly one match

  // ---------------------------------------------------------------------
  // Controls

  /** GetControl<Button>: the control with that name, when it is a button. */
  function GetButton(storage: seq<Crate>, name: string): (r: Option<Control>)
    ensures r.Some? ==> r.value.kind.Button? && r.value.name == name
  {
    var c := FindControlInStorage(storage, name);
    if c.Some? && c.value.kind.Button? && c.value.name == name then c else None
  }

  /** GetControl<DropDownList>: the control with that name, when it is a drop-down list. */
  function GetDropDown(storage: seq<Crate>, name: string): (r: Option<Control>)
    ensures r.Some? ==> r.value.kind.DropDownList? && r.value.name == name
  {
    var c := FindControlInStorage(storage, name);
    if c.Some? && c.value.kind.DropDownList? && c.value.name == name then c else None
  }

  // ---------------------------------------------------------------------
  // Table data

  /** Any(t => t.ToLowerInvariant().Contains("table")), tag by tag. */
  function AnyTableTag(tags: seq<string>): (r: bool)
    ensures r <==> exists t :: t in tags && Contains(ToLower(t), "table")
  {
    if |tags| == 0 then false
    else Contains(ToLower(tags[0]), "table") || (assert forall t :: t in tags[1..] ==> t in tags; AnyTableTag(tags[1..]))
  }

  /** DoesActivityTemplateGenerateTableData. */
  function GeneratesTableData(template: ActivityTemplate): (r: bool)
    ensures r <==> template.tags.Some? && exists t :: t in Split(template.tags.value, ',') && Contains(ToLower(t), "table")
  {
    template.tags.Some? && AnyTableTag(Split(template.tags.value, ','))
  }

  // ---------------------------------------------------------------------
  // Configuration request type

  /** The state GetConfigurationRequestType reads and writes. */
  datatype MailMergeState = MailMergeState(
    storage: Option<seq<Crate>>,
    children: Option<seq<ChildActivity>>,
    dataSourceValue: Option<string>,
    docuSignTemplate: Option<Control>)

  /** The request type; Err where the "DataSource" list is missing and dereferenced. */
  function RequestTypeOf(s: MailMergeState): Result<RequestType, Failure> {
    if s.storage.None? || |s.storage.value| == 0 then Ok(Initial)
    else
      var button := GetButton(s.storage.value, ContinueName);
      if button.None? then Ok(Initial)
      else if !button.value.kind.clicked && (s.children.None? || |s.children.value| == 0) then Ok(Initial)
      else if GetDropDown(s.storage.value, DataSourceName).None? then Err(NullReference)
      else Ok(Followup)
  }

  /** GetConfigurationRequestType: the request type and the fields it records on the way. */
  function AfterRequestType(s: MailMergeState): MailMergeState {
    if RequestTypeOf(s) == Ok(Followup) then
      var dataSource := GetDropDown(s.storage.value, DataSourceName).value;
      s.(dataSourceValue := if dataSource.value.Some? then dataSource.value else s.dataSourceValue,
         docuSignTemplate := GetDropDown(s.storage.value, TemplateName))
    else s
  }

  /**
   * Follow-up exactly when the storage is non-empty, the "Continue" button
   * exists, it was clicked or children already exist, and the "DataSource"
   * list exists; only then are fields recorded, and the data source value
   * only when it is not null.
   */
  lemma RequestTypeSpec(s: MailMergeState)
    ensures RequestTypeOf(s) == Ok(Followup) <==>
      (s.storage.Some? && |s.storage.value| > 0 && GetButton(s.storage.value, ContinueName).Some?
       && (GetButton(s.storage.value, ContinueName).value.kind.clicked || (s.children.Some? && |s.children.value| > 0))
       && GetDropDown(s.storage.value, DataSourceName).Some?)
    ensures s.storage.None? || |s.storage.value| == 0 ==> RequestTypeOf(s) == Ok(Initial)
    ensures RequestTypeOf(s) != Ok(Followup) ==> AfterRequestType(s) == s
    ensures RequestTypeOf(s) == Ok(Followup) ==>
      var dataSource := GetDropDown(s.storage.value, DataSourceName).value;
      && AfterRequestType(s).dataSourceValue == (if dataSource.value.Some? then dataSource.value else s.dataSourceValue)
      && AfterRequestType(s).docuSignTemplate == GetDropDown(s.storage.value, TemplateName)
      && AfterRequestType(s).storage == s.storage && AfterRequestType(s).children == s.children
  {
  }

  // ---------------------------------------------------------------------
  // Validation

  /** Validate's result: whether configuration is valid, and the error set on the data source list. */
  datatype Validation = Validation(valid: bool, sourceError: Option<string>)

  /** Validate. */
  function Validate(storage: seq<Crate>): Validation {
    if GetDropDown(storage, TemplateName).None? then Validation(false, None)
    else
      var source := GetDropDown(storage, DataSourceName);
      if source.None? then Validation(false, None)
      else if |source.value.kind.items| > 0 then
        Validation(true, if IsNullOrEmpty(source.value.kind.selectedKey) then Some(NotSelected) else None)
      else Validation(true, Some(NoDataSource))
  }

  /**
   * Validation fails exactly when one of the two lists is missing; the data
   * source list gets "No data source exists" without items and "Data source
   * is not selected" when it has items but none is selected.
   */
  lemma ValidateSpec(storage: seq<Crate>)
    ensures var v := Validate(storage);
      && (v.valid <==> GetDropDown(storage, TemplateName).Some? && GetDropDown(storage, DataSourceName).Some?)
      && (!v.valid ==> v.sourceError.None?)
      && (v.valid ==>
            var source := GetDropDown(storage, DataSourceName).value;
            && (v.sourceError == Some(NoDataSource) <==> |source.kind.items| == 0)
            && (v.sourceError == Some(NotSelected) <==> |source.kind.items| > 0 && IsNullOrEmpty(source.kind.selectedKey))
            && (v.sourceError.None? <==> |source.kind.items| > 0 && !IsNullOrEmpty(source.kind.selectedKey)))
  {
  }

  // ---------------------------------------------------------------------
  // The first child

  /** HasFirstChildActivity. */
  function HasFirstChildActivity(children: Option<seq<ChildActivity>>, dataSourceValue: Option<string>): (r: bool)
    ensures r <==> children.Some? && exists c :: c in children.value && Some(c.templateName) == dataSourceValue && c.ordering == 1
  {
    children.Some? && AnyFirstChild(children.value, dataSourceValue)
  }

  /** Any(x => x.ActivityTemplate.Name == dataSourceValue && x.Ordering == 1), child by child. */
  function AnyFirstChild(children: seq<ChildActivity>, dataSourceValue: Option<string>): (r: bool)
    ensures r <==> exists c :: c in children && Some(c.templateName) == dataSourceValue && c.ordering == 1
  {
    if |children| == 0 then false
    else (Some(children[0].templateName) == dataSourceValue && children[0].ordering == 1)
         || (assert forall c :: c in children[1..] ==> c in children; AnyFirstChild(children[1..], dataSourceValue))
  }

  /** The templates with the given name, in order. */
  function Named(templates: seq<ActivityTemplate>, name: Option<string>): (r: seq<ActivityTemplate>)
    ensures forall t :: t in r <==> t in templates && Some(t.name) == name
  {
    if |templates| == 0 then []
    else (if Some(templates[0].name) == name then [templates[0]] else []) + Named(templates[1..], name)
  }

  /** Single(x => x.Name == name). */
  function Single(templates: seq<ActivityTemplate>, name: Option<string>): (r: Option<ActivityTemplate>)
    ensures r.Some? ==> r.value in templates && Some(r.value.name) == name
  {
    var named := Named(templates, name);
    if |named| == 1 then Some(named[0]) else None
  }

  /** List.Remove: the first occurrence goes. */
  function RemoveFirst(s: seq<ChildActivity>, x: ChildActivity): (r: seq<ChildActivity>)
    ensures |r| == (if x in s then |s| - 1 else |s|)
  {
    if |s| == 0 then []
    else if s[0] == x then s[1..]
    else [s[0]] + RemoveFirst(s[1..], x)
  }

  /** Removing an element that is there takes exactly one copy of it away. */
  lemma {:induction false} RemoveFirstMultiset(s: seq<ChildActivity>, x: ChildActivity)
    requires x in s
    ensures multiset(RemoveFirst(s, x)) == multiset(s) - multiset{x}
  {
    assert s == [s[0]] + s[1..];
    if s[0] != x {
      RemoveFirstMultiset(s[1..], x);
    }
  }

  /** Removing a just-appended element that was not there before gives back the old list. */
  lemma {:induction false} RemoveFirstAppended(s: seq<ChildActivity>, x: ChildActivity)
    requires x !in s
    ensures RemoveFirst(s + [x], x) == s
  {
    if |s| == 0 {
      assert s + [x] == [x];
    } else {
      assert (s + [x])[1..] == s[1..] + [x];
      RemoveFirstAppended(s[1..], x);
      assert [s[0]] + s[1..] == s;
    }
  }

  /** Remove and then Insert(0, x). */
  function MovedToFront(s: seq<ChildActivity>, x: ChildActivity): seq<ChildActivity> {
    [x] + RemoveFirst(s, x)
  }

  /** Moving a member to the front is a permutation with that member at index 0. */
  lemma MovedToFrontPermutes(s: seq<ChildActivity>, x: ChildActivity)
    requires x in s
    ensures |MovedToFront(s, x)| == |s| && MovedToFront(s, x)[0] == x
    ensures multiset(MovedToFront(s, x)) == multiset(s)
  {
    RemoveFirstMultiset(s, x);
  }

  /** The new child ends up first and the other children keep their order. */
  lemma NewChildFirst(s: seq<ChildActivity>, x: ChildActivity)
    requires x !in s
    ensures MovedToFront(s + [x], x) == [x] + s
  {
    RemoveFirstAppended(s, x);
  }

  /** CreateFirstChildActivity on the children list: the new child, or the failure of Single. */
  function CreatedFirstChild(children: Option<seq<ChildActivity>>, dataSourceValue: Option<string>,
                             templates: seq<ActivityTemplate>, newId: int): Result<(ChildActivity, seq<ChildActivity>), Failure>
  {
    match Single(templates, dataSourceValue)
    case None => Err(InvalidOperation)
    case Some(selected) =>
      var child := ChildActivity(newId, selected.name, 1);
      Ok((child, MovedToFront(children.GetOr([]) + [child], child)))
  }

  /** A created first child is found by HasFirstChildActivity afterwards. */
  lemma CreatedFirstChildIsFound(children: Option<seq<ChildActivity>>, dataSourceValue: Option<string>,
                                 templates: seq<ActivityTemplate>, newId: int)
    requires CreatedFirstChild(children, dataSourceValue, templates, newId).Ok?
    ensures HasFirstChildActivity(Some(CreatedFirstChild(children, dataSourceValue, templates, newId).value.1), dataSourceValue)
  {
    var r := CreatedFirstChild(children, dataSourceValue, templates, newId).value;
    assert r.1[0] == r.0;
  }

  // ---------------------------------------------------------------------
  // Documentation

  datatype Documentation =
    | SolutionPage(name: string, version: real, terminal: string, body: string)
    | DocumentationResponse(text: string)
    | ErrorResponse(message: string)

  const ExplainMailMergeText := "This solution helps you to work with email and move data from them to DocuSign service"
  const ExplainServiceText := "This solution works and DocuSign service and uses Fr8 infrastructure"
  const UnknownContentPath := "Unknown contentPath"
  const UnknownDisplayMechanism := "Unknown displayMechanism: we currently support MainPage and HelpMenu cases"

  /** GetDocumentation. */
  function GetDocumentation(curDocumentation: string): Documentation {
    if Contains(curDocumentation, "MainPage") then SolutionPage(SolutionName, SolutionVersion, TerminalName, SolutionBody)
    else if Contains(curDocumentation, "HelpMenu") then
      if Contains(curDocumentation, "ExplainMailMerge") then DocumentationResponse(ExplainMailMergeText)
      else if Contains(curDocumentation, "ExplainService") then DocumentationResponse(ExplainServiceText)
      else ErrorResponse(UnknownContentPath)
    else ErrorResponse(UnknownDisplayMechanism)
  }

  /**
   * "MainPage" wins over everything; "HelpMenu" answers the two known
   * explanations ("ExplainMailMerge" first) and "Unknown contentPath"
   * otherwise; anything else is an unknown display mechanism.
   */
  lemma DocumentationRouting(d: string)
    ensures GetDocumentation(d).SolutionPage? <==> Contains(d, "MainPage")
    ensures GetDocumentation(d) == DocumentationResponse(ExplainMailMergeText) <==>
      (!Contains(d, "MainPage") && Contains(d, "HelpMenu") && Contains(d, "ExplainMailMerge"))
    ensures GetDocumentation(d) == DocumentationResponse(ExplainServiceText) <==>
      (!Contains(d, "MainPage") && Contains(d, "HelpMenu") && !Contains(d, "ExplainMailMerge") && Contains(d, "ExplainService"))
    ensures GetDocumentation(d) == ErrorResponse(UnknownContentPath) <==>
      (!Contains(d, "MainPage") && Contains(d, "HelpMenu") && !Contains(d, "ExplainMailMerge") && !Contains(d, "ExplainService"))
    ensures GetDocumentation(d) == ErrorResponse(UnknownDisplayMechanism) <==> (!Contains(d, "MainPage") && !Contains(d, "HelpMenu"))
  {
  }

  // ---------------------------------------------------------------------
  // The activity

  class MailMergeActivity {
    var storage: Option<seq<Crate>>
    var children: Option<seq<ChildActivity>>
    var dataSourceValue: Option<string>
    var docuSignTemplate: Option<Control>

    constructor (storage: Option<seq<Crate>>, children: Option<seq<ChildActivity>>)
      ensures this.storage == storage && this.children == children
      ensures dataSourceValue.None? && docuSignTemplate.None?
    {
      this.storage := storage;
      this.children := children;
      dataSourceValue := None;
      docuSignTemplate := None;
    }

    function State(): MailMergeState
      reads this
    {
      MailMergeState(storage, children, dataSourceValue, docuSignTemplate)
    }

    method GetConfigurationRequestType() returns (r: Result<RequestType, Failure>)
      modifies this
      ensures r == RequestTypeOf(old(State()))
      ensures State() == AfterRequestType(old(State()))
    {
      if storage.None? || |storage.value| == 0 {
        return Ok(Initial);
      }
      var button := GetButton(storage.value, ContinueName);
      if button.None? {
        return Ok(Initial);
      }
      if !button.value.kind.clicked && (children.None? || |children.value| == 0) {
        return Ok(Initial);
      }
      var dataSource := GetDropDown(storage.value, DataSourceName);
      if dataSource.None? {
        return Err(NullReference);
      }
      if dataSource.value.value.Some? {
        dataSourceValue := dataSource.value.value;
      }
      docuSignTemplate := GetDropDown(storage.value, TemplateName);
      r := Ok(Followup);
    }

    /** `newId` is the id the hub gives the added child, distinct from every existing child's. */
    method CreateFirstChildActivity(templates: seq<ActivityTemplate>, newId: int) returns (r: Result<ChildActivity, Failure>)
      requires children.Some? ==> forall c :: c in children.value ==> c.id != newId
      modifies this
      ensures var created := CreatedFirstChild(old(children), dataSourceValue, templates, newId);
        && (created.Err? ==> r == Err(created.error) && children == old(children))
        && (created.Ok? ==> r == Ok(created.value.0) && children == Some(created.value.1))
      ensures children.Some? && r.Ok? ==> children.value == [r.value] + old(children).GetOr([])
      ensures storage == old(storage) && dataSourceValue == old(dataSourceValue) && docuSignTemplate == old(docuSignTemplate)
    {
      var selectedReceiver := Single(templates, dataSourceValue);
      if selectedReceiver.None? {
        return Err(InvalidOperation);
      }
      var dataSourceActivity := ChildActivity(newId, selectedReceiver.value.name, 1);
      var list := children.GetOr([]);
      assert dataSourceActivity !in list;
      NewChildFirst(list, dataSourceActivity);
      list := list + [dataSourceActivity];
      list := RemoveFirst(list, dataSourceActivity);
      list := [dataSourceActivity] + list;
      children := Some(list);
      r := Ok(dataSourceActivity);
    }
  }
}
